/**
 * lib/memory-manager.ts: folding a user's stored memories into the context that
 * personalises every prompt.
 *
 * The memories arrive newest first (the query orders by `created_at`
 * descending), so "first occurrence" below means "most recent mention".
 */
module MemoryManager {
  import opened Wrappers
  import opened Seqs

  /**
   * The JSON `content` of one memory row, as far as consolidation reads it. A
   * list field is `None` when it is absent or not an array; a text field is
   * `""` when it is absent (both are falsy and skipped alike).
   */
  datatype Content = Content(
    industries: Option<seq<string>>,
    audience: string,
    goals: string,
    trends: Option<seq<string>>)

  /** The consolidated user context handed to the prompt builders. */
  datatype UserContext = UserContext(
    industries: seq<string>,
    audience: string,
    goals: string,
    previousTrends: seq<string>)

  /** The context returned for a new user, on any query failure and for no memories. */
  const EmptyContext := UserContext([], "", "", [])

  /** An absent or non-array list field contributes no elements. */
  function ListOrEmpty(o: Option<seq<string>>): seq<string> {
    if o.Some? then o.value else []
  }

  function IndustryLists(ms: seq<Content>): seq<seq<string>> {
    seq(|ms|, i requires 0 <= i < |ms| => ListOrEmpty(ms[i].industries))
  }

  function TrendLists(ms: seq<Content>): seq<seq<string>> {
    seq(|ms|, i requires 0 <= i < |ms| => ListOrEmpty(ms[i].trends))
  }

  function Audiences(ms: seq<Content>): seq<string> {
    seq(|ms|, i requires 0 <= i < |ms| => ms[i].audience)
  }

  function Goals(ms: seq<Content>): seq<string> {
    seq(|ms|, i requires 0 <= i < |ms| => ms[i].goals)
  }

  /** What consolidation computes, field by field. */
  function Consolidated(ms: seq<Content>): UserContext {
    UserContext(
      Distinct(Concat(IndustryLists(ms))),
      Longest(Audiences(ms)),
      Longest(Goals(ms)),
      Distinct(Concat(TrendLists(ms))))
  }

  /** The per-memory step of the consolidation loop, as a relation between prefixes. */
  lemma ConsolidatedSnoc(ms: seq<Content>, k: nat)
    requires k < |ms|
    ensures Consolidated(ms[..k + 1]).industries
         == AddNew(Consolidated(ms[..k]).industries, ListOrEmpty(ms[k].industries))
    ensures Consolidated(ms[..k + 1]).previousTrends
         == AddNew(Consolidated(ms[..k]).previousTrends, ListOrEmpty(ms[k].trends))
    ensures Consolidated(ms[..k + 1]).audience == Longer(Consolidated(ms[..k]).audience, ms[k].audience)
    ensures Consolidated(ms[..k + 1]).goals == Longer(Consolidated(ms[..k]).goals, ms[k].goals)
  {
    var a, b := ms[..k], ms[..k + 1];
    assert IndustryLists(b) == IndustryLists(a) + [ListOrEmpty(ms[k].industries)];
    assert TrendLists(b) == TrendLists(a) + [ListOrEmpty(ms[k].trends)];
    assert Audiences(b)[..k] == Audiences(a);
    assert Goals(b)[..k] == Goals(a);
    DistinctConcatSnoc(IndustryLists(a), ListOrEmpty(ms[k].industries));
    DistinctConcatSnoc(TrendLists(a), ListOrEmpty(ms[k].trends));
  }

  /** `MemoryManager.consolidateMemories`: the nested loops over memories and their lists. */
  method ConsolidateMemories(memories: seq<Content>) returns (context: UserContext)
    ensures context == Consolidated(memories)
  {
    var industries: seq<string> := [];
    var audience := "";
    var goals := "";
    var previousTrends: seq<string> := [];
    var k := 0;
    while k < |memories|
      invariant 0 <= k <= |memories|
      invariant UserContext(industries, audience, goals, previousTrends) == Consolidated(memories[..k])
    {
      var content := memories[k];
      ConsolidatedSnoc(memories, k);
      if content.industries.Some? {
        industries := AppendMissing(industries, content.industries.value);
      }
      if content.audience != "" && (audience == "" || |content.audience| > |audience|) {
        audience := content.audience;
      }
      if content.goals != "" && (goals == "" || |content.goals| > |goals|) {
        goals := content.goals;
      }
      if content.trends.Some? {
        previousTrends := AppendMissing(previousTrends, content.trends.value);
      }
      k := k + 1;
    }
    assert memories[..k] == memories;
    context := UserContext(industries, audience, goals, previousTrends);
  }

  // ---------------------------------------------------------------------------
  // What consolidation promises

  /** Some memory lists `x` in the given field's array. */
  ghost predicate MentionedIn(lists: seq<seq<string>>, x: string) {
    exists i :: 0 <= i < |lists| && x in lists[i]
  }

  /**
   * `industries`: no duplicates; exactly the strings some memory's array holds;
   * in order of first occurrence across the (newest-first) memories. The same
   * three facts single it out among all sequences.
   */
  lemma ConsolidatedIndustries(ms: seq<Content>)
    ensures NoDup(Consolidated(ms).industries)
    ensures forall x :: x in Consolidated(ms).industries <==> MentionedIn(IndustryLists(ms), x)
    ensures FirstOccurrenceOrdered(Consolidated(ms).industries, Concat(IndustryLists(ms)))
    ensures forall r :: IsOrderedUnion(r, Concat(IndustryLists(ms))) ==> r == Consolidated(ms).industries
  {
    var s := Concat(IndustryLists(ms));
    DistinctIsOrderedUnion(s);
    forall x {
      ConcatMember(IndustryLists(ms), x);
    }
    forall r | IsOrderedUnion(r, s) ensures r == Consolidated(ms).industries {
      OrderedUnionIsDistinct(r, s);
    }
  }

  /** `previousTrends` follows the same ordered-union rule over the `trends` arrays. */
  lemma ConsolidatedTrends(ms: seq<Content>)
    ensures NoDup(Consolidated(ms).previousTrends)
    ensures forall x :: x in Consolidated(ms).previousTrends <==> MentionedIn(TrendLists(ms), x)
    ensures FirstOccurrenceOrdered(Consolidated(ms).previousTrends, Concat(TrendLists(ms)))
    ensures forall r :: IsOrderedUnion(r, Concat(TrendLists(ms))) ==> r == Consolidated(ms).previousTrends
  {
    var s := Concat(TrendLists(ms));
    DistinctIsOrderedUnion(s);
    forall x {
      ConcatMember(TrendLists(ms), x);
    }
    forall r | IsOrderedUnion(r, s) ensures r == Consolidated(ms).previousTrends {
      OrderedUnionIsDistinct(r, s);
    }
  }

  /**
   * `audience` and `goals`: empty when every memory's is, otherwise the longest,
   * the earliest (most recent) one winning ties; no other string qualifies.
   */
  lemma ConsolidatedAudienceAndGoals(ms: seq<Content>)
    ensures IsEarliestLongest(Consolidated(ms).audience, Audiences(ms))
    ensures IsEarliestLongest(Consolidated(ms).goals, Goals(ms))
    ensures forall r :: IsEarliestLongest(r, Audiences(ms)) ==> r == Consolidated(ms).audience
    ensures forall r :: IsEarliestLongest(r, Goals(ms)) ==> r == Consolidated(ms).goals
  {
    LongestIsEarliestLongest(Audiences(ms));
    LongestIsEarliestLongest(Goals(ms));
    forall r | IsEarliestLongest(r, Audiences(ms)) ensures r == Consolidated(ms).audience {
      EarliestLongestUnique(r, Audiences(ms));
    }
    forall r | IsEarliestLongest(r, Goals(ms)) ensures r == Consolidated(ms).goals {
      EarliestLongestUnique(r, Goals(ms));
    }
  }

  /** A memory whose list field is absent or not an array leaves that list as if it were not there. */
  lemma AbsentListContributesNothing(before: seq<Content>, m: Content, after: seq<Content>)
    ensures m.industries.None? ==>
      Consolidated(before + [m] + after).industries == Consolidated(before + after).industries
    ensures m.trends.None? ==>
      Consolidated(before + [m] + after).previousTrends == Consolidated(before + after).previousTrends
  {
    var all := before + [m] + after;
    if m.industries.None? {
      assert IndustryLists(all) == IndustryLists(before) + [[]] + IndustryLists(after);
      assert IndustryLists(before + after) == IndustryLists(before) + IndustryLists(after);
      ConcatDropEmpty(IndustryLists(before), IndustryLists(after));
    }
    if m.trends.None? {
      assert TrendLists(all) == TrendLists(before) + [[]] + TrendLists(after);
      assert TrendLists(before + after) == TrendLists(before) + TrendLists(after);
      ConcatDropEmpty(TrendLists(before), TrendLists(after));
    }
  }

  /** No memories consolidate to the same empty context every fallback of `getUserContext` returns. */
  lemma NoMemoriesGiveEmptyContext()
    ensures Consolidated([]) == EmptyContext
  {
  }

  // ---------------------------------------------------------------------------
  // getUserContext, over abstract query results

  /** A memory row; a `null` content makes the loop throw when it reads a field. */
  datatype MemoryRow = MemoryRow(content: Option<Content>)

  /** The memories query: an error, or its data (`null` data is `None`). */
  datatype MemoriesQuery = MemoriesError | MemoriesData(rows: Option<seq<MemoryRow>>)

  /** The memory contents consolidation reads, when the query yields rows and none has a null content. */
  function StoredContents(query: MemoriesQuery): Option<seq<Content>> {
    if query.MemoriesData? && query.rows.Some? && forall r :: r in query.rows.value ==> r.content.Some?
    then Some(seq(|query.rows.value|, i requires 0 <= i < |query.rows.value| => query.rows.value[i].content.value))
    else None
  }

  /**
   * `MemoryManager.getUserContext`: `userFound` is false when the user lookup
   * errs or finds nothing, in which case the user row is created. A null
   * content makes consolidation throw, and the surrounding `catch` returns the
   * empty context.
   */
  method GetUserContext(userFound: bool, query: MemoriesQuery) returns (context: UserContext, createdUser: bool)
    ensures createdUser <==> !userFound
    ensures !userFound ==> context == EmptyContext
    ensures userFound && StoredContents(query).Some? ==> context == Consolidated(StoredContents(query).value)
    ensures StoredContents(query).None? ==> context == EmptyContext
  {
    if !userFound {
      return EmptyContext, true;
    }
    createdUser := false;
    if query.MemoriesError? || query.rows.None? || |query.rows.value| == 0 {
      context := EmptyContext;
      if query.MemoriesData? && query.rows.Some? {
        NoMemoriesGiveEmptyContext();
      }
    } else if StoredContents(query).None? {
      context := EmptyContext;
    } else {
      context := ConsolidateMemories(StoredContents(query).value);
    }
  }
}
