/**
 * app/api/user/profile/route.ts: the profile endpoint's response choice and
 * its (unused) helper that folds memories into a profile.
 */
module ProfileRoute {
  import opened Wrappers
  import opened Seqs
  import Text
  import MemoryManager

  /** The profile object the endpoint returns; `trends` plays the part of `previousTrends`. */
  datatype Profile = Profile(industries: seq<string>, audience: string, goals: string, trends: seq<string>)

  const EmptyProfile := Profile([], "", "", [])

  /**
   * `extractProfileFromMemories`: the same nested loops as
   * `consolidateMemories`, building a `Profile`. It agrees with consolidation
   * field for field, so the properties proved there carry over.
   */
  method ExtractProfileFromMemories(memories: seq<MemoryManager.Content>) returns (profile: Profile)
    ensures profile.industries == MemoryManager.Consolidated(memories).industries
    ensures profile.audience == MemoryManager.Consolidated(memories).audience
    ensures profile.goals == MemoryManager.Consolidated(memories).goals
    ensures profile.trends == MemoryManager.Consolidated(memories).previousTrends
    ensures NoDup(profile.industries) && NoDup(profile.trends)
  {
    profile := EmptyProfile;
    var k := 0;
    while k < |memories|
      invariant 0 <= k <= |memories|
      invariant var c := MemoryManager.Consolidated(memories[..k]);
        profile == Profile(c.industries, c.audience, c.goals, c.previousTrends)
    {
      var content := memories[k];
      MemoryManager.ConsolidatedSnoc(memories, k);
      if content.industries.Some? {
        var industries := AppendMissing(profile.industries, content.industries.value);
        profile := profile.(industries := industries);
      }
      if content.audience != "" && (profile.audience == "" || |content.audience| > |profile.audience|) {
        profile := profile.(audience := content.audience);
      }
      if content.goals != "" && (profile.goals == "" || |content.goals| > |profile.goals|) {
        profile := profile.(goals := content.goals);
      }
      if content.trends.Some? {
        var trends := AppendMissing(profile.trends, content.trends.value);
        profile := profile.(trends := trends);
      }
      k := k + 1;
    }
    assert memories[..k] == memories;
    MemoryManager.ConsolidatedIndustries(memories);
    MemoryManager.ConsolidatedTrends(memories);
  }

  // ---------------------------------------------------------------------------
  // GET: the response chosen from the request and the users query

  /** The `users` query: an error with its message, or its data (`null` data is `None`). */
  datatype UsersQuery = UsersError(message: string) | UsersData(users: Option<seq<string>>)

  datatype Body =
    | ErrorBody(error: string, setupRequired: bool)
    | ProfileBody(userId: string, profile: Profile, memoryCount: nat, databaseStatus: string)

  datatype Response = Response(status: nat, body: Body)

  /** `VERCEL_ENV === "preview" || NODE_ENV === "development"`: the database is not touched. */
  predicate SkipsDatabase(vercelEnv: string, nodeEnv: string) {
    vercelEnv == "preview" || nodeEnv == "development"
  }

  const SetupMessage := "Database not set up properly. Please run the schema.sql script in your Supabase project."

  /**
   * `GET`. `userId` is the `userId` query parameter, `""` when absent; `query`
   * is what the users lookup would return, consulted only on the path that
   * performs it.
   */
  function Get(userId: string, vercelEnv: string, nodeEnv: string, query: UsersQuery): Response {
    if userId == "" then
      Response(400, ErrorBody("User ID is required", false))
    else if SkipsDatabase(vercelEnv, nodeEnv) then
      Response(200, ProfileBody(userId, EmptyProfile, 0, "skipped_build"))
    else if query.UsersError? && Text.Includes(query.message, "does not exist") then
      Response(500, ErrorBody(SetupMessage, true))
    else if query.UsersError? then
      Response(500, ErrorBody("Database error", false))
    else
      Response(200, ProfileBody(userId, EmptyProfile, 0, if query.users.Some? then "ready" else "not_setup"))
  }

  /** Without a user id the answer is 400 whatever the lookup would have returned: no lookup is made. */
  lemma GetWithoutUserId(vercelEnv: string, nodeEnv: string, q1: UsersQuery, q2: UsersQuery)
    ensures Get("", vercelEnv, nodeEnv, q1).status == 400
    ensures Get("", vercelEnv, nodeEnv, q1) == Get("", vercelEnv, nodeEnv, q2)
  {
  }

  /**
   * A failed lookup answers 500; it asks for setup exactly when the error
   * message contains "does not exist" somewhere, and otherwise reports
   * "Database error".
   */
  lemma GetQueryError(userId: string, vercelEnv: string, nodeEnv: string, message: string)
    requires userId != "" && !SkipsDatabase(vercelEnv, nodeEnv)
    ensures Get(userId, vercelEnv, nodeEnv, UsersError(message)).status == 500
    ensures Get(userId, vercelEnv, nodeEnv, UsersError(message)).body.ErrorBody?
    ensures Get(userId, vercelEnv, nodeEnv, UsersError(message)).body.setupRequired
        <==> exists i :: Text.OccursAt(message, "does not exist", i)
    ensures !Get(userId, vercelEnv, nodeEnv, UsersError(message)).body.setupRequired
        ==> Get(userId, vercelEnv, nodeEnv, UsersError(message)).body.error == "Database error"
  {
    Text.IncludesIff(message, "does not exist");
  }

  /**
   * Every 200 answer carries the requesting user's id, the empty profile and
   * a memory count of 0; the status is "ready" exactly when the lookup
   * returned data, and "skipped_build" exactly when the database is skipped.
   */
  lemma GetSuccess(userId: string, vercelEnv: string, nodeEnv: string, query: UsersQuery)
    requires Get(userId, vercelEnv, nodeEnv, query).status == 200
    ensures Get(userId, vercelEnv, nodeEnv, query).body.ProfileBody?
    ensures Get(userId, vercelEnv, nodeEnv, query).body.userId == userId && userId != ""
    ensures Get(userId, vercelEnv, nodeEnv, query).body.profile == EmptyProfile
    ensures Get(userId, vercelEnv, nodeEnv, query).body.memoryCount == 0
    ensures Get(userId, vercelEnv, nodeEnv, query).body.databaseStatus == "skipped_build"
        <==> SkipsDatabase(vercelEnv, nodeEnv)
    ensures !SkipsDatabase(vercelEnv, nodeEnv) ==>
      (Get(userId, vercelEnv, nodeEnv, query).body.databaseStatus == "ready" <==> query.UsersData? && query.users.Some?)
  {
  }

  /** The status is always one of 200, 400 and 500, and an error body goes with 400 or 500. */
  lemma GetStatuses(userId: string, vercelEnv: string, nodeEnv: string, query: UsersQuery)
    ensures Get(userId, vercelEnv, nodeEnv, query).status in {200, 400, 500}
    ensures Get(userId, vercelEnv, nodeEnv, query).body.ErrorBody?
        <==> Get(userId, vercelEnv, nodeEnv, query).status != 200
  {
  }
}
