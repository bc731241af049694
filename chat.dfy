/**
 * app/api/chat/route.ts: the keyword tool router, the assembly of tool
 * results under their keys, and the prompt template with its placeholders.
 */
module ChatRoute {
  import opened Text
  import opened Seqs
  import MemoryManager

  /** A chat message as the route reads it. */
  datatype ChatMessage = ChatMessage(role: string, content: string)

  // ---------------------------------------------------------------------------
  // determineToolsToUse

  const NewsTool := "news-api"
  const SearchTool := "serper-api"

  /** The lower-cased message mentions news, articles or publications. */
  predicate WantsNews(message: string) {
    var m := Lower(message);
    Includes(m, "news") || Includes(m, "articles") || Includes(m, "publications")
  }

  /** The lower-cased message mentions search, trends or online. */
  predicate WantsSearch(message: string) {
    var m := Lower(message);
    Includes(m, "search") || Includes(m, "trends") || Includes(m, "online")
  }

  /** The tools a message selects: the news tool first, then the search tool. */
  function ToolsFor(message: string): seq<string> {
    (if WantsNews(message) then [NewsTool] else []) + (if WantsSearch(message) then [SearchTool] else [])
  }

  /** `determineToolsToUse`: two keyword tests, each pushing one tool name. */
  method DetermineToolsToUse(message: string) returns (tools: seq<string>)
    ensures tools == ToolsFor(message)
    ensures NewsTool in tools <==> WantsNews(message)
    ensures SearchTool in tools <==> WantsSearch(message)
  {
    tools := [];
    if WantsNews(message) {
      tools := tools + [NewsTool];
    }
    if WantsSearch(message) {
      tools := tools + [SearchTool];
    }
  }

  /** The spec function selects each tool exactly when its keyword test passes. */
  lemma ToolsForSelects(message: string)
    ensures NewsTool in ToolsFor(message) <==> WantsNews(message)
    ensures SearchTool in ToolsFor(message) <==> WantsSearch(message)
  {
    assert NewsTool != SearchTool by {
      assert NewsTool[0] != SearchTool[0];
    }
  }

  /**
   * The router's answer is one of the four ordered, duplicate-free
   * subsequences of [news-api, serper-api].
   */
  lemma RouterShape(message: string)
    ensures || ToolsFor(message) == []
            || ToolsFor(message) == [NewsTool]
            || ToolsFor(message) == [SearchTool]
            || ToolsFor(message) == [NewsTool, SearchTool]
    ensures NoDup(ToolsFor(message)) && |ToolsFor(message)| <= 2
  {
    assert NewsTool != SearchTool by {
      assert NewsTool[0] != SearchTool[0];
    }
  }

  /** Each tool is selected exactly when one of its three keywords occurs in the lower-cased message. */
  lemma RouterKeywords(message: string)
    ensures NewsTool in ToolsFor(message) <==> MentionsAny(Lower(message), ["news", "articles", "publications"])
    ensures SearchTool in ToolsFor(message) <==> MentionsAny(Lower(message), ["search", "trends", "online"])
  {
    var m := Lower(message);
    assert NewsTool != SearchTool by {
      assert NewsTool[0] != SearchTool[0];
    }
    IncludesAnyOfThree(m, "news", "articles", "publications");
    IncludesAnyOfThree(m, "search", "trends", "online");
  }

  /** Some word of `words` occurs somewhere in `m`. */
  ghost predicate MentionsAny(m: string, words: seq<string>) {
    exists w, i :: w in words && OccursAt(m, w, i)
  }

  lemma IncludesAnyOfThree(m: string, a: string, b: string, c: string)
    ensures Includes(m, a) || Includes(m, b) || Includes(m, c) <==> MentionsAny(m, [a, b, c])
  {
    IncludesIff(m, a);
    IncludesIff(m, b);
    IncludesIff(m, c);
    if MentionsAny(m, [a, b, c]) {
      var w, i :| w in [a, b, c] && OccursAt(m, w, i);
      assert w == a || w == b || w == c;
    }
    if Includes(m, a) {
      var i :| OccursAt(m, a, i);
      assert a in [a, b, c];
    } else if Includes(m, b) {
      var i :| OccursAt(m, b, i);
      assert b in [a, b, c];
    } else if Includes(m, c) {
      var i :| OccursAt(m, c, i);
      assert c in [a, b, c];
    }
  }

  /** Routing ignores case: a message and its lower-cased form select the same tools. */
  lemma RouterCaseInsensitive(message: string)
    ensures ToolsFor(message) == ToolsFor(Lower(message))
  {
    LowerIdempotent(message);
  }

  // ---------------------------------------------------------------------------
  // fetchRealTimeData

  /**
   * The real-time data object: the news tool's answer under "news" when the
   * news tool is selected, the search tool's answer under "search" when the
   * search tool is. The two tool calls are oracles from the query and the
   * user's industries to the data they return.
   */
  function RealTimeData<D>(
    tools: seq<string>, query: string, industries: seq<string>,
    fetchNews: (string, seq<string>) -> D, search: (string, seq<string>) -> D): map<string, D>
  {
    var withNews := if NewsTool in tools then map["news" := fetchNews(query, industries)] else map[];
    if SearchTool in tools then withNews["search" := search(query, industries)] else withNews
  }

  /** The keys are "news" and "search" exactly for the selected tools, each holding its own tool's answer. */
  lemma RealTimeDataKeys<D>(
    tools: seq<string>, query: string, industries: seq<string>,
    fetchNews: (string, seq<string>) -> D, search: (string, seq<string>) -> D)
    ensures var r := RealTimeData(tools, query, industries, fetchNews, search);
      && ("news" in r <==> NewsTool in tools)
      && ("search" in r <==> SearchTool in tools)
      && r.Keys <= {"news", "search"}
      && ("news" in r ==> r["news"] == fetchNews(query, industries))
      && ("search" in r ==> r["search"] == search(query, industries))
  {
  }

  /** One more tool stores its answer under its key, overwriting nothing else. */
  function StoreToolAnswer<D>(
    results: map<string, D>, tool: string, query: string, industries: seq<string>,
    fetchNews: (string, seq<string>) -> D, search: (string, seq<string>) -> D): map<string, D>
  {
    var withNews := if tool == NewsTool then results["news" := fetchNews(query, industries)] else results;
    if tool == SearchTool then withNews["search" := search(query, industries)] else withNews
  }

  lemma RealTimeDataSnoc<D>(
    tools: seq<string>, tool: string, query: string, industries: seq<string>,
    fetchNews: (string, seq<string>) -> D, search: (string, seq<string>) -> D)
    ensures RealTimeData(tools + [tool], query, industries, fetchNews, search)
         == StoreToolAnswer(RealTimeData(tools, query, industries, fetchNews, search), tool, query, industries, fetchNews, search)
  {
  }

  /** `fetchRealTimeData`: for each selected tool, in order, store that tool's answer under its key. */
  method FetchRealTimeData<D>(
    tools: seq<string>, query: string, industries: seq<string>,
    fetchNews: (string, seq<string>) -> D, search: (string, seq<string>) -> D)
    returns (results: map<string, D>)
    ensures results == RealTimeData(tools, query, industries, fetchNews, search)
  {
    results := map[];
    var i := 0;
    while i < |tools|
      invariant 0 <= i <= |tools|
      invariant results == RealTimeData(tools[..i], query, industries, fetchNews, search)
    {
      assert tools[..i + 1] == tools[..i] + [tools[i]];
      RealTimeDataSnoc(tools[..i], tools[i], query, industries, fetchNews, search);
      var tool := tools[i];
      if tool == NewsTool {
        results := results["news" := fetchNews(query, industries)];
      }
      if tool == SearchTool {
        results := results["search" := search(query, industries)];
      }
      i := i + 1;
    }
    assert tools[..i] == tools;
  }

  // ---------------------------------------------------------------------------
  // createEnhancedPrompt

  /** JavaScript's `text || fallback` on a string. */
  function OrElse(text: string, fallback: string): string {
    if text == "" then fallback else text
  }

  function IndustriesText(context: MemoryManager.UserContext): string {
    OrElse(Join(context.industries, ", "), "Not specified yet")
  }

  function AudienceText(context: MemoryManager.UserContext): string {
    OrElse(context.audience, "Not specified yet")
  }

  function GoalsText(context: MemoryManager.UserContext): string {
    OrElse(context.goals, "Not specified yet")
  }

  function TrendsText(context: MemoryManager.UserContext): string {
    OrElse(Join(context.previousTrends, ", "), "None yet")
  }

  /**
   * The placeholder replaces a list exactly when the list joins to the empty
   * string, that is, when it is empty or holds one empty string; audience and
   * goals fall back exactly when empty.
   */
  lemma PlaceholderRules(context: MemoryManager.UserContext)
    ensures IndustriesText(context)
         == if context.industries == [] || context.industries == [""] then "Not specified yet"
            else Join(context.industries, ", ")
    ensures TrendsText(context)
         == if context.previousTrends == [] || context.previousTrends == [""] then "None yet"
            else Join(context.previousTrends, ", ")
    ensures AudienceText(context) != ""
    ensures GoalsText(context) != ""
  {
    JoinEmptyIff(context.industries, ", ");
    JoinEmptyIff(context.previousTrends, ", ");
  }

  /** One conversation entry, `${m.role}: ${m.content}`. */
  function Entry(m: ChatMessage): string {
    m.role + ": " + m.content
  }

  function Entries(messages: seq<ChatMessage>): seq<string> {
    seq(|messages|, i requires 0 <= i < |messages| => Entry(messages[i]))
  }

  /** `messages.map((m) => `${m.role}: ${m.content}`).join(sep)`. */
  function FormatConversation(messages: seq<ChatMessage>, sep: string): string {
    Join(Entries(messages), sep)
  }

  /** The conversation block keeps message order: one more message adds one entry at the end. */
  lemma ConversationAppend(messages: seq<ChatMessage>, m: ChatMessage, sep: string)
    requires messages != []
    ensures FormatConversation(messages + [m], sep) == FormatConversation(messages, sep) + sep + Entry(m)
  {
    assert Entries(messages + [m]) == Entries(messages) + [Entry(m)];
    JoinAppend(Entries(messages), [Entry(m)], sep);
  }

  /**
   * The fixed lines of the prompt template, each with its four-space indent.
   * The prompt functions take them as a record so that the properties below
   * hold whatever the wording; `Wording` is the text both routes use.
   */
  datatype Template = Template(
    intro: string,
    contextHeader: string,
    industriesLabel: string,
    audienceLabel: string,
    goalsLabel: string,
    trendsLabel: string,
    realTimeHeader: string,
    task: string,
    compare: string,
    specific: string,
    historyHeader: string)

  const Wording := Template(
    "    You are TrendSeer AI, an advanced trend analysis assistant.",
    "    USER CONTEXT:",
    "    Industries of interest: ",
    "    Target audience: ",
    "    Content strategy goals: ",
    "    Previously discussed trends: ",
    "    REAL-TIME DATA:",
    "    Your task is to analyze trends based on the user's query and provide insightful analysis.",
    "    Compare current trends with historical patterns when relevant.",
    "    Be specific and actionable in your recommendations.",
    "    CONVERSATION HISTORY:")

  /**
   * The part of the template shared by both chat routes: from the opening
   * newline to the last instruction line, placeholders filled in.
   */
  function ContextBlock(t: Template, context: MemoryManager.UserContext, realTimeJson: string): string {
    "\n" + t.intro
    + "\n    \n" + t.contextHeader
    + "\n" + t.industriesLabel + IndustriesText(context)
    + "\n" + t.audienceLabel + AudienceText(context)
    + "\n" + t.goalsLabel + GoalsText(context)
    + "\n" + t.trendsLabel + TrendsText(context)
    + "\n    \n" + t.realTimeHeader
    + "\n    " + realTimeJson
    + "\n    \n" + t.task
    + "\n" + t.compare
    + "\n" + t.specific
  }

  /** The enhanced prompt: the shared block, then the conversation history. */
  function EnhancedPrompt(t: Template, messages: seq<ChatMessage>, context: MemoryManager.UserContext, realTimeJson: string): string {
    ContextBlock(t, context, realTimeJson) + "\n    \n" + t.historyHeader
    + "\n    " + FormatConversation(messages, "\n") + "\n  "
  }

  /**
   * `createEnhancedPrompt`, with the route's wording. `realTimeJson` stands
   * for `JSON.stringify(realTimeData, null, 2)`.
   */
  function CreateEnhancedPrompt(messages: seq<ChatMessage>, context: MemoryManager.UserContext, realTimeJson: string): string {
    EnhancedPrompt(Wording, messages, context, realTimeJson)
  }

  /** A string is determined by what lies between a fixed head and a fixed tail. */
  lemma FramedEqual(head: string, a: string, b: string, tail: string)
    ensures head + a + tail == head + b + tail <==> a == b
  {
    if head + a + tail == head + b + tail {
      assert a == (head + a + tail)[|head|..|head| + |a|];
    }
  }

  /**
   * For a fixed context and real-time data, two conversations give the same
   * prompt exactly when they format to the same history text: the prompt
   * carries the whole conversation, and nothing else in it varies with it.
   */
  lemma EnhancedPromptCarriesConversation(
    t: Template, m1: seq<ChatMessage>, m2: seq<ChatMessage>, context: MemoryManager.UserContext, realTimeJson: string)
    ensures EnhancedPrompt(t, m1, context, realTimeJson) == EnhancedPrompt(t, m2, context, realTimeJson)
        <==> FormatConversation(m1, "\n") == FormatConversation(m2, "\n")
  {
    var head := ContextBlock(t, context, realTimeJson) + "\n    \n" + t.historyHeader + "\n    ";
    FramedEqual(head, FormatConversation(m1, "\n"), FormatConversation(m2, "\n"), "\n  ");
  }
}
