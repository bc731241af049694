/**
 * app/api/chat/simple/route.ts: the non-streaming chat endpoint. Its own
 * copies of the tool router and of the real-time data loop, the prompt it
 * sends, the guard around the memory update, and the fallback value of the
 * conversation summary.
 *
 * The database, the tools and the language model are parameters: the user
 * context `getUserContext` returns, the two tool calls as functions, the
 * `JSON.stringify` rendering as a function, and the model's replies as
 * `Generation` values. `Post` records, in order, the outside calls it makes.
 */
module SimpleChatRoute {
  import opened Wrappers
  import opened Text
  import opened Seqs
  import MemoryManager
  import ChatRoute

  type ChatMessage = ChatRoute.ChatMessage

  // ---------------------------------------------------------------------------
  // determineToolsToUse and fetchRealTimeData (this route's copies)

  /** This route's `determineToolsToUse`: it selects exactly what the streaming route's router selects. */
  method DetermineToolsToUse(message: string) returns (tools: seq<string>)
    ensures tools == ChatRoute.ToolsFor(message)
  {
    tools := [];
    var m := Lower(message);
    if Includes(m, "news") || Includes(m, "articles") || Includes(m, "publications") {
      tools := tools + [ChatRoute.NewsTool];
    }
    if Includes(m, "search") || Includes(m, "trends") || Includes(m, "online") {
      tools := tools + [ChatRoute.SearchTool];
    }
  }

  /** An outside call the route makes, with what it sends. */
  datatype Call =
    | LoadUserContext(userId: string)
    | FetchNews(query: string, industries: seq<string>)
    | Search(query: string, industries: seq<string>)
    | Generate(prompt: string)
    | Summarize(conversation: seq<ChatMessage>)
    | UpdateMemory(userId: string, summary: Summary)

  /** The tool calls the loop makes for one tool name. */
  function StepCalls(tool: string, query: string, industries: seq<string>): seq<Call> {
    (if tool == ChatRoute.NewsTool then [FetchNews(query, industries)] else [])
    + (if tool == ChatRoute.SearchTool then [Search(query, industries)] else [])
  }

  /** The tool calls of the whole loop, in tool order. */
  function ToolCalls(tools: seq<string>, query: string, industries: seq<string>): (r: seq<Call>)
    ensures forall c :: c in r ==> c == FetchNews(query, industries) || c == Search(query, industries)
    ensures FetchNews(query, industries) in r <==> ChatRoute.NewsTool in tools
    ensures Search(query, industries) in r <==> ChatRoute.SearchTool in tools
  {
    if tools == [] then []
    else
      assert tools == tools[..|tools| - 1] + [tools[|tools| - 1]];
      ToolCalls(tools[..|tools| - 1], query, industries) + StepCalls(tools[|tools| - 1], query, industries)
  }

  lemma ToolCallsSnoc(tools: seq<string>, tool: string, query: string, industries: seq<string>)
    ensures ToolCalls(tools + [tool], query, industries) == ToolCalls(tools, query, industries) + StepCalls(tool, query, industries)
  {
    assert (tools + [tool])[..|tools|] == tools;
  }

  /**
   * This route's `fetchRealTimeData`: the same keys and values as the
   * streaming route's, and one outside call per selected tool, in order.
   */
  method FetchRealTimeData<D>(
    tools: seq<string>, query: string, industries: seq<string>,
    fetchNews: (string, seq<string>) -> D, search: (string, seq<string>) -> D)
    returns (results: map<string, D>, calls: seq<Call>)
    ensures results == ChatRoute.RealTimeData(tools, query, industries, fetchNews, search)
    ensures calls == ToolCalls(tools, query, industries)
  {
    results, calls := map[], [];
    var i := 0;
    while i < |tools|
      invariant 0 <= i <= |tools|
      invariant results == ChatRoute.RealTimeData(tools[..i], query, industries, fetchNews, search)
      invariant calls == ToolCalls(tools[..i], query, industries)
    {
      assert tools[..i + 1] == tools[..i] + [tools[i]];
      ToolCallsSnoc(tools[..i], tools[i], query, industries);
      ChatRoute.RealTimeDataSnoc(tools[..i], tools[i], query, industries, fetchNews, search);
      var tool := tools[i];
      if tool == ChatRoute.NewsTool {
        results := results["news" := fetchNews(query, industries)];
      }
      if tool == ChatRoute.SearchTool {
        results := results["search" := search(query, industries)];
      }
      calls := calls + StepCalls(tool, query, industries);
      i := i + 1;
    }
    assert tools[..i] == tools;
  }

  // ---------------------------------------------------------------------------
  // The prompt

  /** The system prompt: the shared block, closed by the template's last line. */
  function SystemPrompt(t: ChatRoute.Template, context: MemoryManager.UserContext, realTimeJson: string): string {
    ChatRoute.ContextBlock(t, context, realTimeJson) + "\n  "
  }

  /** `createSystemPrompt`, with the wording the streaming route uses too. */
  function CreateSystemPrompt(context: MemoryManager.UserContext, realTimeJson: string): string {
    SystemPrompt(ChatRoute.Wording, context, realTimeJson)
  }

  /**
   * This route's system prompt and the streaming route's prompt begin with
   * the same block, and each goes on past it.
   */
  lemma SystemPromptSharesContext(
    t: ChatRoute.Template, messages: seq<ChatMessage>, context: MemoryManager.UserContext, realTimeJson: string)
    ensures var block := ChatRoute.ContextBlock(t, context, realTimeJson);
      && |block| < |SystemPrompt(t, context, realTimeJson)|
      && |block| < |ChatRoute.EnhancedPrompt(t, messages, context, realTimeJson)|
      && SystemPrompt(t, context, realTimeJson)[..|block|] == block
      && ChatRoute.EnhancedPrompt(t, messages, context, realTimeJson)[..|block|] == block
  {
  }

  /** `promptMessages`: the system message, then the client's messages as sent. */
  function PromptMessages(systemPrompt: string, messages: seq<ChatMessage>): (r: seq<ChatMessage>)
    ensures |r| == |messages| + 1
    ensures r[0] == ChatRoute.ChatMessage("system", systemPrompt)
    ensures r[1..] == messages
  {
    [ChatRoute.ChatMessage("system", systemPrompt)] + messages
  }

  /** The flattened prompt: one `role: content` entry per message, joined by blank lines. */
  function FlatPrompt(promptMessages: seq<ChatMessage>): string {
    ChatRoute.FormatConversation(promptMessages, "\n\n")
  }

  /** The text sent to the model: the system entry first, then every client message in order. */
  lemma FlatPromptLayout(systemPrompt: string, messages: seq<ChatMessage>)
    requires messages != []
    ensures FlatPrompt(PromptMessages(systemPrompt, messages))
         == "system: " + systemPrompt + "\n\n" + ChatRoute.FormatConversation(messages, "\n\n")
  {
    var system := ChatRoute.ChatMessage("system", systemPrompt);
    assert ChatRoute.Entries([system] + messages) == [ChatRoute.Entry(system)] + ChatRoute.Entries(messages);
    JoinAppend([ChatRoute.Entry(system)], ChatRoute.Entries(messages), "\n\n");
  }

  /** The prompt for the given messages, user context and rendered real-time data. */
  function PromptFor(messages: seq<ChatMessage>, context: MemoryManager.UserContext, realTimeJson: string): string {
    FlatPrompt(PromptMessages(CreateSystemPrompt(context, realTimeJson), messages))
  }

  // ---------------------------------------------------------------------------
  // summarizeConversation

  /** A model call: the text of its reply, or the message of the error it threw. */
  datatype Generation = Generated(text: string) | GenerationFailed(message: string)

  /** What `JSON.parse` returned: an opaque JSON value, and whether JavaScript treats it as truthy. */
  datatype JsonValue = JsonValue(json: string, truthy: bool)

  /** The summary: the object literal every failure path returns, or a parsed value. */
  datatype Summary = FallbackSummary | ParsedSummary(value: JsonValue)

  /** The fallback object `{industries: [], audience: "", goals: "", trends: []}` as memory content. */
  const FallbackContent := MemoryManager.Content(Some([]), "", "", Some([]))

  /** `if (conversationSummary)`: the fallback object is truthy; a parsed value may not be. */
  predicate Truthy(s: Summary) {
    s.FallbackSummary? || s.value.truthy
  }

  /** The text begins with the bare fence "```". */
  predicate StartsWithFence(s: string) {
    |s| >= 3 && s[0] == '`' && s[1] == '`' && s[2] == '`'
  }

  /** The text begins with the fence line "```json" and its newline. */
  predicate StartsWithJsonFence(s: string) {
    StartsWithFence(s) && |s| >= 8 && s[3..8] == "json\n"
  }

  /**
   * `.replace(/```json\n|```/g, "")`: scanning left to right, a fence line or
   * a bare fence (tried in that order) is dropped, and any other character kept.
   */
  function RemoveFences(s: string): (r: string)
    ensures |r| <= |s|
    ensures '`' !in s ==> r == s
    decreases |s|
  {
    if StartsWithJsonFence(s) then RemoveFences(s[8..])
    else if StartsWithFence(s) then RemoveFences(s[3..])
    else if s == [] then []
    else [s[0]] + RemoveFences(s[1..])
  }

  /**
   * A backtick the scan keeps does not begin a fence, so what follows it
   * does not begin with two backticks once its own fences are removed.
   */
  lemma KeptBacktick(s: string)
    requires s != [] && s[0] == '`' && !StartsWithFence(s)
    ensures RemoveFences(s) == [s[0]] + RemoveFences(s[1..])
    ensures var r := RemoveFences(s[1..]); !(|r| >= 2 && r[0] == '`' && r[1] == '`')
  {
    var t := s[1..];
    if |t| >= 2 {
      assert t[1] == s[2];
      assert RemoveFences(t) == [t[0]] + RemoveFences(t[1..]);
      assert t[1..][0] == t[1];
    }
  }

  /** No fence is left: the result never contains three backticks in a row. */
  lemma {:induction false} RemoveFencesLeavesNoFence(s: string)
    ensures !Text.Includes(RemoveFences(s), "```")
    decreases |s|
  {
    if StartsWithJsonFence(s) {
      RemoveFencesLeavesNoFence(s[8..]);
    } else if StartsWithFence(s) {
      RemoveFencesLeavesNoFence(s[3..]);
    } else if s != [] {
      var r, rest := RemoveFences(s), RemoveFences(s[1..]);
      RemoveFencesLeavesNoFence(s[1..]);
      assert r == [s[0]] + rest;
      if s[0] == '`' {
        KeptBacktick(s);
      }
      if |r| >= 3 {
        assert r[..3] == [r[0], rest[0], rest[1]];
      }
      assert r[1..] == rest;
    }
  }

  /** A leading "```json" line is dropped. */
  lemma LeadingJsonFence(s: string)
    ensures RemoveFences("```json\n" + s) == RemoveFences(s)
  {
    var t := "```json\n" + s;
    assert t[3..8] == "json\n" && t[8..] == s;
  }

  /** A fence that does not open a "```json" line is dropped on its own. */
  lemma BareFenceDropped(t: string)
    requires StartsWithFence(t) && !StartsWithJsonFence(t)
    ensures RemoveFences(t) == RemoveFences(t[3..])
  {
  }

  /** A bare fence followed by anything but "json" and a newline does not open a fence line. */
  lemma FenceWithoutJson(s: string)
    requires !(|s| >= 5 && s[..5] == "json\n")
    ensures StartsWithFence("```" + s) && !StartsWithJsonFence("```" + s)
    ensures ("```" + s)[3..] == s
  {
    var t := "```" + s;
    assert t[3..] == s;
    if |t| >= 8 {
      assert t[3..8] == s[..5];
    }
  }

  /** A leading bare fence is dropped, unless with what follows it is a "```json" line. */
  lemma LeadingFence(s: string)
    requires !(|s| >= 5 && s[..5] == "json\n")
    ensures RemoveFences("```" + s) == RemoveFences(s)
  {
    FenceWithoutJson(s);
    BareFenceDropped("```" + s);
  }

  /** The text handed to `JSON.parse`: the de-fenced match when one was found, else the whole reply. */
  function SummaryInput(text: string, matched: Option<string>): string {
    if matched.Some? then RemoveFences(matched.value) else text
  }

  /**
   * `summarizeConversation`. `reply` is the summarising model call;
   * `matched` is what the fenced-JSON or the brace pattern picks out of the
   * reply (`None` when neither matches); `parse` is `JSON.parse`, `None`
   * when it throws.
   */
  function SummarizeConversation(reply: Generation, matched: Option<string>, parse: string -> Option<JsonValue>): Summary {
    if reply.GenerationFailed? || reply.text == "" then FallbackSummary
    else
      var parsed := parse(SummaryInput(reply.text, matched));
      if parsed.Some? then ParsedSummary(parsed.value) else FallbackSummary
  }

  /**
   * Every failure path (the model call throws, returns nothing, or its text
   * does not parse) yields the one fallback value; otherwise the summary is
   * what the parser returned.
   */
  lemma SummaryFallbacks(reply: Generation, matched: Option<string>, parse: string -> Option<JsonValue>)
    ensures SummarizeConversation(reply, matched, parse) == FallbackSummary
        <==> reply.GenerationFailed? || reply.text == "" || parse(SummaryInput(reply.text, matched)).None?
    ensures SummarizeConversation(reply, matched, parse).ParsedSummary? ==>
      Some(SummarizeConversation(reply, matched, parse).value) == parse(SummaryInput(reply.text, matched))
  {
  }

  /** Storing the fallback summary as a memory leaves the consolidated user context unchanged. */
  lemma FallbackSummaryIsNeutral(before: seq<MemoryManager.Content>, after: seq<MemoryManager.Content>)
    ensures MemoryManager.Consolidated(before + [FallbackContent] + after)
         == MemoryManager.Consolidated(before + after)
  {
    FallbackIndustriesAreNeutral(before, after);
    FallbackTrendsAreNeutral(before, after);
    FallbackTextsAreNeutral(before, after);
  }

  lemma FallbackIndustriesAreNeutral(before: seq<MemoryManager.Content>, after: seq<MemoryManager.Content>)
    ensures Concat(MemoryManager.IndustryLists(before + [FallbackContent] + after))
         == Concat(MemoryManager.IndustryLists(before + after))
  {
    var all, rest := before + [FallbackContent] + after, before + after;
    assert MemoryManager.IndustryLists(all)
        == MemoryManager.IndustryLists(before) + [[]] + MemoryManager.IndustryLists(after);
    assert MemoryManager.IndustryLists(rest) == MemoryManager.IndustryLists(before) + MemoryManager.IndustryLists(after);
    ConcatDropEmpty(MemoryManager.IndustryLists(before), MemoryManager.IndustryLists(after));
  }

  lemma FallbackTrendsAreNeutral(before: seq<MemoryManager.Content>, after: seq<MemoryManager.Content>)
    ensures Concat(MemoryManager.TrendLists(before + [FallbackContent] + after))
         == Concat(MemoryManager.TrendLists(before + after))
  {
    var all, rest := before + [FallbackContent] + after, before + after;
    assert MemoryManager.TrendLists(all)
        == MemoryManager.TrendLists(before) + [[]] + MemoryManager.TrendLists(after);
    assert MemoryManager.TrendLists(rest) == MemoryManager.TrendLists(before) + MemoryManager.TrendLists(after);
    ConcatDropEmpty(MemoryManager.TrendLists(before), MemoryManager.TrendLists(after));
  }

  lemma FallbackTextsAreNeutral(before: seq<MemoryManager.Content>, after: seq<MemoryManager.Content>)
    ensures Longest(MemoryManager.Audiences(before + [FallbackContent] + after))
         == Longest(MemoryManager.Audiences(before + after))
    ensures Longest(MemoryManager.Goals(before + [FallbackContent] + after))
         == Longest(MemoryManager.Goals(before + after))
  {
    var all, rest := before + [FallbackContent] + after, before + after;
    assert MemoryManager.Audiences(all) == MemoryManager.Audiences(before) + [""] + MemoryManager.Audiences(after);
    assert MemoryManager.Audiences(rest) == MemoryManager.Audiences(before) + MemoryManager.Audiences(after);
    LongestDropEmpty(MemoryManager.Audiences(before), MemoryManager.Audiences(after));
    assert MemoryManager.Goals(all) == MemoryManager.Goals(before) + [""] + MemoryManager.Goals(after);
    assert MemoryManager.Goals(rest) == MemoryManager.Goals(before) + MemoryManager.Goals(after);
    LongestDropEmpty(MemoryManager.Goals(before), MemoryManager.Goals(after));
  }

  // ---------------------------------------------------------------------------
  // POST

  datatype Body =
    | ErrorBody(error: string)
    | ErrorWithDetails(error: string, details: string)
    | Reply(role: string, content: string)

  const RequestFailed := "An error occurred during the request"

  /** Some call in the trace writes a memory. */
  predicate UpdatesMemory(calls: seq<Call>) {
    exists i :: 0 <= i < |calls| && calls[i].UpdateMemory?
  }

  lemma UpdatesMemoryAppend(a: seq<Call>, b: seq<Call>)
    ensures UpdatesMemory(a + b) <==> UpdatesMemory(a) || UpdatesMemory(b)
  {
    if UpdatesMemory(a + b) {
      var i :| 0 <= i < |a + b| && (a + b)[i].UpdateMemory?;
      if i >= |a| {
        assert b[i - |a|].UpdateMemory?;
      }
    }
    if UpdatesMemory(a) {
      var i :| 0 <= i < |a| && a[i].UpdateMemory?;
      assert (a + b)[i] == a[i];
    }
    if UpdatesMemory(b) {
      var i :| 0 <= i < |b| && b[i].UpdateMemory?;
      assert (a + b)[|a| + i] == b[i];
    }
  }

  /**
   * The memory-update guard: with a non-empty reply the conversation is
   * summarised, and a truthy summary is written as a memory.
   */
  function MemoryCalls(userId: string, messages: seq<ChatMessage>, replyText: string, summary: Summary): (r: seq<Call>)
    ensures forall c :: c in r ==> c.Summarize? || c.UpdateMemory?
    ensures UpdatesMemory(r) <==> replyText != "" && Truthy(summary)
    ensures UpdatesMemory(r) ==> |r| > 0 && r[|r| - 1] == UpdateMemory(userId, summary)
  {
    if replyText == "" then []
    else if Truthy(summary) then
      assert [Summarize(messages), UpdateMemory(userId, summary)][1].UpdateMemory?;
      [Summarize(messages), UpdateMemory(userId, summary)]
    else [Summarize(messages)]
  }

  /**
   * From the router on, the trace holds each tool call exactly when its tool
   * is selected, and the prompt sent; no context load, and no memory write
   * before the model answers.
   */
  lemma AnswerCallsFacts(tools: seq<string>, query: string, industries: seq<string>, prompt: string, rest: seq<Call>)
    requires forall c :: c in rest ==> c.Summarize? || c.UpdateMemory?
    ensures !UpdatesMemory(ToolCalls(tools, query, industries) + [Generate(prompt)])
    ensures var calls := ToolCalls(tools, query, industries) + [Generate(prompt)] + rest;
      && (FetchNews(query, industries) in calls <==> ChatRoute.NewsTool in tools)
      && (Search(query, industries) in calls <==> ChatRoute.SearchTool in tools)
      && Generate(prompt) in calls
      && (forall c :: c in calls ==> !c.LoadUserContext?)
      && (UpdatesMemory(calls) <==> UpdatesMemory(rest))
  {
    var toolCalls := ToolCalls(tools, query, industries);
    var cs := toolCalls + [Generate(prompt)];
    forall i | 0 <= i < |cs|
      ensures !cs[i].UpdateMemory?
    {
      if i == |cs| - 1 {
        assert cs[i] == Generate(prompt);
      } else {
        assert cs[i] == toolCalls[i];
        assert toolCalls[i] in toolCalls;
      }
    }
    var calls := cs + rest;
    assert calls[|cs| - 1] == Generate(prompt);
    assert FetchNews(query, industries) in calls <==> FetchNews(query, industries) in toolCalls;
    assert Search(query, industries) in calls <==> Search(query, industries) in toolCalls;
    UpdatesMemoryAppend(cs, rest);
  }

  /** The content of the last message, the text the router and the tools see. */
  function LastContent(messages: seq<ChatMessage>): string
    requires messages != []
  {
    messages[|messages| - 1].content
  }

  /** The real-time data gathered for the last message. */
  function AnswerData<D>(
    messages: seq<ChatMessage>, context: MemoryManager.UserContext,
    fetchNews: (string, seq<string>) -> D, search: (string, seq<string>) -> D): map<string, D>
    requires messages != []
  {
    ChatRoute.RealTimeData(ChatRoute.ToolsFor(LastContent(messages)), LastContent(messages), context.industries, fetchNews, search)
  }

  /**
   * The outside calls made once the user id is known and the context loaded:
   * the selected tools, the answering model call, and (after a reply) the
   * memory-update guard.
   */
  function AnswerTrace<D>(
    messages: seq<ChatMessage>, userId: string, context: MemoryManager.UserContext,
    fetchNews: (string, seq<string>) -> D, search: (string, seq<string>) -> D,
    stringify: map<string, D> -> string, reply: Generation,
    summaryReply: Generation, matched: Option<string>, parse: string -> Option<JsonValue>): seq<Call>
    requires messages != []
  {
    var last := LastContent(messages);
    ToolCalls(ChatRoute.ToolsFor(last), last, context.industries)
    + [Generate(PromptFor(messages, context, stringify(AnswerData(messages, context, fetchNews, search))))]
    + (if reply.Generated? then MemoryCalls(userId, messages, reply.text, SummarizeConversation(summaryReply, matched, parse))
       else [])
  }

  /**
   * What the answering trace promises: each tool is called exactly when the
   * router selects it, the prompt built from the gathered data is sent, no
   * context is loaded, and a memory is written exactly when the reply is
   * non-empty and its summary truthy, as the last call.
   */
  lemma AnswerTraceFacts<D>(
    messages: seq<ChatMessage>, userId: string, context: MemoryManager.UserContext,
    fetchNews: (string, seq<string>) -> D, search: (string, seq<string>) -> D,
    stringify: map<string, D> -> string, reply: Generation,
    summaryReply: Generation, matched: Option<string>, parse: string -> Option<JsonValue>)
    requires messages != []
    ensures var calls := AnswerTrace(messages, userId, context, fetchNews, search, stringify, reply, summaryReply, matched, parse);
      var last := LastContent(messages);
      var summary := SummarizeConversation(summaryReply, matched, parse);
      && (FetchNews(last, context.industries) in calls <==> ChatRoute.WantsNews(last))
      && (Search(last, context.industries) in calls <==> ChatRoute.WantsSearch(last))
      && Generate(PromptFor(messages, context, stringify(AnswerData(messages, context, fetchNews, search)))) in calls
      && (forall c :: c in calls ==> !c.LoadUserContext?)
      && (UpdatesMemory(calls) <==> reply.Generated? && reply.text != "" && Truthy(summary))
      && (UpdatesMemory(calls) ==> |calls| > 0 && calls[|calls| - 1] == UpdateMemory(userId, summary))
  {
    var last := LastContent(messages);
    var summary := SummarizeConversation(summaryReply, matched, parse);
    var prompt := PromptFor(messages, context, stringify(AnswerData(messages, context, fetchNews, search)));
    var rest: seq<Call> := if reply.Generated? then MemoryCalls(userId, messages, reply.text, summary) else [];
    var cs := ToolCalls(ChatRoute.ToolsFor(last), last, context.industries) + [Generate(prompt)];
    var calls := AnswerTrace(messages, userId, context, fetchNews, search, stringify, reply, summaryReply, matched, parse);
    assert calls == cs + rest;
    ChatRoute.ToolsForSelects(last);
    AnswerCallsFacts(ChatRoute.ToolsFor(last), last, context.industries, prompt, rest);
    if UpdatesMemory(calls) {
      assert UpdatesMemory(rest);
      assert calls[|calls| - 1] == rest[|rest| - 1];
    }
  }

  /**
   * Lines 42-116 of `POST`, once the user id is known and the context
   * loaded: route the last message, fetch the tool data, ask the model, and
   * guard the memory update.
   */
  method AnswerLastMessage<D>(
    messages: seq<ChatMessage>, userId: string, context: MemoryManager.UserContext,
    fetchNews: (string, seq<string>) -> D, search: (string, seq<string>) -> D,
    stringify: map<string, D> -> string, reply: Generation,
    summaryReply: Generation, matched: Option<string>, parse: string -> Option<JsonValue>)
    returns (status: nat, body: Body, calls: seq<Call>)
    requires messages != []
    ensures calls == AnswerTrace(messages, userId, context, fetchNews, search, stringify, reply, summaryReply, matched, parse)
    ensures reply.Generated? ==> status == 200 && body == Reply("assistant", reply.text)
    ensures reply.GenerationFailed? ==>
      status == 500 && body == ErrorWithDetails("Failed to generate response", reply.message)
  {
    var last := messages[|messages| - 1].content;
    var tools := DetermineToolsToUse(last);
    var realTimeData, toolCalls := FetchRealTimeData(tools, last, context.industries, fetchNews, search);
    var prompt := PromptFor(messages, context, stringify(realTimeData));
    calls := toolCalls + [Generate(prompt)];
    var memoryCalls: seq<Call> := [];
    if reply.Generated? {
      memoryCalls := MemoryCalls(userId, messages, reply.text, SummarizeConversation(summaryReply, matched, parse));
    }
    calls := calls + memoryCalls;
    if reply.GenerationFailed? {
      return 500, ErrorWithDetails("Failed to generate response", reply.message), calls;
    }
    status, body := 200, Reply("assistant", reply.text);
  }

  /**
   * `POST`. `userId` is `""` when absent; `context` is what `getUserContext`
   * returns (it never throws); `reply` is the answering model call;
   * `summaryReply`, `matched` and `parse` feed `summarizeConversation`. A
   * failed memory write is caught and changes nothing, so it is not an input.
   */
  method Post<D>(
    messages: seq<ChatMessage>, userId: string, context: MemoryManager.UserContext,
    fetchNews: (string, seq<string>) -> D, search: (string, seq<string>) -> D,
    stringify: map<string, D> -> string, reply: Generation,
    summaryReply: Generation, matched: Option<string>, parse: string -> Option<JsonValue>)
    returns (status: nat, body: Body, calls: seq<Call>)
    ensures userId == "" ==> status == 400 && body == ErrorBody("User ID is required") && calls == []
    ensures userId != "" && messages == [] ==>
      status == 500 && body == ErrorBody(RequestFailed) && calls == [LoadUserContext(userId)]
    ensures userId != "" && messages != [] ==>
      calls == [LoadUserContext(userId)]
               + AnswerTrace(messages, userId, context, fetchNews, search, stringify, reply, summaryReply, matched, parse)
    ensures userId != "" && messages != [] && reply.Generated? ==> status == 200 && body == Reply("assistant", reply.text)
    ensures userId != "" && messages != [] && reply.GenerationFailed? ==>
      status == 500 && body == ErrorWithDetails("Failed to generate response", reply.message)
    ensures UpdatesMemory(calls)
        <==> userId != "" && messages != [] && reply.Generated? && reply.text != ""
             && Truthy(SummarizeConversation(summaryReply, matched, parse))
  {
    if userId == "" {
      return 400, ErrorBody("User ID is required"), [];
    }
    if messages == [] {
      // `messages[messages.length - 1].content` throws; the outer catch answers.
      assert !UpdatesMemory([LoadUserContext(userId)]);
      return 500, ErrorBody(RequestFailed), [LoadUserContext(userId)];
    }
    var answerCalls;
    status, body, answerCalls := AnswerLastMessage(
      messages, userId, context, fetchNews, search, stringify, reply, summaryReply, matched, parse);
    calls := [LoadUserContext(userId)] + answerCalls;
    AnswerTraceFacts(messages, userId, context, fetchNews, search, stringify, reply, summaryReply, matched, parse);
    assert !UpdatesMemory([LoadUserContext(userId)]);
    UpdatesMemoryAppend([LoadUserContext(userId)], answerCalls);
  }
}
