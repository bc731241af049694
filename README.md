# TrendSeer AI — a verified model of its request-handling core

TrendSeer AI is a Next.js trend-analysis assistant. A user chats with it. Each message is routed to
a news tool and/or a web-search tool by keyword, and the tool results and a consolidated profile of
the user's past conversations are folded into a prompt for a language model. After each answer a
summary of the conversation is stored as a new "memory".

This project models, in Dafny, the deterministic logic of that core:

- **memory.dfy** (`MemoryManager`): `consolidateMemories`, the nested loops that fold stored memories
  into a user context (ordered duplicate-free unions of industries and trends, the longest audience
  and goals with the most recent winning ties), and `getUserContext` over abstract query results.
- **profile.dfy** (`ProfileRoute`): the profile endpoint's response choice and its unused
  `extractProfileFromMemories` helper.
- **chat.dfy** (`ChatRoute`): the streaming chat route's keyword router, its real-time data loop,
  and the prompt template with its placeholders.
- **simple_chat.dfy** (`SimpleChatRoute`): the non-streaming route. It covers the user-id guard, its
  copies of the router and data loop, the flattened prompt, the memory-update guard, the fallback
  summary, and `POST` as a trace of the outside calls it makes.
- **serper.dfy** (`SerperApi`): the search tool's key guard, query enrichment, result projection
  and trending-topic extraction.
- **news.dfy** (`NewsApi`): the news tool's query enrichment, article projection and grouping of
  articles by the main topic of their title, both as written and as intended (see Findings).
- **middleware.dfy** (`Middleware`): the authentication redirect decision.
- **use_simple_chat.dfy** (`SimpleChatHook`): the browser hook's state cells (`messages`, `input`,
  `isLoading`, `error`) as a class, with `handleSubmit`, `clearChat` and `stop`.
- **text.dfy**, **seqs.dfy**, **wrappers.dfy**: the string operations the code relies on
  (`toLowerCase`, `trim`, `includes`, `join`, `split`, decimal rendering). They also hold the two
  folding idioms the code repeats: "push if not already included" and "keep the longer non-empty
  string". Each idiom comes with an independent characterisation and a uniqueness proof.

The database, the language model, the two HTTP APIs and `JSON.stringify`/`JSON.parse` are not
modelled. They appear as parameters: query results, `Outcome` values, `Generation` values, and
functions standing for the tool calls and for the serialiser/parser. Strings are sequences of
characters; `toLowerCase` is ASCII lower-casing; `\w` is `[A-Za-z0-9_]`; `\s` and `trim()` use the
ECMAScript white-space and line-terminator set.

## Model

| member | source | states |
|---|---|---|
| Text.Lower | app/api/chat/route.ts:71 | `toLowerCase` keeps the length and lower-cases each character in place |
| Text.TrimEmptyIffBlank | lib/hooks/use-simple-chat.ts:55 | `!input.trim()` holds exactly when every character of the input is white space |
| Text.IncludesIff | app/api/chat/route.ts:70-82 | `s.includes(sub)` holds exactly when `sub` occurs at some position of `s` |
| Text.Split | lib/tools/news-api.ts:78 | `split(" ")` yields at least one piece and no piece contains the separator |
| Text.JoinSplit | lib/tools/news-api.ts:78 | joining the pieces of a split with the same separator gives back the string |
| Text.NatToStringInjective | lib/tools/serper-api.ts:81 | distinct counts render as distinct decimal texts |
| Seqs.AppendMissing | lib/memory-manager.ts:116-120 | the loop pushing each element not yet included computes the ordered union fold |
| Seqs.DistinctIsOrderedUnion | lib/memory-manager.ts:111-121 | the fold's result has no duplicates, holds exactly the input's elements, and lists them in order of first occurrence |
| Seqs.OrderedUnionIsDistinct | lib/memory-manager.ts:111-121 | any sequence with those three properties is the fold's result |
| Seqs.LongestDropEmpty | lib/memory-manager.ts:124-126 | an empty candidate never replaces the current value, wherever it appears |
| Seqs.LongestIsEarliestLongest | lib/memory-manager.ts:124-126 | keeping a strictly longer non-empty string yields "" when all are empty, else a longest candidate with no equally long one before it |
| Seqs.EarliestLongestUnique | lib/memory-manager.ts:124-131 | that characterisation determines the result |
| MemoryManager.ConsolidatedSnoc | lib/memory-manager.ts:111-141 | one iteration of the loop over memories advances each field by exactly that memory |
| MemoryManager.ConsolidateMemories | lib/memory-manager.ts:101-144 | the nested loops compute the consolidated context of all memories |
| MemoryManager.ConsolidatedIndustries | lib/memory-manager.ts:111-121 | industries: no duplicates, exactly the strings some memory lists, in first-occurrence (most recent first) order, and the only such sequence |
| MemoryManager.ConsolidatedTrends | lib/memory-manager.ts:133-140 | previousTrends obeys the same ordered-union rule over the trends arrays |
| MemoryManager.ConsolidatedAudienceAndGoals | lib/memory-manager.ts:123-131 | audience and goals are "" when all are empty, else the longest, the earliest winning ties, and nothing else qualifies |
| MemoryManager.AbsentListContributesNothing | lib/memory-manager.ts:115-134 | a memory whose industries or trends field is absent or not an array leaves that list as if the memory were not there |
| MemoryManager.NoMemoriesGiveEmptyContext | lib/memory-manager.ts:101-108 | no memories consolidate to the same empty context every fallback returns |
| MemoryManager.GetUserContext | lib/memory-manager.ts:13-72 | an unknown user is created and gets the empty context; a query error, no rows or a throwing row give the empty context; otherwise the consolidation of the rows |
| ProfileRoute.ExtractProfileFromMemories | app/api/user/profile/route.ts:106-149 | the helper agrees field for field with consolidation and its lists have no duplicates |
| ProfileRoute.GetWithoutUserId | app/api/user/profile/route.ts:16-22 | without a user id the answer is 400 whatever the database holds |
| ProfileRoute.GetQueryError | app/api/user/profile/route.ts:56-77 | a failed lookup answers 500, asking for setup exactly when the message contains "does not exist", else "Database error" |
| ProfileRoute.GetSuccess | app/api/user/profile/route.ts:24-95 | every 200 answer carries the user id, the empty profile and count 0; "skipped_build" exactly when the database is skipped, "ready" exactly when the lookup returned data |
| ProfileRoute.GetStatuses | app/api/user/profile/route.ts:16-95 | the status is 200, 400 or 500, and an error body goes exactly with a non-200 status |
| ChatRoute.DetermineToolsToUse | app/api/chat/route.ts:67-87 | the news tool is selected exactly when its keyword test passes, likewise the search tool |
| ChatRoute.ToolsForSelects | app/api/chat/route.ts:67-87 | the router's result contains each tool exactly when its test passes |
| ChatRoute.RouterShape | app/api/chat/route.ts:67-87 | the result is one of the four ordered duplicate-free subsequences of [news-api, serper-api] |
| ChatRoute.RouterKeywords | app/api/chat/route.ts:70-84 | a tool is selected exactly when one of its three keywords occurs in the lower-cased message |
| ChatRoute.RouterCaseInsensitive | app/api/chat/route.ts:71-81 | a message and its lower-cased form select the same tools |
| ChatRoute.RealTimeDataKeys | app/api/chat/route.ts:89-105 | the data has key "news" exactly when the news tool is selected, "search" likewise, no other keys, each holding its own tool's answer |
| ChatRoute.RealTimeDataSnoc | app/api/chat/route.ts:92-102 | one more tool stores its answer under its own key and changes nothing else |
| ChatRoute.FetchRealTimeData | app/api/chat/route.ts:89-105 | the loop over the selected tools builds that data object |
| ChatRoute.PlaceholderRules | app/api/chat/route.ts:116-119 | a list placeholder is used exactly when the list joins to "" (empty, or one empty string); audience and goals never render empty |
| ChatRoute.ConversationAppend | app/api/chat/route.ts:109 | the history keeps message order: one more message adds one `role: content` entry at the end |
| ChatRoute.EnhancedPromptCarriesConversation | app/api/chat/route.ts:107-133 | for fixed context and data, two conversations give the same prompt exactly when their history texts are equal |
| SimpleChatRoute.DetermineToolsToUse | app/api/chat/simple/route.ts:133-153 | this route's router selects exactly what the streaming route's router selects |
| SimpleChatRoute.ToolCalls | app/api/chat/simple/route.ts:155-171 | the data loop calls the news tool exactly when it is selected, the search tool likewise, and makes no other call |
| SimpleChatRoute.FetchRealTimeData | app/api/chat/simple/route.ts:155-171 | the loop builds the same data object as the streaming route and makes the tool calls in tool order |
| SimpleChatRoute.SystemPromptSharesContext | app/api/chat/simple/route.ts:173-191 | the system prompt and the streaming route's prompt begin with the same context block |
| SimpleChatRoute.PromptMessages | app/api/chat/simple/route.ts:54-60 | the system message comes first, followed by the client's messages unchanged |
| SimpleChatRoute.FlatPromptLayout | app/api/chat/simple/route.ts:75 | the text sent is the system entry, a blank line, then every client message as `role: content`, in order |
| SimpleChatRoute.RemoveFences | app/api/chat/simple/route.ts:229 | removing fence markers never lengthens the text and leaves text without a backtick unchanged |
| SimpleChatRoute.RemoveFencesLeavesNoFence | app/api/chat/simple/route.ts:229 | no fence is left: the text handed to the parser never contains three backticks in a row |
| SimpleChatRoute.LeadingJsonFence | app/api/chat/simple/route.ts:229 | a leading "```json" line is dropped and the rest is treated as on its own |
| SimpleChatRoute.LeadingFence | app/api/chat/simple/route.ts:229 | a leading bare fence is dropped, unless it opens a "```json" line |
| SimpleChatRoute.SummaryFallbacks | app/api/chat/simple/route.ts:193-261 | the summary is the fallback object exactly when the model call throws, returns nothing, or the extracted text does not parse; otherwise the parsed value |
| SimpleChatRoute.FallbackSummaryIsNeutral | app/api/chat/simple/route.ts:214-260 | storing the fallback summary as a memory leaves every consolidated context unchanged |
| SimpleChatRoute.FallbackIndustriesAreNeutral | app/api/chat/simple/route.ts:216-221 | the fallback's empty industries add nothing to the concatenated lists |
| SimpleChatRoute.FallbackTrendsAreNeutral | app/api/chat/simple/route.ts:216-221 | the fallback's empty trends add nothing to the concatenated lists |
| SimpleChatRoute.FallbackTextsAreNeutral | app/api/chat/simple/route.ts:216-221 | the fallback's empty audience and goals never win the longest-string rule |
| SimpleChatRoute.MemoryCalls | app/api/chat/simple/route.ts:83-89 | a memory is written exactly when the reply is non-empty and the summary truthy, as the last call |
| SimpleChatRoute.AnswerCallsFacts | app/api/chat/simple/route.ts:45-89 | after routing, each tool is called exactly when selected, the prompt is sent, no context is loaded, and only the guard can write a memory |
| SimpleChatRoute.AnswerTraceFacts | app/api/chat/simple/route.ts:39-92 | the answering trace calls each tool exactly when the last message selects it, sends the prompt built from the data, and writes a memory exactly when the guard passes, last |
| SimpleChatRoute.AnswerLastMessage | app/api/chat/simple/route.ts:42-116 | the calls made are the answering trace; a reply gives 200 with the assistant message, a failed model call 500 with its details |
| SimpleChatRoute.Post | app/api/chat/simple/route.ts:25-130 | no user id: 400 and no call; no messages: 500 after loading the context; otherwise the context load then the answering trace, and a memory write exactly when the reply is non-empty and the summary truthy |
| SerperApi.EnrichedQueryFacts | lib/tools/serper-api.ts:19-24 | the query leads the sent query, is sent unchanged exactly when there are no industries, and otherwise gets a space and the first industry only |
| SerperApi.StripPunctuation | lib/tools/serper-api.ts:98 | only word characters and white space remain, all taken from the input |
| SerperApi.StripPunctuationAppend | lib/tools/serper-api.ts:98 | stripping goes character by character: it distributes over concatenation, so order is kept |
| SerperApi.StripPunctuationChar | lib/tools/serper-api.ts:98 | a single character is kept exactly when it is a word character or white space |
| SerperApi.LongWords | lib/tools/serper-api.ts:100 | the words kept are exactly those longer than four characters (no common word is that long) |
| SerperApi.LongWordsAppend | lib/tools/serper-api.ts:100 | filtering goes word by word: it distributes over concatenation, so order and repeats are kept |
| SerperApi.LongWordsOne | lib/tools/serper-api.ts:100 | a single word is kept exactly when it is longer than four characters |
| SerperApi.TitleWordsShape | lib/tools/serper-api.ts:96-100 | every candidate topic is a space-free word of more than four characters |
| SerperApi.TitleWordLists | lib/tools/serper-api.ts:94-103 | the candidates are computed title by title, one list per result |
| SerperApi.OrderedTopicsFacts | lib/tools/serper-api.ts:91-105 | at most ten, pairwise distinct topics from the lists, the leading entries of their ordered union; all are kept when there are at most ten |
| SerperApi.ExtractTrendingTopics | lib/tools/serper-api.ts:88-106 | the Set filled title by title and sliced to ten gives the trending topics |
| SerperApi.TrendingTopicsFacts | lib/tools/serper-api.ts:88-106 | at most ten distinct topics, each a long space-free word of some result's title, in order of first appearance |
| SerperApi.FoundSummaryCounts | lib/tools/serper-api.ts:81 | the summary sentence determines both counts it states |
| SerperApi.Project | lib/tools/serper-api.ts:69-75 | every field is kept and a missing date becomes "N/A" |
| SerperApi.ProjectAll | lib/tools/serper-api.ts:69-75 | one projected result per organic result, in the same order |
| SerperApi.ProcessSearchResults | lib/tools/serper-api.ts:60-86 | no data or no organic results give the fixed answer; otherwise the projected results, their topics, a summary counting both, and the related searches (`[]` when absent) |
| SerperApi.SearchFacts | lib/tools/serper-api.ts:9-58 | a request is sent exactly when there is a key, with the enriched query; the answer is an error exactly when the key is missing or the request fails, failures carrying the fetch prefix and a non-ok status its code |
| SerperApi.SearchWithoutKey | lib/tools/serper-api.ts:11-17 | without a key the answer does not depend on the network |
| NewsApi.EnrichedQueryFacts | lib/tools/news-api.ts:12-15 | the query leads the sent query, is sent unchanged exactly when there are no industries, and otherwise gets a space and all industries joined by " OR " |
| NewsApi.PotentialTopics | lib/tools/news-api.ts:79-81 | the words kept are exactly those longer than five characters (every stop word has five) |
| NewsApi.PotentialTopicsNonEmpty | lib/tools/news-api.ts:79-83 | there is a potential topic exactly when some word is longer than five characters |
| NewsApi.FirstPotentialTopic | lib/tools/news-api.ts:79-84 | the main topic is the first word longer than five characters |
| NewsApi.MainTopicFacts | lib/tools/news-api.ts:78-84 | a title has no main topic exactly when no word is long; otherwise its main topic is its first long word, without spaces |
| NewsApi.Bucket | lib/tools/news-api.ts:86-90 | a bucket holds exactly the articles with that topic |
| NewsApi.BucketAppend | lib/tools/news-api.ts:76-92 | buckets keep input order across concatenation |
| NewsApi.GroupIsBuckets | lib/tools/news-api.ts:71-95 | the record has a key exactly for the topics that occur, each holding exactly its articles in input order |
| NewsApi.GroupTotal | lib/tools/news-api.ts:76-92 | over all buckets, every article with a topic appears once and the others not at all |
| NewsApi.GroupByKey | lib/tools/news-api.ts:74-94 | the loop creating buckets on first use and appending builds the grouping |
| NewsApi.GroupArticlesByTopic | lib/tools/news-api.ts:71-95 | each article is filed under the main topic of its title |
| NewsApi.GroupAsWrittenAgrees | lib/tools/news-api.ts:74-90 | over a plain object the loop throws exactly when some topic is an inherited member, and otherwise builds the intended record |
| NewsApi.SingleInherited | lib/tools/news-api.ts:86-90 | one article with an inherited topic is filed under it as intended but makes the code as written throw |
| NewsApi.OneWordTopic | lib/tools/news-api.ts:78-84 | a title that lower-cases to one long word has that word as its main topic |
| NewsApi.ConstructorHeadline | lib/tools/news-api.ts:78-90 | a headline "Constructor" (any letter case) is filed under "constructor" as intended, while the code as written throws |
| NewsApi.ProjectArticles | lib/tools/news-api.ts:53-59 | projection succeeds exactly when every article has a source object, one article per input in order |
| NewsApi.NewsSummaryCounts | lib/tools/news-api.ts:65 | the summary sentence determines both counts it states |
| NewsApi.FetchNewsFacts | lib/tools/news-api.ts:9-69 | with the corrected grouping: the enriched query is sent; the answer is the fetch error exactly when the request fails or an article lacks a source, the fixed answer for no articles, else every fetched article projected in order, grouped by topic, with a summary counting articles and topics |
| NewsApi.ProcessAsWrittenAgrees | lib/tools/news-api.ts:31-90 | as written, once every article is projected, the answer is the fetch error exactly when some title's main topic is an inherited member, and otherwise the corrected answer |
| NewsApi.FetchNewsAsWrittenFacts | lib/tools/news-api.ts:9-90 | as written, the answer is the fetch error exactly when the request fails, an article lacks a source, or a title's main topic is an inherited member; otherwise it equals the corrected answer |
| NewsApi.ConstructorHeadlineFetch | lib/tools/news-api.ts:9-90 | a fetched headline "Constructor" with a source is answered with the fetch error as written, and filed under "constructor" as intended |
| Middleware.Decide | middleware.ts:16-34 | a redirect happens exactly when page kind and session agree; signed in on an auth page goes home on the same origin, signed out elsewhere goes to /login keeping the query and recording the path under redirectedFrom |
| Middleware.NoRedirectLoop | middleware.ts:16-34 | with the session unchanged, the target of a redirect passes through |
| SimpleChatHook.RejectedSubmit | lib/hooks/use-simple-chat.ts:55 | a blank input or an unknown user id leaves all state unchanged |
| SimpleChatHook.BegunThenSettled | lib/hooks/use-simple-chat.ts:57-106 | the conversation keeps its prefix, gains the user message and an assistant message exactly on an answer, the input is cleared, loading ends, and an error is held exactly on failure |
| SimpleChatHook.AcceptedSubmit | lib/hooks/use-simple-chat.ts:52-109 | an accepted submit adds one user message and one assistant message exactly on an answer, ends not loading, and holds an error exactly on failure |
| SimpleChatHook.RequestMatchesConversation | lib/hooks/use-simple-chat.ts:64-78 | the posted body is the conversation as it stands with the new message, and names the user |
| SimpleChatHook.RefusedErrorText | lib/hooks/use-simple-chat.ts:81-84 | a refused request's error is never empty and, without a route error text, tells statuses apart |
| SimpleChatHook.SimpleChatHook.constructor | lib/hooks/use-simple-chat.ts:17-21 | no messages, empty input, not loading, no error |
| SimpleChatHook.SimpleChatHook.HandleInputChange | lib/hooks/use-simple-chat.ts:48-50 | only the input changes, to the text area's value |
| SimpleChatHook.SimpleChatHook.Begin | lib/hooks/use-simple-chat.ts:52-67 | an accepted input appends the user message, clears input and error, sets loading and returns the body to post; otherwise nothing changes |
| SimpleChatHook.SimpleChatHook.Finish | lib/hooks/use-simple-chat.ts:69-106 | an answer appends the assistant message, a failure records its error, and loading always ends |
| SimpleChatHook.SimpleChatHook.HandleSubmit | lib/hooks/use-simple-chat.ts:52-109 | a request is posted exactly when the guard accepts, and the new state is the whole submit's |
| SimpleChatHook.SimpleChatHook.ClearChat | lib/hooks/use-simple-chat.ts:111-113 | the conversation is emptied and nothing else changes |
| SimpleChatHook.SimpleChatHook.Stop | lib/hooks/use-simple-chat.ts:115-119 | no state changes |

## Left out

- Database reads and writes (Supabase), the language-model calls, the embedding and the similarity search, and the two HTTP APIs are external. Their results are parameters; `updateMemory` and `searchSimilarMemories` are not modelled.
- `JSON.stringify` and `JSON.parse`, and the two regular expressions that pick JSON out of a summary reply, are library semantics. The serialiser and the parser are function parameters, and the regex match is an input.
- Record key order: objects built from keys (`results`, `topics`) are maps, so the order `JSON.stringify` would print them in is not modelled.
- `toLowerCase` is modelled on ASCII letters only, and string length counts characters, not UTF-16 code units.
- A missing `title` on an article or search result (reading `toLowerCase` of `undefined`) is not modelled. Titles are always strings here.
- The streaming route's `POST` and its `summarizeConversation` are I/O plumbing around the modelled router, data loop and prompt. The non-streaming route's versions are modelled instead.
- SimpleChatRoute.Post: the 500 answer for an empty message list omits the `details` text, which is the engine's TypeError message.
- NewsApi.FetchNewsFacts: states the corrected grouping. As written, a title whose main topic is an inherited member gives the fetch error instead; NewsApi.FetchNewsAsWrittenFacts states that.
- NewsApi.FetchNewsAsWrittenFacts: a `null` response body (`data` itself null) is not modelled; absent `articles` is.
- ProfileRoute.GetStatuses: the outer `catch` ("Unexpected error occurred") is not modelled, because no modelled step can throw.
- SimpleChatHook.SimpleChatHook.Finish: an ok response without a `content` field, and a thrown value that is not an `Error`, are not modelled. The toast is UI.
- SimpleChatHook.SimpleChatHook.HandleSubmit: the two halves of a submit run back to back. Interleaved submits (React state updates from two requests in flight) are not modelled.
- The user-id bootstrapping from `localStorage` and `uuid` is an input: the constructor takes the user id and the handlers take fresh message ids.
- The middleware's session lookup is an input (`hasSession`), and the path-matcher regex is framework configuration.
- React components, the history and trend-analysis routes, configuration and client construction are outside the core.

## Findings

| source | as written | input that shows it | evidently intended | confidence | as-written member | corrected member |
|---|---|---|---|---|---|---|
| lib/tools/news-api.ts:74-90 | the topics record is a plain `{}`, so `topics[mainTopic]` on "constructor" or "__proto__" finds an inherited member; no bucket is created and `.push` throws, so `fetchNews` answers "Failed to fetch news data" | one article titled "Constructor" | the article is filed under "constructor" like any other topic | not executed | NewsApi.ConstructorHeadlineFetch | NewsApi.GroupArticlesByTopic |
