# Slack strategy bot: a Dafny model of its message path

The bot is a Cloudflare Worker that answers Slack's Events API webhook. The Worker's `fetch` handler:
- refuses every method except POST;
- answers Slack's URL-verification handshake;
- ignores bot messages and every event type except `event_callback`;
- hands each remaining message to the Durable Object of its channel.

That Durable Object is the chat room. It keeps the channel's messages in an append-only SQL table. It caps how many replies a channel may receive. It sends the last ten rows of history to a language model behind fixed instructions, then stores the reply and posts it back to Slack. There are two versions of the chat room:
- The Gemini room (`src/chatRoom_gemini.ts`) is the one in service. It strips Slack mentions from the text and trims it. Its quota is `MESSAGES_LIMIT` on `model` rows. It maps stored roles onto Gemini's `user`/`model` schema, and it reports a response without candidates to the channel.
- The earlier OpenAI room (`src/chatRoom.ts`) stores the text verbatim. Its hard-coded quota is 100 `assistant` rows. It sends one system message followed by the raw history. It has no guard against a response without choices.

The model has six modules:
- `MessageStore` (`message_store.dfy`) holds the table as a class: `MessageLog` with its `rows` and `nextId`. It has `Insert`, `Count` and `Recent` for the INSERT, the `COUNT(*)` query and the `ORDER BY id DESC LIMIT n` query, and the functions and lemmas that specify them. The invariant `Stored` says ids are positive, strictly increasing and below the next id to hand out.
- `TextCleaning` (`text_cleaning.dfy`) models `text.replace(/<@[a-zA-Z0-9]+>/g, "").trim()`: a single left-to-right pass of the regex, then JavaScript's `trim`.
- `GeminiChatRoom` (`chat_room_gemini.dfy`) covers the role mapping, the request body and the `ChatRoom` class with `HandleMessage`.
- `OpenAiChatRoom` (`chat_room_openai.dfy`) covers the message list and its `ChatRoom` class with `HandleMessage`.
- `Worker` (`worker.dfy`) models the `fetch` handler's decision: `Classify` picks the route and `Respond` gives its response.
- `Slack` and `Wrappers` hold the event and post records and `Option`.

The handlers call out to the outside world: the model API over the network, Slack's `chat.postMessage` and `Date.now()`. The model turns these into inputs and a log:
- The provider's answer is a parameter. For Gemini it is the first candidate's text, a response without candidates, or an exception from the call. For OpenAI it is an `Option<string>`: None covers both a response without choices and an exception, since both end `handleMessage` the same way.
- Each call to `postToSlack` appends to the room's `posts` sequence.
- The two clock readings are parameters.

Each `HandleMessage` also returns the request body it would send. That lets its contract state what goes to the model.

## Model

| member | source | states |
|---|---|---|
| MessageStore.Reverse | src/chatRoom_gemini.ts:47 | `[...cursor].reverse()` keeps the length and puts element `i` at `n-1-i` |
| MessageStore.CountRole | src/chatRoom_gemini.ts:25-29 | `COUNT(*) ... WHERE role = ?` never exceeds the number of rows |
| MessageStore.NewestFirst | src/chatRoom_gemini.ts:44-46 | `ORDER BY id DESC LIMIT limit` returns `min(limit, n)` rows; NewestFirstAt and NewestFirstOrderedById pin down which rows, in which order |
| MessageStore.Window | src/chatRoom_gemini.ts:44-47 | the history window has `min(limit, n)` entries, entry `i` being the `role, content` of the `i`-th of the last rows, in id order |
| MessageStore.CountRoleAppend | src/chatRoom_gemini.ts:25-29 | the count over two runs of rows is the sum of their counts |
| MessageStore.CountRoleAppendOne | src/chatRoom_gemini.ts:38-41 | inserting a row adds one to its own role's count and leaves every other role's count unchanged |
| MessageStore.IdsBelowOrdered | src/chatRoom_gemini.ts:11-18 | under the AUTOINCREMENT invariant every id is positive, below the next id, and ids strictly increase in insertion order |
| MessageStore.NewestFirstAt | src/chatRoom_gemini.ts:44-46 | the newest-first read returns `min(limit, n)` rows, row `i` being the `i`-th newest |
| MessageStore.NewestFirstIsReversedSuffix | src/chatRoom_gemini.ts:44-46 | the newest-first read is the reversed suffix of length `min(limit, n)` |
| MessageStore.NewestFirstOrderedById | src/chatRoom_gemini.ts:44-46 | `ORDER BY id DESC LIMIT n` on a stored table: `min(limit, n)` rows of the table with strictly decreasing ids, and every row left out has a smaller id than every row returned |
| MessageStore.ReversedNewestFirstIsWindow | src/chatRoom_gemini.ts:44-47 | reversing the newest-first read gives the last `min(limit, n)` rows in id order |
| MessageStore.WindowEndsWithNewest | src/chatRoom_gemini.ts:38-47 | after an insert, the window has `min(limit, n+1)` entries and ends with the row just inserted |
| MessageStore.MessageLog.constructor | src/chatRoom_gemini.ts:8-19 | opening the table keeps the stored rows and the id counter, and the invariant holds |
| MessageStore.MessageLog.Insert | src/chatRoom_gemini.ts:38-41 | an insert appends exactly one row under the next id, advances the counter by one and keeps the id invariant |
| MessageStore.MessageLog.FreshIdAboveStored | src/chatRoom_gemini.ts:13 | the id the next insert receives is above every stored id |
| MessageStore.MessageLog.Count | src/chatRoom_gemini.ts:25-29 | the count query scans the table and returns the number of rows with the given role, as CountRole (whose additivity CountRoleAppend proves) defines it |
| MessageStore.MessageLog.Recent | src/chatRoom_gemini.ts:44-46 | the history query returns `min(limit, n)` rows, newest first, and reversed they are the window |
| TextCleaning.AlnumRun | src/chatRoom_gemini.ts:36 | the greedy `[a-zA-Z0-9]+` run is the longest all-alphanumeric prefix |
| TextCleaning.MentionAt | src/chatRoom_gemini.ts:36 | a match found at the front is at least four characters and inside the text |
| TextCleaning.MentionAtMatches | src/chatRoom_gemini.ts:36 | a prefix of length `k` is a whole `<@[a-zA-Z0-9]+>` match exactly when MentionAt finds length `k`, so the match at a position is unique |
| TextCleaning.StripMentions | src/chatRoom_gemini.ts:36 | the replace never lengthens the text |
| TextCleaning.TrimStart | src/chatRoom_gemini.ts:36 | the start trim never lengthens the text |
| TextCleaning.TrimEnd | src/chatRoom_gemini.ts:36 | the end trim never lengthens the text |
| TextCleaning.Trim | src/chatRoom_gemini.ts:36 | `trim` never lengthens the text; TrimIsInnerSlice states exactly what it keeps |
| TextCleaning.TrimStartDropsLeadingWhitespace | src/chatRoom_gemini.ts:36 | trimming the start removes exactly the longest all-whitespace prefix |
| TextCleaning.TrimEndDropsTrailingWhitespace | src/chatRoom_gemini.ts:36 | trimming the end removes exactly the longest all-whitespace suffix |
| TextCleaning.TrimIsInnerSlice | src/chatRoom_gemini.ts:36 | `trim` returns the contiguous slice between leading and trailing whitespace, and everything cut off is whitespace |
| TextCleaning.CleanTextTrimmed | src/chatRoom_gemini.ts:36 | the cleaned text never begins or ends with whitespace |
| TextCleaning.CleanText | src/chatRoom_gemini.ts:36 | the cleaned text is never longer than the input; CleanTextTrimmed and CleanTextWithoutOpener state what it is |
| TextCleaning.StripMentionsWithoutOpener | src/chatRoom_gemini.ts:36 | text without `<@` passes the replace unchanged |
| TextCleaning.CleanTextWithoutOpener | src/chatRoom_gemini.ts:36 | text without `<@` is only trimmed |
| TextCleaning.StripLeadingMention | src/chatRoom_gemini.ts:36 | a mention at the front is removed whole and the scan resumes right after it |
| TextCleaning.StripKeepsNonMention | src/chatRoom_gemini.ts:36 | a character where no whole mention starts (including a `<@` that starts none) is kept in place and the scan moves one position on |
| TextCleaning.StripKeepsBrokenOpener | src/chatRoom_gemini.ts:36 | a `<@` not followed by an alphanumeric character (`<@ x`, `<@>`) starts no match: the `<` is kept and the scan resumes at the `@` |
| TextCleaning.StripAfterStrayOpener | src/chatRoom_gemini.ts:36 | a lone `<` in front of a mention is kept, the mention is removed, and text without `<@` after it is kept |
| TextCleaning.StripMentionsIsSinglePass | src/chatRoom_gemini.ts:36 | the global replace is one pass: `<` + `<@a>` + `@b>` becomes `<@b>`, which a second pass would remove, so the clean-up is not idempotent |
| GeminiChatRoom.NormalizeRole | src/chatRoom_gemini.ts:52-58 | the mapped role is always `user` or `model`, and it is `user` exactly when the stored role is `user` |
| GeminiChatRoom.DropSystem | src/chatRoom_gemini.ts:51 | the filter keeps exactly the non-system messages and never lengthens the history |
| GeminiChatRoom.NormalizeRoles | src/chatRoom_gemini.ts:52-63 | the map keeps the length and every text in place, and a role becomes `user` exactly when it was `user` |
| GeminiChatRoom.SystemInstruction | src/chatRoom_gemini.ts:66-68 | the system instruction begins with the instructions, ends with the strategy context, and has the 18-character context header between them |
| GeminiChatRoom.GeminiContents | src/chatRoom_gemini.ts:50-63 | the contents are at most as long as the history, and every role is `user` or `model` |
| GeminiChatRoom.DropSystemAppend | src/chatRoom_gemini.ts:51 | the filter works message by message: filtering a concatenation concatenates the filtered parts |
| GeminiChatRoom.GeminiContentsAppend | src/chatRoom_gemini.ts:50-63 | the filter-and-map works message by message and keeps the order |
| GeminiChatRoom.GeminiContentsSingle | src/chatRoom_gemini.ts:50-63 | one message becomes nothing if it is a system message, and otherwise itself with its role normalised |
| GeminiChatRoom.DropSystemKeepsAll | src/chatRoom_gemini.ts:51 | a history with no system message passes the filter whole |
| GeminiChatRoom.GeminiContentsWithoutSystem | src/chatRoom_gemini.ts:50-63 | with no system rows nothing is dropped: texts stay in place and only `user` maps to `user` |
| GeminiChatRoom.ChatRoom.constructor | src/chatRoom_gemini.ts:8-19 | the room opens its channel's table and has posted nothing |
| GeminiChatRoom.ChatRoom.PostToSlack | src/chatRoom_gemini.ts:108-117 | one `chat.postMessage` of the text to the channel |
| GeminiChatRoom.ChatRoom.HandleMessage | src/chatRoom_gemini.ts:21-106 | at or over `MESSAGES_LIMIT` `model` rows: one limit notice and no change to the table or its id counter; otherwise the Converse effect on the mention-stripped, trimmed text; each event adds at most one `model` row, and the count never passes the limit |
| GeminiChatRoom.ChatRoom.Converse | src/chatRoom_gemini.ts:35-105 | the cleaned text is stored first under a fresh id; the request carries the instruction text and the role-mapped last ten rows including the new one; if the call throws, the user row stays and nothing is posted; without candidates the error notice is posted and no reply is stored; otherwise the reply is stored as `model` right after the user row and posted once; the id counter advances by one per stored row |
| OpenAiChatRoom.ChatMessagesShape | src/chatRoom.ts:41-52 | the message list is one system message and then the last `min(10, n)` rows unchanged in id order, ending with the newest row |
| OpenAiChatRoom.ChatMessages | src/chatRoom.ts:49-52 | the message list is the system message followed by the history unchanged, one entry longer than the history |
| OpenAiChatRoom.SystemPrompt | src/chatRoom.ts:49-52 | the system prompt begins with the instructions and ends with the strategy context followed by the end marker, 44 characters of markers in all |
| OpenAiChatRoom.ChatRoom.constructor | src/chatRoom.ts:7-18 | the room opens its channel's table and has posted nothing |
| OpenAiChatRoom.ChatRoom.PostToSlack | src/chatRoom.ts:80-89 | one `chat.postMessage` of the text to the channel |
| OpenAiChatRoom.ChatRoom.HandleMessage | src/chatRoom.ts:20-78 | at 100 or more `assistant` rows: the limit notice and no change to the table; otherwise the Converse effect on the text as received; each event adds at most one `assistant` row, and the count never passes 100 |
| OpenAiChatRoom.ChatRoom.Converse | src/chatRoom.ts:35-77 | the raw text is stored first under a fresh id; the request is the system message plus the last ten rows including the new one; with no choice (or a call that throws) the user row stays unanswered and nothing is posted; otherwise the reply is stored as `assistant` right after the user row and posted once; the id counter advances by one per stored row |
| Worker.Classify | src/index.ts:18-45 | a request is refused exactly when it is not a POST; it throws exactly when its body does not destructure or it is an `event_callback` without an event; the handshake happens exactly for `url_verification`, before the bot filter, echoing the challenge; it is ignored exactly for bot events and other types; otherwise it is dispatched to the room of the event's channel |
| Worker.Respond | src/index.ts:18-45 | a refused request gets 405 "Method not allowed"; an ignored one 200 "Ignored"; a dispatched one 200 "OK"; only the handshake answers with JSON, echoing the challenge; nothing is returned exactly when an exception escapes |

## Left out

- Network calls to Gemini, OpenAI and Slack are I/O. The provider's answer is a parameter, and Slack posts are recorded in `posts`. The request bodies are returned as values instead of being sent.
- JSON parsing and serialisation are left out. A webhook body is its destructured fields, or None when the destructuring throws (a parse error or `null`). The Gemini `parts` wrapping and `generationConfig.temperature` (0.3), and OpenAI's `model` name and `temperature`, are not part of the request values.
- `Date.now()` is two timestamp parameters.
- The `MESSAGES_LIMIT` constant comes from `src/const.js`, which is not part of this model. It is the room's `messagesLimit` field. `SYSTEM_INSTRUCTIONS` and `STRATEGY_CONTEXT` from `src/knowledge.ts` are constructor parameters, since only their concatenation matters.
- Asynchrony is left out: the `ctx.waitUntil` dispatch, the Durable Object runtime, and the order in which concurrent events interleave in one room. Each `HandleMessage` is modelled as running to completion before the next event starts. Another event that is processed during its `await`s is not modelled.
- Worker.Classify: the dispatch is the route, naming the channel whose room receives the event. `idFromName` and the stub call are left out.
- Slack request signature checking does not exist in the source, so it is not modelled.
- Strings are sequences of Unicode scalar values, not UTF-16 code units. `trim` uses the ECMAScript WhiteSpace and LineTerminator set, with the `Zs` code points of current Unicode.
- An event without `text` (`undefined.replace` throws in the Gemini room) is not modelled: `Event.text` is always a string. In the same way, `bot_id` is a string, and a non-empty one is truthy.
- A Gemini response whose first candidate lacks `content.parts[0].text` is left out. So is an OpenAI choice whose `content` is null: the provider answer is either a reply string or None.
- The `user` field destructured by the OpenAI room is never used, so it is not in the model.
- GeminiChatRoom.ChatRoom.Converse and OpenAiChatRoom.ChatRoom.Converse are not separate functions in the source. They are the steps of `handleMessage` after the quota gate, split out so that each method's proof stays small.
- OpenAiChatRoom.ChatRoom.HandleMessage: after a missing choice the exception ends the method. The model returns `Crashed` and leaves the user row stored, as the source does.
- `src/knowledge.ts` and `src/knowledge_just_formating.ts` hold only the prompt text constants, which the model treats as opaque strings. The `VECTOR_INDEX` and `AI` bindings declared in `Env` are never used by the modelled code.
- `postToSlack` failing (its `fetch` rejecting) is not modelled: every post is recorded as made. The `console.error` log line at `src/chatRoom_gemini.ts:91` is output only and is left out.
