# Chat and knowledge stores of the travel-assistant front end

This project models the state logic of the assistant's web front end.
That logic is two Pinia stores: `src/stores/chat.js` and `src/stores/knowledge.js`.

The **chat store** keeps a list of chats, each with its messages, and the id of the current chat.
- Its actions create, select, delete and clear chats, add messages, and append text to a message.
- It reads streamed replies from the agent back end as text chunks. Each chunk is split into lines.
- Each line is classified: `event:` lines, the agent-start marker, `data:` lines, step lines, and other text.
- Payloads are decoded into message text. Decoding probes JSON members in a fixed order and falls back to cleaning up plain text.
- The result goes to one of two policies:
  - **New bubble**: one new message per payload (`processStreamDataWithNewBubbles`).
  - **Single bubble**: text appended to one message (`accumulateToMessage` and `processStreamDataCombined`, both through `appendToMessage`).

The **knowledge store** keeps a list of documents.
- It has `isLoading` and `error` flags.
- Its actions load a fixed sample list, upload a document (the type comes from the file extension) and delete a document.

Modules:

- `Wrappers`: `Option`.
- `Text`: the JavaScript string operations the stores use.
  - `trim` and the `\s` set.
  - `startsWith`, `endsWith` and `includes`.
  - `split('\n')` with its inverse `join`.
  - The anchored `replace(/^[…]+|[…]+$/g, '')` cleanup.
  - ASCII lower-casing.
- `JsonValues`: parsed JSON values and the JavaScript semantics the decoders rely on.
  - Truthiness.
  - Member reads, where the last duplicate key wins.
  - `Object.keys(…).length > 0`.
  - `String(…)`.
  - `JSON.parse`/`JSON.stringify`, given as a `Codec` of two functions.
- `PayloadDecoder`: the key probe, the plain-text cleanup, and the two decoders: single bubble (`DecodePayload`) and new bubble (`NewBubble`).
- `Sessions`: chats and messages as values, and the meaning of each chat-store action on them.
- `Agents`: the two agent profiles and the `currentAgentConfig` lookup.
- `Ingest`: the line classifiers, one loop iteration (`Step`), and its folds over lines (`Lines`) and chunks (`Chunks`).
- `ChatStoreModel`: the store as a class whose fields the actions update in place. The read loops are `while` loops proved against `Lines`/`Chunks`, and `sendMessageStream` is proved against the function `Send`.
- `Knowledge`: the knowledge store as a class.
- `Sequences`: what cutting one element out of a sequence keeps, shared by `deleteChat` and `deleteDocument`.
- `DecoderProperties`, `SessionProperties`, `IngestProperties`, `KnowledgeProperties`: lemmas over all inputs.

Ids and timestamps come from `Date.now()`, `Math.random()` and `new Date().toISOString()`. Here they are parameters.
- `createNewChat` and `uploadDocument` take the millisecond clock and the time string directly.
- The stream readers take an `Env`: two functions from a draw counter to an id suffix and to a timestamp. The store advances the counter once per created message and once per append.

## Model

The pure operations are stated by lemmas over all inputs, and their rows below name those lemmas:

- `PayloadDecoder.Extract`: `ExtractFollowsProbeOrder`, `ExtractTruthyOnObjects`.
- `PayloadDecoder.Clean` and `Fallback`: `CleanShape`, `CleanIdempotent`, `BlankCleansToNothing`, `FallbackSpec`.
- `PayloadDecoder.DecodePayload` (through `Ingest.Accumulate` and `Ingest.Combined`): `DecodeParsedPayload`, `ParsedStringIsRestringified`, `ParsedNullFallsBack`, `ContentRoundTrip`, `UnclosedQuoteSingleBubble`.
- `PayloadDecoder.NewBubble`, `MarkedBubble`, `DecodedBubble`, `UnparsedBubble` and `RemoveEventTags`: `NewBubbleMarkers`, `MarkedBubbleShape`, `MarkedBubblePiece`, `RemoveEventTagsKeepsUntagged`, `RemoveEventTagsDropsLeadingTag`, `UnclosedQuoteRepaired`, `NoiseNeverBecomesContent`, `NewBubbleTextIsClean`.
- `Ingest.ClassifyPlain` and `ClassifyAdvanced`: `DataLineRoundTrip`, `DataSpaceLineRoundTrip`, `EventLinesSkipped`, `BlankLinesSkipped`, `SkippedLinesChangeNothing`, `AdvancedClassifierOrder`.
- `Ingest.Emit`, `Accumulate` and `Combined`: `EmitSpec`, `EmitOpens`, `AppendJoins`, `CombinedOpensEmptyBubble`, `CombinedKeepsBubble`.
- `Ingest.Step`, `Lines` and `Chunks`: `LinesConcat`, `ChunksAreLines`, `NoCarryOver`, `SingleBubbleFrame`, `SingleBubbleContent`, `SingleBubbleRun`, `SingleBubbleSpaceJoined`, `NewBubbleRun`, `StreamingFirstPayloadDropped`.
- `Sessions.AddMessage` and `Title`: `AddMessageSpec`, `TitleOnAdd`, `TitleShape`, `TitleIsFirstUserMessage`.
- `Sessions.AppendToMessage` and `JoinContent`: `AppendToMessageSpec`, `JoinContentSpec`, `AppendAllSpaceJoins`, `AppendABC`.
- `Sessions.DeleteChat`, `ClearMessages` and `NewChat`: `DeleteChatSpec`, `DeletePreservesCurrentValid`, `ClearMessagesSpec`, `ClearThenRetitle`, `NewChatBecomesCurrent`.
- `Knowledge.FileType`, `RemoveDocument` and `NewDocument`: `FileTypeSpec`, `TypeOfExtension`, `RemoveDocumentSpec`, and the contracts of `KnowledgeStore.UploadDocument` and `DeleteDocument`.
- `ChatStoreModel.Send` and `Reply`: `SendSpec`, and the contracts of `ChatStore.SendMessageStream` and `StreamReply`.

| member | source | states |
|---|---|---|
| Agents.CurrentAgentConfig | src/stores/chat.js:43-45 | the result is one of the two profiles. It has the selected id when some profile has it, and is the first profile otherwise. Its `apiType` is `advanced-agent` or `chat` |
| Sessions.FindChat | src/stores/chat.js:86 | the index of the first chat with the id, or none exactly when no chat has it |
| Sessions.FindMessage | src/stores/chat.js:1168 | the index of the first message with the id, or none exactly when no message has it |
| ChatStoreModel.ChatStore.constructor | src/stores/chat.js:5-31 | the history and current id are the restored ones. The selected agent is `super-agent`, no stream is open, and no id has been drawn |
| ChatStoreModel.ChatStore.CurrentChat | src/stores/chat.js:35-37 | the first chat in the history whose id is the current id (no earlier chat has it), or none exactly when no chat has that id |
| ChatStoreModel.ChatStore.CreateNewChat | src/stores/chat.js:49-66 | returns `chat_<ms>`. The history gains exactly that chat at the end: empty, titled `New Conversation`, with the given agent or else the selected one. It becomes current |
| ChatStoreModel.ChatStore.SelectChat | src/stores/chat.js:68-77 | the stream is closed and the current id is the given one, whether or not such a chat exists. The history is unchanged |
| ChatStoreModel.ChatStore.AddMessage | src/stores/chat.js:79-102 | the history and the returned flag are those of `Sessions.AddMessage`. No other field changes |
| ChatStoreModel.ChatStore.DeleteChat | src/stores/chat.js:109-126 | the history and current id are those of `Sessions.DeleteChat` |
| ChatStoreModel.ChatStore.SetSelectedAgent | src/stores/chat.js:128-130 | only the selected agent changes |
| ChatStoreModel.ChatStore.LoadMessages | src/stores/chat.js:132-135 | the current chat's messages, or none without a current chat |
| ChatStoreModel.ChatStore.ClearMessages | src/stores/chat.js:137-142 | the history becomes that of `Sessions.ClearMessages` |
| ChatStoreModel.ChatStore.AppendToMessage | src/stores/chat.js:1162-1182 | the history becomes that of `Sessions.AppendToMessage` |
| ChatStoreModel.ChatStore.ReadLine | src/stores/chat.js:443-498 | one pass of the line loop leaves the store as `Ingest.Step` says |
| ChatStoreModel.ChatStore.ReadLines | src/stores/chat.js:230-253 | the `for` loop over a chunk's lines leaves the store and the open bubble as `Ingest.Lines` says. The current id, the selected agent and the stream flag do not change |
| ChatStoreModel.ChatStore.ReadChunks | src/stores/chat.js:1211-1254 | the `while` loop over chunks leaves the store as `Ingest.Chunks` says. The current id, the selected agent and the stream flag do not change |
| ChatStoreModel.ChatStore.UseAdvancedStreamAPI | src/stores/chat.js:355-516 | returns false and changes nothing when no chat has the current id. Otherwise every line is read in advanced new-bubble form and the result is true. The current id never changes |
| ChatStoreModel.ChatStore.UseStreamingAPI | src/stores/chat.js:1185-1255 | returns false and changes nothing without a current chat. Otherwise lines are read single-bubble exactly when the agent type is `chat`, else new-bubble, and the result is true. The current id never changes |
| ChatStoreModel.ChatStore.StreamReply | src/stores/chat.js:169-266 | the stream is closed and the store becomes the one `Reply` gives: the advanced agent's reply read into new bubbles, the chat agent's into one fresh `stream_` message |
| ChatStoreModel.ChatStore.SendMessageStream | src/stores/chat.js:144-269 | the result and the new store are exactly those `Send` gives for the store and selected agent before the call. The stream is closed exactly when the message was sent. The current id and the selected agent do not change |
| ChatStoreModel.SendSpec | src/stores/chat.js:145-186 | blank text gives `false` and no change. A missing current id, or one matching no chat, gives the matching error object and no change. The result is `true` exactly when the text is not blank and the current id names a chat. Then the user message is the last of the current chat when the reply starts, no other chat changes, and the reply is read per the agent's `apiType` |
| SessionProperties.AddMessageSpec | src/stores/chat.js:79-102 | false and no change exactly when the current id is empty or names no chat. Otherwise the message is appended last to that chat only, and its `lastMessageTime` becomes the message's timestamp |
| SessionProperties.TitleOnAdd | src/stores/chat.js:92-94 | a successful add retitles the chat exactly when the message is from the user and the chat had no user message before |
| SessionProperties.TitleShape | src/stores/chat.js:93 | the title is the first 20 characters, with `...` exactly when the content is longer than 20 |
| SessionProperties.TitleIsFirstUserMessage | src/stores/chat.js:89-94 | after any series of adds to a chat without user messages, the title comes from the first user message among them. Assistant and later user messages never change it |
| SessionProperties.JoinContentSpec | src/stores/chat.js:1171-1175 | the new content is the old content, then one space only when the old content is non-empty and does not end in a space, then the text. The old content is always a prefix |
| SessionProperties.AppendAllSpaceJoins | src/stores/chat.js:1171-1175 | appending non-empty pieces that do not end in a space to an empty message joins them with single spaces |
| SessionProperties.AppendABC | src/stores/chat.js:1171-1175 | appending `A`, `B`, `C` to an empty message gives `A B C` |
| SessionProperties.AppendToMessageSpec | src/stores/chat.js:1162-1182 | a missing current chat or message id changes nothing. Otherwise only the first message with the id changes: joined content, new timestamp, same id, role and flags |
| SessionProperties.DeleteChatSpec | src/stores/chat.js:109-126 | an unknown id changes nothing. Otherwise exactly the first chat with the id goes, the rest keep their order, and the multiset loses that chat. The current id moves to the first remaining chat (or `''`) only when the deleted chat was current |
| SessionProperties.DeletePreservesCurrentValid | src/stores/chat.js:116-122 | if the current id named a chat (or was empty) before a delete, it does so after |
| SessionProperties.ClearMessagesSpec | src/stores/chat.js:137-142 | without a current chat nothing changes. Otherwise only the current chat changes: it loses every message and keeps its place, id, title and agent, and the current id still finds it |
| SessionProperties.ClearThenRetitle | src/stores/chat.js:137-142 | after clearing the current chat, the next user message is added and retitles it |
| SessionProperties.NewChatBecomesCurrent | src/stores/chat.js:49-62 | the new chat's id names a chat. The new chat is the one found under it exactly when no older chat has the same id |
| DecoderProperties.CleanShape | src/stores/chat.js:340-346 | the cleaned text is exactly the payload between its maximal leading run of `"`, `{` and whitespace and its maximal trailing run of `"`, `}`, `:`, `,` and whitespace: everything before is leading junk, everything after is trailing junk, and the kept piece, when non-empty, starts and ends with a character that is not junk |
| DecoderProperties.CleanIdempotent | src/stores/chat.js:342 | cleaning twice is cleaning once |
| DecoderProperties.BlankCleansToNothing | src/stores/chat.js:340-346 | a blank payload cleans to the empty string |
| DecoderProperties.FallbackSpec | src/stores/chat.js:338-347 | the plain-text branch yields text exactly when the cleanup is non-empty. What it yields is the cleanup, already clean and not ending in a space |
| DecoderProperties.ExtractFollowsProbeOrder | src/stores/chat.js:316-333 | the whole probe order. When any of `content`, `result`, `message`, `text` is truthy, the first truthy one in that order is the content. Otherwise a truthy `data` decides: a string is taken as it is; an object or array gives its first truthy nested member (`content`, `result`, `message`, and `text` except in `accumulateToMessage`) or else its serialisation; a number or boolean gives `''`. Without a truthy `data`, a value with keys is serialised whole, and anything else gives `''` |
| DecoderProperties.ExtractTruthyOnObjects | src/stores/chat.js:678-700 | a non-empty object always yields content, except when no probed member is truthy and `data` is a truthy number or boolean |
| DecoderProperties.DecodeParsedPayload | src/stores/chat.js:312-335 | a parsed payload appends something exactly when its probed value is truthy, and then appends that value's text. Empty content appends nothing |
| DecoderProperties.ParsedStringIsRestringified | src/stores/chat.js:331-332 | a payload that parses to a non-empty string is re-serialised, quotes included |
| DecoderProperties.ParsedNullFallsBack | src/stores/chat.js:312-347 | a payload that parses to `null` is decoded by the plain-text branch |
| DecoderProperties.ContentRoundTrip | src/stores/chat.js:316-317 | decoding the serialisation of `{"content": c}` gives `c` back |
| DecoderProperties.NewBubbleMarkers | src/stores/chat.js:606-642 | an `event:` payload makes nothing. Otherwise the agent-start marker, then a `Step `/`Agent ` prefix, make one step message holding the payload verbatim |
| DecoderProperties.RemoveEventTagsKeepsUntagged | src/stores/chat.js:650 | a payload in which no `event:step`/`complete`/`start`/`end` tag starts, in any letter case, is kept whole |
| DecoderProperties.RemoveEventTagsDropsLeadingTag | src/stores/chat.js:650 | a leading `event:step` tag is removed whatever its letter case |
| DecoderProperties.MarkedBubbleShape | src/stores/chat.js:645-668 | a marker payload makes at most one `step_info` step message. Its text is a non-empty piece of the payload with tags removed, starting and ending with no quote, comma or whitespace. Nothing is added exactly when only tags, quotes, commas and whitespace remain |
| DecoderProperties.MarkedBubblePiece | src/stores/chat.js:649-654 | the step message's text is exactly the tag-stripped payload between its maximal leading run and its maximal trailing run of quotes, commas and whitespace |
| DecoderProperties.UnclosedQuoteRepaired | src/stores/chat.js:717-731 | a payload with an opening quote that is never closed, and that parses to a string once a quote is added, makes one content message holding that string |
| DecoderProperties.UnclosedQuoteExample | src/stores/chat.js:717-731 | `"hello` makes the content message `hello` |
| DecoderProperties.UnclosedQuoteSingleBubble | src/stores/chat.js:338-347 | under the single-bubble decoders `"hello` appends `hello` |
| DecoderProperties.NoiseNeverBecomesContent | src/stores/chat.js:737-741 | a `SyntaxError` payload that neither parses nor can be repaired never becomes a content message. Unless it also mentions a marker word or starts with `Step `, it makes no message at all |
| DecoderProperties.NewBubbleTextIsClean | src/stores/chat.js:743-759 | a plain-text message from the new-bubble decoder is non-empty and already clean |
| IngestProperties.ChunksAreLines | src/stores/chat.js:1211-1254 | reading chunk by chunk is reading the concatenation of their split lines |
| IngestProperties.NoCarryOver | src/stores/chat.js:1223-1224 | a line cut between two chunks is handled as two separate lines |
| IngestProperties.EventLinesSkipped | src/stores/chat.js:1226-1228 | an `event:` line is skipped by every loop, and reading it leaves the store and the open bubble as they were |
| IngestProperties.BlankLinesSkipped | src/stores/chat.js:1246 | whitespace-only lines are skipped by every loop |
| IngestProperties.DataLineRoundTrip | src/stores/chat.js:237-243 | `data:X`, with X trimmed, carries X as the payload, except that `[DONE]` is skipped |
| IngestProperties.DataSpaceLineRoundTrip | src/stores/chat.js:237-243 | `data: X` (one space after the colon), with X trimmed, carries X as the payload, except that `[DONE]` is skipped |
| IngestProperties.AdvancedClassifierOrder | src/stores/chat.js:445-498 | the advanced loop classifies a line as the plain loops do unless it mentions the agent-start marker or `Step `/`Agent `. The marker makes an agent-start line even on a `data:` line; `Step `/`Agent ` on a line that is not a `data:` line makes a trimmed step line |
| IngestProperties.LinesConcat | src/stores/chat.js:230-253 | reading two runs of lines one after the other is reading their concatenation |
| IngestProperties.SkippedLinesChangeNothing | src/stores/chat.js:1226-1236 | `event:`, `[DONE]` and blank lines leave the store and the open bubble untouched |
| IngestProperties.AppendJoins | src/stores/chat.js:1162-1182 | one append joins the text to the message's content and moves no chat or message |
| IngestProperties.SingleBubbleFrame | src/stores/chat.js:1223-1253 | a single-bubble loop keeps the bubble id and the current id, and changes nothing but the content and timestamp of the one filled message |
| IngestProperties.SingleBubbleContent | src/stores/chat.js:1239-1248 | a single-bubble loop keeps its bubble id, and the bubble ends with each payload's decoded text appended in order |
| IngestProperties.SingleBubbleRun | src/stores/chat.js:230-253 | a single-bubble loop adds and moves no message and keeps the current id. Every other chat and every other message is unchanged, and the filled message changes only in content and timestamp: it ends with each payload's decoded text appended in order |
| IngestProperties.SingleBubbleSpaceJoined | src/stores/chat.js:1239-1248 | a single bubble that starts empty ends up holding its pieces joined by single spaces |
| IngestProperties.EmitSpec | src/stores/chat.js:1087-1096 | a created message goes last in the current chat as an assistant message under `prefix_<tag>` with the given content and step flag. No other chat changes, and the chat's id, title and agent stay |
| IngestProperties.EmitOpens | src/stores/chat.js:1087-1096 | a message created under an id no message of the chat has is found under that id with its content |
| IngestProperties.StreamingFirstPayloadDropped | src/stores/chat.js:1239-1240 | in `useStreamingAPI` for the chat agent, the first payload only opens an empty `stream_` message. The message holds the pieces of the following lines only |
| IngestProperties.NewBubbleRun | src/stores/chat.js:442-499 | a new-bubble loop only appends to the current chat. The new messages are exactly the step and content messages its lines produce, in line order, all from the assistant and none an error |
| IngestProperties.CombinedOpensEmptyBubble | src/stores/chat.js:1085-1097 | with no open bubble, the payload is ignored. The chat gains one empty, non-step assistant message, whose id is returned |
| IngestProperties.CombinedKeepsBubble | src/stores/chat.js:1099-1154 | with an open bubble, the id is kept. `event:`/`Step `/`Agent `/agent-start payloads, and payloads that decode to nothing, change nothing. Other payloads append their decoded text to the bubble, and nothing but its content and timestamp changes |
| Knowledge.LastDot | src/stores/knowledge.js:76 | the position of the last dot, or -1 when the name has none |
| Knowledge.FindDocument | src/stores/knowledge.js:105 | the index of the first document with the id, or none exactly when no document has it |
| Knowledge.KnowledgeStore.constructor | src/stores/knowledge.js:5-9 | no documents, not loading, no error |
| Knowledge.KnowledgeStore.LoadDocuments | src/stores/knowledge.js:13-50 | the list becomes exactly the three fixed documents and is returned. Not loading, no error |
| Knowledge.KnowledgeStore.UploadDocument | src/stores/knowledge.js:60-83 | exactly one document is appended at the end and returned: `doc<ms>`, the file's name and size, an empty description, the extension type. Not loading, no error |
| Knowledge.KnowledgeStore.DeleteDocument | src/stores/knowledge.js:93-111 | the list is that of `RemoveDocument`, the result is true, not loading, no error |
| KnowledgeProperties.FileTypeSpec | src/stores/knowledge.js:76 | the type is the lower-cased text after the last dot. A name without a dot gives the whole name lower-cased |
| KnowledgeProperties.TypeOfExtension | src/stores/knowledge.js:76 | a name `stem.ext`, with `ext` lower-case and free of dots, gets the type `ext` whatever the stem holds |
| KnowledgeProperties.RemoveDocumentSpec | src/stores/knowledge.js:105-108 | an unknown id changes nothing. Otherwise only the first document with the id goes and the rest keep their order |
| KnowledgeProperties.UploadThenDelete | src/stores/knowledge.js:72-108 | deleting a just-uploaded document whose id was new restores the list |

## Behaviour worth noting

- **Line segmentation.** Each chunk is split on `\n` by itself, with nothing carried over to the next chunk. A line cut between two reads therefore becomes two lines (`IngestProperties.NoCarryOver`).
- **First payload in `useStreamingAPI`.** In single-bubble mode the first payload only opens the empty bubble, and its own text is not shown (`IngestProperties.StreamingFirstPayloadDropped`).
- **Marker branch in `processStreamDataWithNewBubbles`.** At chat.js 645-668, a payload that mentions `event:`, `step`, `complete` or `Agent` is not decoded as JSON. It becomes a cleaned step message, or nothing when the cleaned text is empty (`DecoderProperties.NewBubbleMarkers`, `DecoderProperties.MarkedBubbleShape`).
- **Nested `data` probe in `accumulateToMessage`.** At chat.js 329 the probe of a nested `data` object stops at `message`. The probes at chat.js 693 and 1131 also try `text` (`DecoderProperties.ExtractFollowsProbeOrder`).

## Left out

- Transport is not modelled: `fetch`, `reader.read`, `TextDecoder`, the `EventSource` handlers and `src/services/api.js`. The readers take the decoded chunks as a list.
- The non-stream reply branches are not modelled: the JSON and other content-type branches of `sendMessageStream`, `useAdvancedStreamAPI` and `useStreamingAPI`. These are content-type branching on headers rather than line handling.
- The fallback chains to `useStandardStreamAPI` and `fallbackToSyncAPI` are not modelled, and neither is the backup non-streaming send `sendMessageSync` (chat.js 1036). They are transport paths outside the line dispatch.
- The `catch` branches are not modelled. No modelled operation can throw: reading `.content` of `null` is the one throw that matters, and it is modelled as a parse failure.
- `localStorage` reads and writes are not modelled. The constructor takes the restored history and id.
- Logging is not modelled.
- The agent profiles keep only `id`, `name` and `apiType`. The description and avatar are display text, and the system prompt only travels with the request, which is transport.
- The `streamingResponse` and `isLoading` fields of the chat store are not modelled. No modelled line reads them.
- `sortedChatHistory` is not modelled. It orders by parsed `Date` values, and timestamps here are opaque strings.
- JSON numbers are integers here. Floating point and its `String()` rendering are not modelled.
- `JSON.parse`/`JSON.stringify` are given functions. Their string syntax is not modelled; where a lemma needs a fact about them, the fact is a hypothesis of that lemma.
- `toLowerCase` is modelled on ASCII letters only. String lengths count characters, not UTF-16 code units, which matters for the 20-character title cut on astral characters.
- `Date.now()`, `Math.random()` and `new Date().toISOString()` are parameters. Id collisions are possible, and the lemmas that need fresh ids require them.
- Interleaving of other store actions across `await` points during a stream is not modelled. A stream is read as one uninterrupted sequence of steps.
- The `setTimeout` delays in `src/stores/knowledge.js` are not modelled.
- Knowledge.KnowledgeStore.LoadDocuments: states only the final `isLoading = false`. The transient `isLoading = true` on entry is overwritten before the method returns, and the same holds for `UploadDocument` and `DeleteDocument`.
- PayloadDecoder.DecodedBubble stores the text of the extracted value, where chat.js 679-707 stores the value itself in `content`. A non-string value is held as its `String(v)` rendering: `{"content":{"a":1}}` gives `[object Object]` and `{"content":[]}` (a truthy array) gives a message whose content is the empty string. Displaying the value converts it the same way, but the model does not keep the object or array itself in the message.
- ChatStoreModel.ChatStore.LoadMessages returns a copy of the current chat's messages. chat.js 134 returns the live array, so a caller's later mutation of it is not modelled.
- ChatStoreModel.ChatStore.UseAdvancedStreamAPI takes no `placeholderId`, and the removal of that placeholder message (chat.js 360-368) is not modelled. Its only caller, chat.js 185, passes `null`, which matches no message id, so the removal never happens.
- ChatStoreModel.ChatStore: `streamOpen` stands for `currentStream`, which only the left-out `useStandardStreamAPI` opens (chat.js 838). Every modelled method leaves it unchanged or closes it, so it is `false` in every reachable state of this model. It is kept so that the closing in `selectChat` and `sendMessageStream` (chat.js 70-72, 174-176) stays visible.
- ChatStoreModel.ChatStore.SendMessageStream omits the standard-API branch for an `apiType` other than `advanced-agent` and `chat`. No agent profile has another `apiType`, as `Agents.CurrentAgentConfig` states.
