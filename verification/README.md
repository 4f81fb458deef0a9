# Nexo front-end core, modelled in Dafny

Nexo is a desktop chat client for large language models. It is built from a
React/Redux front end and a Rust (Tauri) back end. This project models the
logic at the core of the front end and proves properties about it:

- the Redux slices holding chats, workspaces, workspace settings, LLM and MCP
  connections, notifications, pending tool permissions, chat search and the
  chat input;
- the message reducers, which merge fetched messages with the in-memory
  stream and keep them in timestamp order;
- the pure helpers behind chat rendering: code-block extraction, mention
  parsing, message grouping, file classification, the mermaid chart cache key
  and the prompt-template placeholders;
- the tool-permission gate in the chat view, with its one-minute timeout;
- the stream buffer that throttles markdown rendering while a reply streams;
- the logger and the Sentry middleware, with their redaction of sensitive
  fields;
- the agent-mention and slash-command menus, and the HTTP headers editor;
- the back-end error type, as far as its text reaches the front end and is
  parsed back there.

Every Redux slice is a `class`. Its fields are the slice state, and each
reducer is a `method` that states the new state as a function of the old one.
A pure helper is a `function` with the lemmas that relate it to its partners:
its inverse, the invariant it keeps, or a reference definition. Where the
source works by a loop, the model has a method with loop invariants, proved
equal to the function that specifies it.

The model does not perform side effects. A side effect such as a back-end
command, a `localStorage` write or a Sentry report becomes an output value of
the method: `SettingWrite`, an effect list or a `Report`. Clocks, generated
ids and the results of calls into code outside the model become parameters.

Several core functions are known here only through their unit tests, because
their implementation files are not part of this model:
- `extractCodeBlocks` (code-block-extractor.ts is not part of this model);
- `parseMessageMentions`;
- `sortMessages`;
- `isVisionModel` and `getEnabledConnections`;
- `useSlashCommand`;
- the reducers of the chats, workspaces, workspace-settings, LLM-connections,
  notification and tool-permission slices.

For these, the model is the behaviour the tests fix, and the table below
cites the test lines.

JavaScript objects whose key order matters are lists of (key, value) pairs
in insertion order (integer-like keys, which JavaScript lists first, are
under "## Left out"). These are:
- the `pendingRequests` record;
- header objects;
- the logger context;
- payloads.

Integers are unbounded, except in the chart hash. There the 32-bit
wrap-around of `|0` and `<<` is written out.

## Model

| member | source | states |
|---|---|---|
| Common.Trim | src/ui/organisms/settings/HeadersEditor.tsx:39-44 | `s.trim()`: the text between the leading and the trailing whitespace (see `TrimShape`) |
| Common.TrimShape | src/ui/organisms/settings/HeadersEditor.tsx:39-44 | the trimmed text neither starts nor ends with whitespace, and it is the original with only whitespace removed before and after it |
| Common.TrimEmptyIffAllSpace | src/ui/organisms/settings/HeadersEditor.tsx:39 | a text trims to the empty (falsy) string exactly when it is all whitespace |
| Common.TrimIdempotent | src/ui/organisms/settings/HeadersEditor.tsx:44 | trimming twice is trimming once |
| Common.Split | src/features/chat/ui/chat/MessageFile.tsx:29 | `s.split(c)` for one character: always at least one piece |
| Common.SplitPiecesFree | src/features/chat/ui/chat/MessageFile.tsx:100 | no piece of a split holds the separator |
| Common.JoinSplit | src/features/chat/ui/chat/MessageFile.tsx:100 | joining the pieces with the separator gives back the text |
| Common.SplitJoin | src/features/chat/ui/chat/MessageFile.tsx:100 | splitting separator-free pieces joined by the separator gives back the pieces |
| Common.Lower | src/features/chat/ui/chat/MessageFile.tsx:29 | `toLowerCase` (ASCII only, see "## Left out"): the same length, each character lower-cased on its own |
| JsValues.Truthy | src/lib/logger.ts:137 | JavaScript truthiness: `undefined`, `null`, `false`, `0` and `""` are falsy, everything else truthy |
| JsValues.ToJsString | src/ui/organisms/settings/HeadersEditor.tsx:21-24 | `String(v)`: a string converts to itself |
| AppErrors.FromTag | src-tauri/src/error/app_error.rs:6-49 | a text that is one of the fifteen bracketed tags gives the error variant it names, carrying the detail; any other text gives nothing |
| AppErrors.TagDeterminesVariant | src-tauri/src/error/app_error.rs:6-49 | the tags are pairwise distinct, so the tag and the detail together give back the error |
| AppErrors.TagIsPlain | src-tauri/src/error/app_error.rs:6-49 | no tag contains `]` or a line terminator, so a tag survives the front end's bracket pattern |
| AppErrors.Display | src-tauri/src/error/app_error.rs:6-49 | the display text is "[" tag "] " followed by the detail, unchanged |
| AppErrors.Serialize | src-tauri/src/error/app_error.rs:54-61 | an error is serialised as a string value, and that string is its display text |
| AppErrors.FromForeign | src-tauri/src/error/app_error.rs:6-40 | each `#[from]` conversion maps its library error to its own variant (SQLite to Database, I/O to Io, JSON to Serialization, Tauri, HTTP to Http, zip to Zip) and keeps the error's text |
| AppErrors.CloseBracket | src/lib/utils.ts:42 | the lazy `(.*?)` ends at the first `]` after the opening bracket, and only if no line terminator comes before it; when there is none, every `]` has a line end before it |
| AppErrors.LineRun | src/lib/utils.ts:42 | the greedy `(.*)` runs to the first line terminator or the end of the text, and what it covers is a single line |
| AppErrors.CloseOf | src/lib/utils.ts:42 | in "[" c "]" rest with c on one line and free of `]`, the category ends at the bracket after c, and the category is c |
| AppErrors.CloseAt | src/lib/utils.ts:42 | a `]` at j with no `]` and no line end between i and j is where the lazy group closes |
| AppErrors.LineRunOfSingleLine | src/lib/utils.ts:42 | over a single-line message followed by nothing or a line terminator, the greedy group covers exactly the message |
| AppErrors.ParseBackendError | src/lib/utils.ts:35-54 | without a match the message is the whole text and there is no category; with a match the category is the bracketed part of the first line, and a message other than the whole text is the single-line rest of it after at most one whitespace character |
| AppErrors.ParseFindsCategoryIff | src/lib/utils.ts:42-54 | a category is found exactly when the text starts with `[` and a `]` closes it before any line terminator |
| AppErrors.EmptyRestKeepsWholeText | src/lib/utils.ts:47 | when the bracket is followed by nothing, or by a space and then nothing or a line end, the category is still found and the empty `match[2]` falls back to the whole text |
| AppErrors.ParseOfFormattedWith | src/lib/utils.ts:42-48 | "[" c "]", one whitespace character (a line terminator included), a non-empty single-line message, then nothing or a new line, parses to (c, message) |
| AppErrors.ParseOfFormatted | src/lib/utils.ts:42-48 | round trip: "[" c "] " m parses back to category c and message m when m is a non-empty single line |
| AppErrors.DisplayRoundTrip | src-tauri/src/error/app_error.rs:6-49 | every back-end error whose detail is a non-empty single line reaches the front end as its own tag and detail, and the tag gives back the variant |
| AppErrors.ThrownText | src/lib/utils.ts:39 | the text parsed is an Error's `message`, and `String(value)` of anything else |
| AppErrors.SerializedRoundTrip | src-tauri/src/error/app_error.rs:54-61 | a serialised error, rejected as a plain string, parses on the front end to its tag and detail |
| AppErrors.EmptyDetailGivesWholeText | src/lib/utils.ts:47 | an error with an empty detail reaches the front end with its tag and the whole display text as message |
| AppErrors.MultiLineDetailIsCut | src/lib/utils.ts:42 | a multi-line detail reaches the front end cut at its first line terminator |
| AttachedFileItem.Classify | src/features/chat/ui/chat/AttachedFileItem.tsx:42-69 | the chip's kind: image exactly for an `image/` type; then video and audio by prefix; PDF exactly for `application/pdf`; text for any other `text/` type; "other" for the rest |
| AttachedFileItem.ClassifyAgreesWithCard | src/features/chat/ui/chat/AttachedFileItem.tsx:42-69 | the chip classifies a mime type exactly as the message card does when there is no file extension to go by |
| AttachedFileItem.TextAndPdfLabels | src/features/chat/ui/chat/AttachedFileItem.tsx:57-63 | every `text/` type is labelled "Text", `application/pdf` is labelled "PDF", and any other non-media type "File" |
| AttachedFileItem.NoExtensionFallback | src/features/chat/ui/chat/AttachedFileItem.tsx:42-69 | the chip has no extension fallback: a `.png` path with an empty mime type is an image on the card but "other" on the chip |
| ChartHash.Wrap32 | src/ui/atoms/streamdown/lib/mermaid/utils.ts:81 | the 32-bit conversion gives the signed 32-bit integer congruent to its input modulo 2^32, and leaves values already in range unchanged |
| ChartHash.WrapCongruent | src/ui/atoms/streamdown/lib/mermaid/utils.ts:79-81 | the 32-bit conversion only depends on its input modulo 2^32 |
| Common.CodeUnits | src/ui/atoms/streamdown/lib/mermaid/utils.ts:76-77 | `charCodeAt` reads UTF-16 code units: each is below 2^16, there are at least as many as characters, and exactly the characters' codes when every character is below U+10000 |
| Common.CodeUnitsAppend | src/ui/markdown-content/MarkdownContent.tsx:45-52 | the code units of a concatenation are those of its parts, one after the other |
| Common.LengthOfPrefix | src/ui/markdown-content/MarkdownContent.tsx:45-52 | a prefix of a text has no more code units than the text |
| Common.AstralCodeUnits | src/ui/markdown-content/MarkdownContent.tsx:45 | a text of characters outside the Basic Multilingual Plane has twice as many code units as characters |
| ChartHash.Step | src/ui/atoms/streamdown/lib/mermaid/utils.ts:79-81 | one step, written as the source writes it (a 32-bit shift by 5, minus, plus the code, then `\|0`), stays a signed 32-bit integer |
| ChartHash.StepIsTimes31 | src/ui/atoms/streamdown/lib/mermaid/utils.ts:79-81 | the shift-and-subtract step is the accumulator times 31 plus the code, wrapped to 32 bits |
| ChartHash.Hash | src/ui/atoms/streamdown/lib/mermaid/utils.ts:75-82 | the accumulator after all code units stays a signed 32-bit integer |
| ChartHash.Abs | src/ui/atoms/streamdown/lib/mermaid/utils.ts:83 | `Math.abs` gives the value or its negation, never negative |
| ChartHash.DigitValue | src/ui/atoms/streamdown/lib/mermaid/utils.ts:83 | a base-36 digit of `toString(36)` reads back as a value below 36 |
| ChartHash.DigitRoundTrip | src/ui/atoms/streamdown/lib/mermaid/utils.ts:83 | reading a rendered digit gives back the digit's value |
| ChartHash.NatToRadixValue | src/ui/atoms/streamdown/lib/mermaid/utils.ts:83 | reading back the base-36 rendering of a number gives the number |
| ChartHash.Power36 | src/ui/atoms/streamdown/lib/mermaid/utils.ts:83 | powers of 36 are positive |
| ChartHash.RadixLength | src/ui/atoms/streamdown/lib/mermaid/utils.ts:83 | a number below 36^k takes at most k base-36 digits |
| ChartHash.Key | src/ui/atoms/streamdown/lib/mermaid/utils.ts:83 | `Math.abs(hash).toString(36)` is one to six lower-case base-36 digits whose value is the absolute hash (2^31 included) |
| ChartHash.ChartKey | src/ui/atoms/streamdown/lib/mermaid/utils.ts:74-84 | every chart key is one to six base-36 digits |
| ChartHash.GetChartHash | src/ui/atoms/streamdown/lib/mermaid/utils.ts:74-84 | the loop over the code units returns the chart key: one to six base-36 digits whose value is the absolute 32-bit hash |
| ChartHash.EmptyChartKey | src/ui/atoms/streamdown/lib/mermaid/utils.ts:75-83 | the empty chart hashes to "0" |
| ChartHash.HashStep | src/ui/atoms/streamdown/lib/mermaid/utils.ts:76-82 | each code unit multiplies the accumulator by 31 and adds the code, modulo 2^32 |
| ChartHash.BasicTextUnits | src/ui/atoms/streamdown/lib/mermaid/utils.ts:77 | a text of characters below U+10000 hashes its characters' own codes |
| ChartHash.KeysCollide | src/ui/atoms/streamdown/lib/mermaid/utils.ts:74-84 | the key is not injective: the distinct charts "Aa" and "BB" get the same key, so two charts can share a cache entry |
| ChatInput.Clear | src/features/chat/state/chatInputSlice.ts:39-42 | clearing empties the text and the attachments and leaves every other field as it was |
| ChatInput.ResetAsWritten | src/features/chat/state/chatInputSlice.ts:55-62 | the reducer as written returns every field except `isLoading` to its initial value, and `isLoading` keeps whatever it was |
| ChatInput.Reset | src/features/chat/state/chatInputSlice.test.ts:39-52 | the reset the slice's test expects: not loading, empty text, no model, no attachments, streaming on, thinking off, medium effort |
| ChatInput.ResetAsWrittenSettles | src/features/chat/state/chatInputSlice.ts:55-62 | the reset as written is idempotent, leaves no text or attachment to clear, and gives the initial state exactly when the state was not loading |
| ChatInput.ResetAsWrittenKeepsLoading | src/features/chat/state/chatInputSlice.ts:55-62 | on the test's custom state, which is loading, the reset as written does not give the initial state, while the test expects it to |
| ChatInput.ResetsAgreeWhenIdle | src/features/chat/state/chatInputSlice.ts:55-62 | the reducer as written and the expected reset agree exactly on the states that are not loading |
| ChatInput.Restore | src/features/chat/state/chatInputSlice.ts:63-76 | only the settings given (not `undefined`) are written: a given model or stream flag replaces the old one, an absent one keeps it, and nothing else changes |
| ChatInput.RestoreIdempotent | src/features/chat/state/chatInputSlice.ts:63-76 | restoring the same settings twice is restoring them once, and restoring nothing changes nothing |
| ChatInput.ChatInputSlice.constructor | src/features/chat/state/chatInputSlice.ts:13-21 | the slice starts in the initial state |
| ChatInput.ChatInputSlice.SetInput | src/features/chat/state/chatInputSlice.ts:27-29 | the new state is the old one with the new input text |
| ChatInput.ChatInputSlice.SetSelectedModel | src/features/chat/state/chatInputSlice.ts:30-32 | the new state is the old one with the new (possibly absent) model |
| ChatInput.ChatInputSlice.SetStreamEnabled | src/features/chat/state/chatInputSlice.ts:33-35 | the new state is the old one with the new stream flag |
| ChatInput.ChatInputSlice.SetAttachedFiles | src/features/chat/state/chatInputSlice.ts:36-38 | the new state is the old one with the new attachments |
| ChatInput.ChatInputSlice.ClearInput | src/features/chat/state/chatInputSlice.ts:39-42 | the new state is the old one cleared (see `Clear`) |
| ChatInput.ChatInputSlice.SetLoading | src/features/chat/state/chatInputSlice.ts:43-45 | the new state is the old one with the new loading flag |
| ChatInput.ChatInputSlice.SetThinkingEnabled | src/features/chat/state/chatInputSlice.ts:46-48 | the new state is the old one with the new thinking flag |
| ChatInput.ChatInputSlice.SetReasoningEffort | src/features/chat/state/chatInputSlice.ts:49-54 | the new state is the old one with the new reasoning effort |
| ChatInput.ChatInputSlice.ResetChatInput | src/features/chat/state/chatInputSlice.ts:55-62 | the new state is the reset as written of the old one: every field back to its initial value except `isLoading`, which keeps its value (the expected reset, `Reset`, is under Findings) |
| ChatInput.ChatInputSlice.RestoreSettings | src/features/chat/state/chatInputSlice.ts:63-76 | the new state is `Restore` of the old one |
| ChatSearch.SetOpen | src/store/slices/chatSearchSlice.ts:20-27 | opening sets the flag and keeps the query and results; closing gives the initial state (closed, empty query, no results) |
| ChatSearch.CloseThenOpenIsEmpty | src/store/slices/chatSearchSlice.ts:20-26 | closing forgets the search: whatever was typed, closing and reopening shows an empty panel, and closing twice is closing once |
| ChatSearch.ChatSearchSlice.constructor | src/store/slices/chatSearchSlice.ts:10-14 | the slice starts closed, with an empty query and no results |
| ChatSearch.ChatSearchSlice.SetSearchOpen | src/store/slices/chatSearchSlice.ts:20-27 | the new state is `SetOpen` of the old one |
| ChatSearch.ChatSearchSlice.SetSearchQuery | src/store/slices/chatSearchSlice.ts:28-30 | only the query changes |
| ChatSearch.ChatSearchSlice.SetFilteredChats | src/store/slices/chatSearchSlice.ts:31-33 | only the results change |
| ChatTypes.RoleFromText | src/features/chat/state/messages/thunks/fetchMessages.ts:34 | a role read from the database is cast without a check: "user", "assistant", "tool" and "tool_call" give their roles, and any other text is kept as an unknown role |
| ChatMessagesGate.DenialNotice | src/ui/organisms/chat/ChatMessages.tsx:48-49 | the notice recorded on a denial names the denied tool |
| ChatMessagesGate.Respond | src/ui/organisms/chat/ChatMessages.tsx:34-84 | the first effect is always the answer to the back end, allowing only the tool's id on approval and no id on denial |
| ChatMessagesGate.RemovedOnlyAfterSuccess | src/ui/organisms/chat/ChatMessages.tsx:78-81 | the request is removed exactly when every awaited call succeeded (the answer, and the notice when one is written), and then as the last effect; any failure leaves it pending |
| ChatMessagesGate.NoticeOnlyOnDenial | src/ui/organisms/chat/ChatMessages.tsx:48-76 | a notice is added to the store exactly for a successful denial with a chat selected, and it is an assistant message in the selected chat naming the tool |
| ChatMessagesGate.DenyAll | src/ui/organisms/chat/ChatMessages.tsx:96-98 | an expired request starts one denial per tool call |
| ChatMessagesGate.DenyAllAt | src/ui/organisms/chat/ChatMessages.tsx:96-98 | the k-th denial is for the k-th tool call, with its id and name |
| ChatMessagesGate.ExpiredRequestActions | src/ui/organisms/chat/ChatMessages.tsx:94-106 | an expired request yields a denial for each tool call, in order, then one timeout error |
| ChatMessagesGate.IsExpired | src/ui/organisms/chat/ChatMessages.tsx:94 | a request has expired when its timestamp is non-zero and more than 60 000 ms old |
| ChatMessagesGate.ScanActions | src/ui/organisms/chat/ChatMessages.tsx:89-106 | the actions of one tick: per expired request in key order, a denial per tool call and then one timeout error (see `OneErrorPerExpiredRequest`, `NothingExpiredNothingDone`) |
| ChatMessagesGate.Scan | src/ui/organisms/chat/ChatMessages.tsx:87-110 | one tick of the one-second interval starts the actions of the specification `ScanActions`: the requests in key order, the tool calls of each in list order, only for requests with a timestamp older than 60 s |
| ChatMessagesGate.DenyEach | src/ui/organisms/chat/ChatMessages.tsx:95-97 | an expired request denies its tool calls one after the other, in list order, each with its own id and name under the request's message id |
| ChatMessagesGate.CountTimeoutsAppend | src/ui/organisms/chat/ChatMessages.tsx:96-106 | timeout errors of two action lists add up |
| ChatMessagesGate.NoTimeoutInDenials | src/ui/organisms/chat/ChatMessages.tsx:96-98 | the denials of a request include no timeout error |
| ChatMessagesGate.OneErrorPerExpiredRequest | src/ui/organisms/chat/ChatMessages.tsx:93-106 | a tick raises one timeout error per expired request, however many tool calls it has |
| ChatMessagesGate.ScanContainsEachBlock | src/ui/organisms/chat/ChatMessages.tsx:93-107 | each request's actions appear in the tick's actions as one uninterrupted block |
| ChatMessagesGate.ScanBlock | src/ui/organisms/chat/ChatMessages.tsx:93-107 | the actions of request i sit at a given offset of the tick's actions, whole and in order |
| ChatMessagesGate.NothingExpiredNothingDone | src/ui/organisms/chat/ChatMessages.tsx:89-95 | a tick over requests none of which is older than 60 s, or which have no timestamp, starts nothing |
| ChatMessagesGate.SaveEdit | src/ui/organisms/chat/ChatMessages.tsx:127-136 | without a selected chat an edit does nothing; a blank edit only raises the empty-message error; otherwise the loading flag is set first and cleared last |
| ChatMessagesGate.FindById | src/ui/organisms/chat/ChatMessages.tsx:138 | the message found has the id and is in the list; nothing is found exactly when no message has the id |
| ChatMessagesGate.SaveEditByRole | src/ui/organisms/chat/ChatMessages.tsx:143-172 | a user message is edited and re-sent; an assistant message is updated in place, keeping truthy reasoning, and the chat refetched exactly when the update succeeded; a thrown error is reported |
| Chats.FromDb | src/features/chat/state/chatsSlice.test.ts:81-107 | a fetched row becomes a chat with the row's id, title and last message, and the timestamp converted from the row's update time |
| Chats.FromDbAll | src/features/chat/state/chatsSlice.test.ts:81-107 | the rows are converted one by one, in order |
| Chats.Rename | src/features/chat/state/chatsSlice.test.ts:128-145 | every chat with the id gets the new title and every other chat is kept, in place |
| Chats.RenameEverywhere | src/features/chat/state/chatsSlice.test.ts:128-145 | the rename is applied to the list of every workspace, and no workspace is added or dropped |
| Chats.RenameIdempotent | src/features/chat/state/chatsSlice.test.ts:128-145 | renaming twice to the same title is renaming once, and a renamed chat carries the new title |
| Chats.DeleteUndoesCreate | src/features/chat/state/chatsSlice.test.ts:63-77 | deleting a chat just created with a fresh id gives back the list it was appended to |
| Chats.DeleteRemovesOnlyThatChat | src/features/chat/state/chatsSlice.test.ts:63-77 | after a delete no chat with that id is left in the workspace, and every other chat still is |
| Chats.ChatsSlice.constructor | src/features/chat/state/chatsSlice.test.ts:39-43 | the slice starts with no lists, no selection, not loading and no error |
| Chats.ChatsSlice.SetChats | src/features/chat/state/chatsSlice.test.ts:45-52 | the list is stored under its workspace and nothing else changes |
| Chats.ChatsSlice.SetSelectedChat | src/features/chat/state/chatsSlice.test.ts:54-61 | the chat becomes the selection and its id is written to the `lastChatId` setting |
| Chats.ChatsSlice.DeleteChat | src/features/chat/state/chatsSlice.test.ts:63-77 | the chat leaves its workspace's list (an unknown workspace is left alone), and the selection is cleared exactly when it was that chat |
| Chats.ChatsSlice.FetchFulfilled | src/features/chat/state/chatsSlice.test.ts:81-107 | the converted rows become the workspace's list, loading stops, and a stored `lastChatId` becomes the selection |
| Chats.ChatsSlice.CreateFulfilled | src/features/chat/state/chatsSlice.test.ts:109-126 | the new chat is appended to its workspace's list and selected |
| Chats.ChatsSlice.UpdateTitleFulfilled | src/features/chat/state/chatsSlice.test.ts:128-145 | the chat is renamed in every workspace that lists it, and nothing else changes |
| CodeBlockExtractor.FindFence | src/features/chat/lib/code-block-extractor.test.ts:5-26 | the first fence mark at or after the offset, or none when no fence mark starts there or later |
| CodeBlockExtractor.MatchAt | src/features/chat/lib/code-block-extractor.test.ts:114-124 | a match found at i starts at i and is well formed: a fence mark, a non-empty run of word characters, a newline, a body in which no fence mark starts, and the closing fence mark; no fence mark at i, no match |
| CodeBlockExtractor.Matches | src/features/chat/lib/code-block-extractor.test.ts:45-82 | every match is well formed and starts at or after the offset, and every earlier match ends before any later one starts: the matches are in text order and do not overlap |
| CodeBlockExtractor.Kept | src/features/chat/lib/code-block-extractor.test.ts:84-112 | exactly the matches whose language is python or mermaid, in any case: each kept match is one of the matches with such a language, and every match with such a language is kept |
| CodeBlockExtractor.KeptInTextOrder | src/features/chat/lib/code-block-extractor.test.ts:84-112 | keeping some of the matches keeps them in text order |
| CodeBlockExtractor.Numbered | src/features/chat/lib/code-block-extractor.test.ts:45-82 | one block per kept match |
| CodeBlockExtractor.NumberedAt | src/features/chat/lib/code-block-extractor.test.ts:45-82 | the k-th block is the k-th kept match numbered `first + k` |
| CodeBlockExtractor.ExtractCodeBlocks | src/features/chat/lib/code-block-extractor.test.ts:5-44 | one block per fence whose language is kept (which blocks, completeness and text order: `ExtractedBlockAt`, `ExtractedFenceGivesBlock`, `ExtractedInTextOrder`) |
| CodeBlockExtractor.ExtractedBlockAt | src/features/chat/lib/code-block-extractor.test.ts:137-192 | the k-th block has id `String(k)` and comes from the k-th kept fence: its language lower-cased (python or mermaid) and its body trimmed at both ends, with no leading or trailing whitespace left |
| CodeBlockExtractor.ExtractedFenceGivesBlock | src/features/chat/lib/code-block-extractor.test.ts:84-112 | every python or mermaid fence of the text is extracted, as the block numbered by its place among the kept fences |
| CodeBlockExtractor.KeptFenceGivesBlock | src/features/chat/lib/code-block-extractor.test.ts:84-112 | a match with a kept language is found among the kept matches, and the block at that place is built from it |
| CodeBlockExtractor.ExtractedInTextOrder | src/features/chat/lib/code-block-extractor.test.ts:45-82 | blocks come in the order of their fences in the text: the fence of an earlier block ends before the fence of a later one starts |
| CodeBlockExtractor.ExtractedIdsDistinct | src/features/chat/lib/code-block-extractor.test.ts:45-82 | no two blocks share an id |
| CodeBlockExtractor.NoFenceNoMatches | src/features/chat/lib/code-block-extractor.test.ts:131-135 | text without a fence mark from the offset on gives no match |
| CodeBlockExtractor.NoFenceNoBlocks | src/features/chat/lib/code-block-extractor.test.ts:126-135 | empty text, or text without any fence, has no code blocks |
| CodeBlockExtractor.FenceWithoutLanguageIgnored | src/features/chat/lib/code-block-extractor.test.ts:114-124 | a fence mark not followed by a word character starts no match |
| FetchMessages.ToMessage | src/features/chat/state/messages/thunks/fetchMessages.ts:29-41 | a row becomes a message with the same id, content, reasoning and metadata; its role is cast; its timestamp goes from seconds to milliseconds; code blocks are extracted and absent when there are none; the tool-call id is not carried over |
| FetchMessages.FetchedMessages | src/features/chat/state/messages/thunks/fetchMessages.ts:27-43 | the payload names the chat and holds one message per row, in row order |
| FetchMessages.FetchedIdsUnique | src/features/chat/state/messages/thunks/fetchMessages.ts:29-42 | distinct row ids give distinct message ids |
| FetchMessages.PlainTextHasNoCodeBlocks | src/features/chat/state/messages/thunks/fetchMessages.ts:31-38 | a row without a fence gives a message without code blocks |
| HeadersEditor.Entries | src/ui/organisms/settings/HeadersEditor.tsx:21 | `Object.entries` of a parsed value: an object's own fields in order, an array's index-keyed elements, a string's index-keyed characters (one per character, see "## Left out"), and no entry for a number, a boolean or `null` (where it throws and the caller's catch gives no rows) |
| HeadersEditor.ParseHeaders | src/ui/organisms/settings/HeadersEditor.tsx:18-29 | text that does not parse gives no rows; otherwise there is one row per entry, in order, whose key is the entry's key and whose value is `String()` of the entry's value |
| HeadersEditor.IsValid | src/ui/organisms/settings/HeadersEditor.tsx:38-40 | a row is valid when its key and its value are both non-blank (see `IsValidIffTrimmedNonEmpty`) |
| HeadersEditor.IsValidIffTrimmedNonEmpty | src/ui/organisms/settings/HeadersEditor.tsx:38-40 | a row is kept exactly when both its key and its value are non-blank after trimming |
| HeadersEditor.ValidRows | src/ui/organisms/settings/HeadersEditor.tsx:38-40 | the kept rows are all valid, and none is kept exactly when no row is valid |
| HeadersEditor.Get | src/ui/organisms/settings/HeadersEditor.tsx:42-48 | reading a key of the object built so far: the value stored under it, or nothing exactly when no entry has it |
| HeadersEditor.Assign | src/ui/organisms/settings/HeadersEditor.tsx:44 | `acc[key] = value`: every entry is the new one or an old one, and a new key goes last |
| HeadersEditor.GetAssign | src/ui/organisms/settings/HeadersEditor.tsx:44 | after the assignment the key reads the new value and every other key reads as before |
| HeadersEditor.AssignKeepsUniqueKeys | src/ui/organisms/settings/HeadersEditor.tsx:44 | an assignment never makes a key appear twice |
| HeadersEditor.Collect | src/ui/organisms/settings/HeadersEditor.tsx:42-48 | the `reduce` assigning each valid row's trimmed key its trimmed value (see `CollectGet`, `CollectUniqueKeys`, `CollectTrimmed`) |
| HeadersEditor.CollectGet | src/ui/organisms/settings/HeadersEditor.tsx:42-48 | a key of the built object reads the value of the last row with that trimmed key |
| HeadersEditor.CollectUniqueKeys | src/ui/organisms/settings/HeadersEditor.tsx:42-48 | the built object never holds a key twice |
| HeadersEditor.CollectTrimmed | src/ui/organisms/settings/HeadersEditor.tsx:42-48 | every key and value built from valid rows is trimmed |
| HeadersEditor.Output | src/ui/organisms/settings/HeadersEditor.tsx:41-52 | `onChange` receives `undefined` exactly when no row is valid |
| HeadersEditor.OutputContents | src/ui/organisms/settings/HeadersEditor.tsx:38-49 | the reported object holds the trimmed keys of the valid rows, each once, with the last such row's trimmed value |
| HeadersEditor.InvalidRowChangesNothing | src/ui/organisms/settings/HeadersEditor.tsx:38-52 | a row blank in key or value does not change what is reported |
| HeadersEditor.AsJson | src/ui/organisms/settings/HeadersEditor.tsx:49 | `JSON.parse` of the `JSON.stringify` of the reported object is an object with the same keys, in order, holding the same strings |
| HeadersEditor.AsRows | src/ui/organisms/settings/HeadersEditor.tsx:21-24 | an object of strings opens as one row per entry, in order |
| HeadersEditor.CollectOfOwnRows | src/ui/organisms/settings/HeadersEditor.tsx:42-48 | building the object from the rows of an object of trimmed, non-blank, distinct keys and values gives that object back |
| HeadersEditor.ReopenRoundTrip | src/ui/organisms/settings/HeadersEditor.tsx:18-52 | re-opening the editor on what it reported shows one row per key, all valid, and reporting those rows again gives the same object |
| HeadersEditor.ValidRowsOfValid | src/ui/organisms/settings/HeadersEditor.tsx:38-40 | the filter keeps a list of valid rows whole |
| HeadersEditor.RemoveAt | src/ui/organisms/settings/HeadersEditor.tsx:60 | the row at the index goes and the others keep their order; an index outside the list removes nothing |
| HeadersEditor.RowsOf | src/ui/organisms/settings/HeadersEditor.tsx:65-72 | the rows the row objects currently hold, one per object, in order |
| HeadersEditor.HeaderRow.constructor | src/ui/organisms/settings/HeadersEditor.tsx:21-24 | a row object holds the key and value it was made with |
| HeadersEditor.Editor.constructor | src/ui/organisms/settings/HeadersEditor.tsx:33 | mounting shows the rows parsed from the `value` prop, as fresh row objects |
| HeadersEditor.NewRows | src/ui/organisms/settings/HeadersEditor.tsx:33 | the parsed rows become row objects, one per row, holding exactly those keys and values in order, no two of them the same object |
| HeadersEditor.Editor.Add | src/ui/organisms/settings/HeadersEditor.tsx:55-57 | one blank row is appended, and what is reported is what was reported before |
| HeadersEditor.Editor.Remove | src/ui/organisms/settings/HeadersEditor.tsx:59-62 | only the row at the index goes, and the new rows' output is reported |
| HeadersEditor.Editor.EditKey | src/ui/organisms/settings/HeadersEditor.tsx:64-68 | the row object at the index gets the new key, in place; every other row is unchanged and the new output is reported |
| HeadersEditor.Editor.EditValue | src/ui/organisms/settings/HeadersEditor.tsx:70-74 | the row object at the index gets the new value, in place; every other row is unchanged and the new output is reported |
| JsObjects.Lookup | src/lib/logger.ts:69 | reading a property gives nothing exactly when the object lacks the key |
| JsObjects.Replace | src/lib/logger.ts:70 | overwriting a present property keeps every key and the order, changes that key's value and nothing else |
| JsObjects.LookupReplace | src/lib/logger.ts:69-70 | after an overwrite the key reads the new value when it was present, and every other key reads as before |
| JsObjects.LookupAppend | src/lib/logger.ts:50 | a property appended under a new key reads its value, and every old key reads as before |
| JsObjects.LookupAssign | src/lib/logger.ts:50 | a property just assigned reads the assigned value, and every other property reads as before |
| JsObjects.Merge | src/lib/logger.ts:50 | `{ ...obj, ...patch }`: the patch's properties assigned in order onto a copy (see `LookupMerge`) |
| JsObjects.LookupMerge | src/lib/logger.ts:49-51 | after `{ ...obj, ...patch }` a key reads the patch's value when the patch has it, and the object's otherwise |
| JsObjects.IndexFields | src/lib/logger.ts:67 | an array spread into an object has its indices, as strings, as keys |
| JsObjects.Spread | src/lib/logger.ts:67 | spreading an object copies its fields; spreading an array gives its index-keyed elements |
| JsObjects.Redact | src/lib/logger.ts:62-76 | redaction keeps every key, in order; every listed property reads "[REDACTED]" and every other is unchanged |
| JsObjects.RedactKeepsKeys | src/lib/logger.ts:68-72 | a property is present after redaction exactly when it was before |
| JsObjects.RedactIdempotent | src/lib/logger.ts:62-76 | redacting twice is redacting once, and no listed property keeps its value |
| JsObjects.RedactLookup | src/lib/logger.ts:69-70 | a listed property that is present reads "[REDACTED]" |
| JsObjects.RedactLookupOther | src/lib/logger.ts:68-72 | a property not listed reads the same after redaction |
| JsObjects.RedactCopy | src/lib/logger.ts:67-73 | the loop over the sensitive keys, overwriting each present one on the copy, yields the redaction `Redact` |
| LlmConnections.FromDb | src/features/llm/state/slice.test.ts:292-387 | a row keeps its id, name, url, key, default model and enabled flag; a provider outside the known ones becomes "openai"; the models are the parse of `models_json`, absent when it is NULL or does not parse |
| LlmConnections.ProviderIsKnown | src/features/llm/state/slice.test.ts:360-387 | a converted connection always has a known provider |
| LlmConnections.FromDbAll | src/features/llm/state/slice.test.ts:72-104 | one connection per row, in order |
| LlmConnections.Merge | src/features/llm/state/slice.test.ts:206-236 | the fields an update gives override and the others are kept; the id never changes |
| LlmConnections.MergeIdempotent | src/features/llm/state/slice.test.ts:206-236 | applying the same update twice is applying it once |
| LlmConnections.RenameAndDisable | src/features/llm/state/slice.test.ts:206-236 | renaming and disabling a connection sets its name and clears its enabled flag, and keeps its url, key and provider |
| LlmConnections.UnknownIdChangesNothing | src/features/llm/state/slice.test.ts:237-250 | an update for an unknown id changes nothing, and removing an unknown id removes nothing |
| LlmConnections.RemoveKeepsOthers | src/features/llm/state/slice.test.ts:254-288 | removing an id drops every connection with it and keeps every other one, in order |
| LlmConnections.LlmConnectionsSlice.constructor | src/features/llm/state/slice.test.ts:35-39 | the slice starts with no connection, not loading, with no error |
| LlmConnections.LlmConnectionsSlice.SetConnections | src/features/llm/state/slice.test.ts:41-60 | the list is replaced, and nothing else changes |
| LlmConnections.LlmConnectionsSlice.LoadPending | src/features/llm/state/slice.test.ts:64-70 | loading starts and the error is cleared; the list is kept |
| LlmConnections.LlmConnectionsSlice.LoadFulfilled | src/features/llm/state/slice.test.ts:72-104 | loading stops and the list becomes the converted rows |
| LlmConnections.LlmConnectionsSlice.LoadRejected | src/features/llm/state/slice.test.ts:106-115 | loading stops, the list is kept, and the error is the rejection's message, or the fallback text when it has none |
| LlmConnections.LlmConnectionsSlice.AddFulfilled | src/features/llm/state/slice.test.ts:152-202 | the new connection, with the id chosen for it, is appended |
| LlmConnections.LlmConnectionsSlice.UpdateFulfilled | src/features/llm/state/slice.test.ts:206-250 | the first connection with the id gets the update's fields; an unknown id changes nothing |
| LlmConnections.LlmConnectionsSlice.RemoveFulfilled | src/features/llm/state/slice.test.ts:254-288 | every connection with the id is removed |
| Logger.Rank | src/lib/logger.ts:4-10 | the levels are numbered 0 to 4, TRACE lowest and ERROR highest |
| Logger.LevelName | src/lib/logger.ts:134 | the name an entry carries is the enum's name of its level |
| Logger.LevelNameInjective | src/lib/logger.ts:134 | distinct levels have distinct names, so an entry's name tells its level |
| Logger.DefaultThreshold | src/lib/logger.ts:23-25 | the threshold starts at DEBUG in development and at INFO otherwise |
| Logger.ShouldLog | src/lib/logger.ts:57-59 | `shouldLog`: a level at or above the threshold (see `ShouldLogOrder`) |
| Logger.ShouldLogOrder | src/lib/logger.ts:57-59 | the filter is monotone in the level; ERROR always passes; TRACE passes only a TRACE threshold |
| Logger.Sanitized | src/lib/logger.ts:62-76 | an object or array becomes a redacted copy of its spread, arrays becoming index-keyed objects; any other value, `null` included, is returned as it is |
| Logger.Sanitize | src/lib/logger.ts:62-76 | the copy-then-redact procedure returns `Sanitized` of its input |
| Logger.SanitizedObject | src/lib/logger.ts:64-72 | a sanitized object shows "[REDACTED]" for every sensitive property it has and keeps every other property's value |
| Logger.SanitizeIdempotent | src/lib/logger.ts:62-76 | sanitizing twice is sanitizing once |
| Logger.ArrayBecomesObject | src/lib/logger.ts:65-67 | an array handed to `sanitize` comes back as an object keyed by its indices |
| Logger.EntryData | src/lib/logger.ts:137 | an entry's data is the sanitized data when it is truthy, and `undefined` otherwise |
| Logger.ShouldPersist | src/lib/logger.ts:81-83 | in production TRACE and DEBUG entries are not buffered; in development every entry is |
| Logger.ProductionDropsVerbose | src/lib/logger.ts:23-25 | with the production threshold TRACE and DEBUG are filtered out, and would not be persisted either |
| Logger.Log.constructor | src/lib/logger.ts:20-40 | the logger starts with the default threshold, an empty context, an empty buffer and no timer |
| Logger.Log.SetContext | src/lib/logger.ts:49-51 | the context becomes the old one spread-merged with the patch; nothing else changes |
| Logger.Log.ClearContext | src/lib/logger.ts:53-55 | the context becomes empty; nothing else changes |
| Logger.Log.Write | src/lib/logger.ts:79-102 | a filtered-out or not-persisted entry changes nothing; otherwise the entry (its data sanitized, the current context attached) is buffered, and either a full batch of ten is handed over and the buffer emptied, or the flush timer is re-armed five seconds on; the buffer stays below a batch and holds no TRACE or DEBUG entry in production |
| Logger.Log.Flush | src/lib/logger.ts:104-120 | the whole buffer is handed over and the buffer emptied, an empty buffer sending nothing |
| Logger.Log.TimerFires | src/lib/logger.ts:97-100 | the timer's flush hands the buffer over and empties it, and no timer is pending |
| Logger.Log.FlushLogs | src/lib/logger.ts:123-125 | a manual flush hands the buffer over and empties it |
| McpConnections.NonEmpty | src/features/mcp/state/slice.ts:52-60 | `s \|\| undefined` keeps a non-empty text and turns the empty text into `undefined` |
| McpConnections.FromDb | src/features/mcp/state/slice.ts:34-61 | a row keeps its id, name, url, type and status; empty header, runtime-path and error texts become `undefined`; the tools are the parse of a non-empty `tools_json`, and absent for NULL or an empty text |
| McpConnections.InvalidToolsJson | src/features/mcp/state/slice.ts:38-45 | a `tools_json` that does not parse leaves the tools `undefined`, and the rest of the row converts as usual |
| McpConnections.FromDbAll | src/features/mcp/state/slice.ts:65-83 | a fetch or refresh converts every row, in order |
| McpConnections.Added | src/features/mcp/state/slice.ts:85-120 | the added connection keeps the given fields, has the time-based id, status "connecting", no tools and no error |
| McpConnections.CreatedRow | src/features/mcp/state/slice.ts:91-109 | the row written has the same time-based id and status "connecting" |
| McpConnections.ReloadAdded | src/features/mcp/state/slice.ts:85-120 | reloading a newly added connection from its row gives the connection the slice appended, when no header text or runtime path was given as the empty text |
| McpConnections.ReloadDropsEmptyHeaders | src/features/mcp/state/slice.ts:52 | a connection added with an empty header text holds "" in the slice but comes back from the database with no headers |
| McpConnections.ConnectErrorText | src/features/mcp/state/slice.ts:178-181 | the recorded error text is an `Error`'s message, even an empty one; for any other value it is that value's text (`AppErrors.ThrownText`), or the default text when the value is `null` or `undefined` or its text is empty, so a non-`Error` never leaves an empty text |
| McpConnections.ConnectResultOf | src/features/mcp/state/slice.ts:132-193 | only a listing whose "connected" status was saved connects, with its tools and no error; anything thrown disconnects with the thrown value's text, with no tools when the listing threw and with the listed tools when the status save threw after them |
| McpConnections.ApplyPatch | src/features/mcp/state/slice.ts:347-350 | `{ ...conn, ...updates }`: every key the patch holds overrides the connection's field and every other field is kept |
| McpConnections.EmptyPatchIsIdentity | src/features/mcp/state/slice.ts:347-350 | an empty patch changes nothing |
| McpConnections.PatchIdempotent | src/features/mcp/state/slice.ts:347-350 | applying the same patch twice is applying it once |
| McpConnections.NeedsReconnect | src/features/mcp/state/slice.ts:215-219 | a patch needs a reconnect when its url or type is non-empty, or it carries headers or a runtime path that is not `undefined` |
| McpConnections.UpdatesOf | src/features/mcp/state/slice.ts:214-232 | the updates are the patch forced to "connecting" when it needs a reconnect (a non-empty url or type, or any header or runtime-path key), and the patch itself otherwise |
| McpConnections.UpdateStatusRule | src/features/mcp/state/slice.ts:214-232 | a new url forces "connecting" whatever status the patch carried; a rename alone keeps the status and changes only the name; giving `headers: undefined` counts as a reconnect |
| McpConnections.MessageOr | src/features/mcp/state/slice.ts:282 | `message \|\| fallback`: a non-empty message, else the fallback |
| McpConnections.UnknownIdChangesNothing | src/features/mcp/state/slice.ts:305-372 | an id not in the list leaves every per-connection reducer without effect |
| McpConnections.OnlyMatchChanges | src/features/mcp/state/slice.ts:305-366 | a per-connection reducer changes no connection with another id, and with unique ids it changes exactly the one with the id |
| McpConnections.FailedConnectDisconnects | src/features/mcp/state/slice.ts:134-192 | a connect whose tool listing threw leaves the connection "disconnected", with no tools and the thrown text, its other fields unchanged |
| McpConnections.SaveFailureKeepsTools | src/features/mcp/state/slice.ts:149-192 | a connect whose "connected" status save threw after the listing leaves the connection "disconnected" yet holding the listed tools, beside the thrown text |
| McpConnections.McpConnectionsSlice.constructor | src/features/mcp/state/slice.ts:27-31 | the slice starts with no connection, not loading, with no error |
| McpConnections.McpConnectionsSlice.SetConnections | src/features/mcp/state/slice.ts:262-267 | the list is replaced |
| McpConnections.McpConnectionsSlice.LoadPending | src/features/mcp/state/slice.ts:272-275 | loading starts and the error is cleared |
| McpConnections.McpConnectionsSlice.LoadFulfilled | src/features/mcp/state/slice.ts:276-279 | loading stops and the list becomes the converted rows |
| McpConnections.McpConnectionsSlice.LoadRejected | src/features/mcp/state/slice.ts:280-297 | loading stops, the list is kept, and the error is the message or the fetch or refresh fallback text |
| McpConnections.McpConnectionsSlice.AddFulfilled | src/features/mcp/state/slice.ts:299-301 | exactly the added connection is appended |
| McpConnections.McpConnectionsSlice.ConnectPending | src/features/mcp/state/slice.ts:303-314 | the first connection with the id becomes "connecting" |
| McpConnections.McpConnectionsSlice.ConnectFulfilled | src/features/mcp/state/slice.ts:315-327 | the first connection with the id takes the connect result's status, tools and error text |
| McpConnections.McpConnectionsSlice.ConnectRejected | src/features/mcp/state/slice.ts:328-340 | the first connection with the id becomes "disconnected" with the error text, "Failed to connect" when there is none |
| McpConnections.McpConnectionsSlice.UpdateFulfilled | src/features/mcp/state/slice.ts:342-352 | the updates are spread over the first connection with the id |
| McpConnections.McpConnectionsSlice.DisconnectFulfilled | src/features/mcp/state/slice.ts:354-366 | the first connection with the id becomes "disconnected", with tools and error cleared |
| McpConnections.McpConnectionsSlice.RemoveFulfilled | src/features/mcp/state/slice.ts:368-372 | every connection with the id is removed |
| MentionParser.MentionRun | src/features/chat/ui/chat/utils/mentionUtils.test.ts:19-26 | the run of mention characters (ASCII letters, digits, `.` and `-`) at the start of a text, stopping at the first other character |
| MentionParser.Leading | src/features/chat/ui/chat/utils/mentionUtils.test.ts:5-17 | the leading mentions are non-empty runs of mention characters; a text that does not start with "@" and a mention character has none and is kept whole |
| MentionParser.ParseMessageMentions | src/features/chat/ui/chat/utils/mentionUtils.test.ts:5-136 | there are mentions exactly when the text starts with "@" and a mention character; without them the content is returned unchanged, and with them the cleaned content is the trimmed text after them |
| MentionParser.ParseNullable | src/features/chat/ui/chat/utils/mentionUtils.test.ts:138-147 | `null` and `undefined` pass through with no mention; a text is parsed as usual |
| MentionParser.LeadingOfCompose | src/features/chat/ui/chat/utils/mentionUtils.test.ts:12-26 | writing "@name " for each name in front of a text that starts with neither whitespace nor a mention gives those names back, in order, with the text as the rest |
| MentionParser.LeadingStep | src/features/chat/ui/chat/utils/mentionUtils.test.ts:12-17 | one "@name " in front of a text is one more leading mention, before the text's own |
| MentionParser.ComposeStart | src/features/chat/ui/chat/utils/mentionUtils.test.ts:12-17 | a composed text starts with a mention or with the text, never with whitespace |
| MentionParser.TrimStartOneSpace | src/features/chat/ui/chat/utils/mentionUtils.test.ts:56-61 | the space after a mention is dropped before the next one is read |
| MentionParser.PrefixRun | src/features/chat/ui/chat/utils/mentionUtils.test.ts:105-136 | a name followed by a character that is not a mention character is read whole and no further |
| MentionParser.ParseOfCompose | src/features/chat/ui/chat/utils/mentionUtils.test.ts:121-128 | round trip: parsing names composed in front of a text gives the names back, in order, and the trimmed text |
| MessageFile.Label | src/features/chat/ui/chat/MessageFile.tsx:36-90 | every kind has a non-empty label |
| MessageFile.SemicolonOnLine | src/features/chat/ui/chat/MessageFile.tsx:24 | the lazy `(.*?);` ends at the first `;` at or after the start, and only if no line terminator comes before it |
| MessageFile.DataMimeFrom | src/features/chat/ui/chat/MessageFile.tsx:24 | the text captured by the first `data:(.*?);` match holds no `;` and no line terminator |
| MessageFile.SemicolonAfter | src/features/chat/ui/chat/MessageFile.tsx:24 | after a text free of `;` and line breaks, the capture closes at the `;` that follows it |
| MessageFile.NoSemicolonNoMatch | src/features/chat/ui/chat/MessageFile.tsx:24-25 | a text without `;` has no `data:(.*?);` match |
| MessageFile.EffectiveMime | src/features/chat/ui/chat/MessageFile.tsx:22-26 | a non-empty supplied mime type is used as it is, and so is whatever was supplied for a source that is not a data URL; a data URL without a supplied type always gets one |
| MessageFile.DataUrlMime | src/features/chat/ui/chat/MessageFile.tsx:23-25 | the mime type of "data:" m ";" ... is m, when m holds no `;` and no line break |
| MessageFile.DataUrlWithoutSemicolon | src/features/chat/ui/chat/MessageFile.tsx:25 | a data URL without any `;` gets `application/octet-stream` |
| MessageFile.LastPieceShape | src/features/chat/ui/chat/MessageFile.tsx:29 | `split(c).pop()` is the part of the text after its last c, free of c, and the whole text when there is no c |
| MessageFile.Extension | src/features/chat/ui/chat/MessageFile.tsx:29 | the lower-cased last `.`-piece of the source (see `ExtensionShape`) |
| MessageFile.ExtensionShape | src/features/chat/ui/chat/MessageFile.tsx:29 | the extension is the lower-cased text after the last '.'; a path without '.' is its own extension |
| MessageFile.ExtensionIgnoresCase | src/features/chat/ui/chat/MessageFile.tsx:29-34 | upper-case extensions classify like lower-case ones: "photo.PNG" is an image |
| MessageFile.FirstNamed | src/features/chat/ui/chat/MessageFile.tsx:32-90 | the kind chosen is one of the list, or File when none is named |
| MessageFile.FileInfo | src/features/chat/ui/chat/MessageFile.tsx:20-91 | `getFileInfo`: the first kind, in the order Image, Video, Audio, PDF, Text, that the mime type or the extension names (see `FileInfoIsFirstNamed`) |
| MessageFile.FileInfoIsFirstNamed | src/features/chat/ui/chat/MessageFile.tsx:20-91 | the card's kind is the first one in the order Image, Video, Audio, PDF, Text that the mime type or the extension names, and File when none is |
| MessageFile.FirstNamedIff | src/features/chat/ui/chat/MessageFile.tsx:32-90 | a kind is chosen exactly when it is named and no kind before it in the order is |
| MessageFile.ImageMimeWins | src/features/chat/ui/chat/MessageFile.tsx:32-35 | a supplied, non-empty `image/` mime type makes an image, whatever the path |
| MessageFile.FileName | src/features/chat/ui/chat/MessageFile.tsx:93-102 | the name is never empty; a data URL is named "attachment" |
| MessageFile.FileNameOfPath | src/features/chat/ui/chat/MessageFile.tsx:99-101 | a path is named by what follows its last '/', or "file" when that is empty |
| MessageFile.FileNameOfJoinedPath | src/features/chat/ui/chat/MessageFile.tsx:99-101 | pieces joined with '/' name the file by the last, non-empty, piece |
| MessageFile.FileSize | src/features/chat/ui/chat/MessageFile.tsx:104-122 | a path's size is what `stat` reported, or `null` when it failed; a data URL has a size exactly when its second ','-separated piece is non-empty, and it is the piece's length in UTF-16 code units times 3 divided by 4, rounded down |
| MessageFile.Base64Size | src/features/chat/ui/chat/MessageFile.tsx:106-111 | a data URL with one ',' before a non-empty payload estimates three quarters of the payload's code units, which for base64 text is three quarters of its characters |
| MessageFile.AstralPayloadSize | src/features/chat/ui/chat/MessageFile.tsx:108-111 | a payload of n characters outside the Basic Multilingual Plane (emoji) counts 2n code units and estimates floor(6n / 4) bytes: two emoji give 3 |
| MessageFile.DataUrlWithoutPayload | src/features/chat/ui/chat/MessageFile.tsx:108-121 | a data URL with no ',' has no size |
| MessageFile.OpenButton.constructor | src/features/chat/ui/chat/MessageFile.tsx:126 | the button starts with no open in flight |
| MessageFile.OpenButton.Click | src/features/chat/ui/chat/MessageFile.tsx:135-143 | a click while an open is in flight does nothing; otherwise the open is marked in flight and `openPath` is called exactly for a local path (neither a data URL nor an http URL) |
| MessageFile.OpenButton.Settle | src/features/chat/ui/chat/MessageFile.tsx:145-149 | when the open settles, successfully or not, no open is in flight |
| MessageOrder.InsertByTimestamp | src/store/slices/messages/extraReducers.ts:112-114 | inserting a message into a list adds exactly that message: one longer, the same messages plus it |
| MessageOrder.InsertKeepsSorted | src/store/slices/messages/extraReducers.ts:112-114 | inserting into a timestamp-sorted list keeps it sorted |
| MessageOrder.SortByTimestamp | src/store/slices/messages/extraReducers.ts:112-114 | sorting by `a.timestamp - b.timestamp` rearranges the messages: same length, same messages |
| MessageOrder.SortIsSorted | src/store/slices/messages/extraReducers.ts:112-114 | the sorted list has ascending timestamps |
| MessageOrder.AtTime | src/store/slices/messages/extraReducers.ts:112-114 | the messages picked out for a timestamp all carry it |
| MessageOrder.AtTimeAppend | src/store/slices/messages/extraReducers.ts:112-114 | picking by timestamp distributes over concatenation |
| MessageOrder.AtTimeOfLater | src/store/slices/messages/extraReducers.ts:112-114 | a list whose messages are all later than a time has none at that time |
| MessageOrder.InsertAtTime | src/store/slices/messages/extraReducers.ts:112-114 | an insertion puts the message after every message with the same timestamp |
| MessageOrder.SortIsStable | src/store/slices/messages/extraReducers.ts:112-114 | the sort is stable: for every timestamp, the messages carrying it keep their relative order |
| MessageOrder.SortOfSorted | src/store/slices/messages/extraReducers.ts:112-114 | an already sorted list is left as it is |
| MessageOrder.InsertAfterAll | src/store/slices/messages/extraReducers.ts:112-114 | a message no earlier than every message of a list goes last |
| MessageOrder.UniqueIdsOccurOnce | src/store/slices/messages/extraReducers.ts:36-40 | in a list with unique ids, a message occurs at most once |
| MessageOrder.PermutationKeepsUniqueIds | src/store/slices/messages/extraReducers.ts:112-114 | a rearrangement of a list with unique ids has unique ids |
| MessageSorting.ToolCallsUnder | src/features/chat/ui/chat/utils/messageSorting.test.ts:36-72 | the messages picked as grouped are tool calls naming one of the given assistants, taken from the list |
| MessageSorting.Ungrouped | src/features/chat/ui/chat/utils/messageSorting.test.ts:114-136 | the messages left ungrouped are not tool calls of one of the given assistants, taken from the list |
| MessageSorting.UngroupedAppend | src/features/chat/ui/chat/utils/messageSorting.test.ts:114-136 | picking the ungrouped messages distributes over concatenation |
| MessageSorting.UngroupedOfToolCalls | src/features/chat/ui/chat/utils/messageSorting.test.ts:36-72 | a list of grouped tool calls leaves nothing ungrouped |
| MessageSorting.UngroupedOfNone | src/features/chat/ui/chat/utils/messageSorting.test.ts:143-171 | a list without grouped tool calls is ungrouped whole |
| MessageSorting.FiltersSplit | src/features/chat/ui/chat/utils/messageSorting.test.ts:260-283 | the grouped and ungrouped messages together hold every message exactly as often as the list does |
| MessageSorting.ToolCallsUnderUnion | src/features/chat/ui/chat/utils/messageSorting.test.ts:213-258 | the tool calls grouped under one more assistant are its own plus those already grouped |
| MessageSorting.ToolCallsUnderCount | src/features/chat/ui/chat/utils/messageSorting.test.ts:260-283 | a message is grouped as often as it occurs when it is a tool call of one of the assistants, and never otherwise |
| MessageSorting.ToolCallsUnderOfSorted | src/features/chat/ui/chat/utils/messageSorting.test.ts:173-211 | picking from a sorted list keeps the grouped tool calls sorted |
| MessageSorting.UngroupedOfSorted | src/features/chat/ui/chat/utils/messageSorting.test.ts:6-34 | picking from a sorted list keeps the ungrouped messages sorted |
| MessageSorting.ToolCallsOfNone | src/features/chat/ui/chat/utils/messageSorting.test.ts:143-171 | a list without tool calls naming an assistant has none of its tool calls |
| MessageSorting.SameMessagesSameAssistants | src/features/chat/ui/chat/utils/messageSorting.test.ts:213-258 | two lists with the same messages have the same assistants |
| MessageSorting.AssistantIdsOfCons | src/features/chat/ui/chat/utils/messageSorting.test.ts:213-258 | the assistants of a list are those of its head and of its tail |
| MessageSorting.ToolCallsUnderNothing | src/features/chat/ui/chat/utils/messageSorting.test.ts:114-136 | no tool call is grouped under no assistant |
| MessageSorting.LayoutMultiset | src/features/chat/ui/chat/utils/messageSorting.test.ts:260-283 | laying out a rest of the sorted list emits its messages plus the tool calls of its assistants, each as often as they occur |
| MessageSorting.SortMessages | src/features/chat/ui/chat/utils/messageSorting.test.ts:5-112 | `sortMessages`: the list sorted by timestamp, each assistant message followed by the tool calls that name it; its properties are the `SortMessages…` and `Layout…` lemmas |
| MessageSorting.SortMessagesIsPermutation | src/features/chat/ui/chat/utils/messageSorting.test.ts:260-283 | given unique ids, the output holds exactly the input messages: the same length, nothing lost or repeated, ids still unique |
| MessageSorting.SortMessagesKeepsEveryMessage | src/features/chat/ui/chat/utils/messageSorting.test.ts:285-328 | every input message, `role: 'tool'` results included, is in the output |
| MessageSorting.SliceOfAppend | src/features/chat/ui/chat/utils/messageSorting.test.ts:36-72 | a slice of a concatenation that lies in its second part is a slice of that part |
| MessageSorting.LayoutAssistantBlock | src/features/chat/ui/chat/utils/messageSorting.test.ts:36-112 | in a layout, an assistant message is directly followed by its tool calls |
| MessageSorting.AssistantFollowedByItsToolCalls | src/features/chat/ui/chat/utils/messageSorting.test.ts:36-112 | each assistant message is followed directly by all of its own tool calls, counted with multiplicity, in ascending timestamp order, and nothing else in between |
| MessageSorting.LayoutUngrouped | src/features/chat/ui/chat/utils/messageSorting.test.ts:114-136 | the ungrouped messages of a layout are those of the rest it lays out, in the same order |
| MessageSorting.UngroupedKeepTimestampOrder | src/features/chat/ui/chat/utils/messageSorting.test.ts:114-136 | messages not grouped under an assistant, tool calls without a known assistant included, appear in the output as in a plain timestamp sort, ties in input order |
| MessageSorting.WithoutToolCallsIsTimestampOrder | src/features/chat/ui/chat/utils/messageSorting.test.ts:143-171 | without grouped tool calls the output is the plain timestamp sort, in ascending order |
| MessageSorting.LayoutWithoutToolCalls | src/features/chat/ui/chat/utils/messageSorting.test.ts:143-171 | a layout over a list without grouped tool calls is the list itself |
| MessageSorting.SortMessagesOfEmpty | src/features/chat/ui/chat/utils/messageSorting.test.ts:138-141 | no messages sort to no messages |
| MessagesReducer.IndexOfId | src/store/slices/messages/extraReducers.ts:60-62 | `findIndex` by id gives the first position holding the id, and nothing exactly when no message has it |
| MessagesReducer.FirstWithId | src/store/slices/messages/extraReducers.ts:63-65 | `find` by id gives a message of the list with that id, and nothing exactly when no message has it |
| MessagesReducer.LastWithId | src/store/slices/messages/extraReducers.ts:38-44 | a `Map` built from the list gives a message of the list with that id, and nothing exactly when no message has it |
| MessagesReducer.LookupInUnique | src/store/slices/messages/extraReducers.ts:38-44 | in a list with unique ids, `find` and the `Map` agree: both give the message holding the id |
| MessagesReducer.MergeOne | src/store/slices/messages/extraReducers.ts:43-54 | a merged message is the fetched one except for its reasoning, which is the in-memory reasoning when that is truthy and the fetched reasoning otherwise |
| MessagesReducer.Merge | src/store/slices/messages/extraReducers.ts:43-54 | `mergedMessages` has one merged message per fetched message, position by position |
| MessagesReducer.StreamingSource | src/store/slices/messages/extraReducers.ts:58-67 | the in-memory streaming message exists exactly when the chat's streaming id is truthy and memory holds a message with it, and then it is that message |
| MessagesReducer.Patch | src/store/slices/messages/extraReducers.ts:58-96 | without an in-memory streaming message the merged list is left as it is |
| MessagesReducer.Resolve | src/store/slices/messages/extraReducers.ts:100-102 | `finalMessages` starts with one message per fetched message |
| MessagesReducer.AppendMissing | src/store/slices/messages/extraReducers.ts:106-110 | the list pushed onto keeps its messages in place at the front, and anything added comes from the messages scanned |
| MessagesReducer.AppendMissingConcat | src/store/slices/messages/extraReducers.ts:106-110 | pushing the missing messages of a concatenation is pushing those of each part in turn |
| MessagesReducer.AppendMissingPresent | src/store/slices/messages/extraReducers.ts:106-110 | messages whose ids are all present already are not pushed |
| MessagesReducer.PreSort | src/store/slices/messages/extraReducers.ts:43-110 | the merged, patched and completed list before the sort (see `ReconcileMembers`, `PatchedInReconcile`) |
| MessagesReducer.Reconcile | src/store/slices/messages/extraReducers.ts:24-115 | the stored list is a rearrangement of the merged, patched and completed list |
| MessagesReducer.PatchShape | src/store/slices/messages/extraReducers.ts:58-96 | the patched list holds the snapshot's ids in snapshot order, then possibly the streaming message |
| MessagesReducer.PreSortIsPatched | src/store/slices/messages/extraReducers.ts:100-110 | with unique snapshot ids, the `map` and `forEach` passes leave the patched list as it is |
| MessagesReducer.PatchedInReconcile | src/store/slices/messages/extraReducers.ts:100-114 | every message of the patched list is in the stored list |
| MessagesReducer.KeepsMemoryReasoning | src/store/slices/messages/extraReducers.ts:43-54 | a snapshot message other than the streaming one is stored as fetched, with the in-memory reasoning when that is truthy |
| MessagesReducer.StreamingKeepsMemoryText | src/store/slices/messages/extraReducers.ts:67-76 | when memory and snapshot both hold the streaming message, it takes content, reasoning and code blocks from memory and everything else from the snapshot |
| MessagesReducer.StreamingAppended | src/store/slices/messages/extraReducers.ts:77-94 | a streaming message that only memory holds is appended, without its metadata |
| MessagesReducer.ReconcileMembers | src/store/slices/messages/extraReducers.ts:24-115 | every snapshot id is in the stored list; anything else in it is the streaming message; ids stay unique; the list is one longer than the snapshot exactly when the streaming message was appended |
| MessagesReducer.ReconcileSortedStable | src/store/slices/messages/extraReducers.ts:112-114 | the stored list is sorted by timestamp, and messages with equal timestamps keep their merge order |
| MessagesReducer.MergeAgain | src/store/slices/messages/extraReducers.ts:43-54 | merging a snapshot against a rearrangement of a previous merge result gives each message the reasoning of that result when truthy |
| MessagesReducer.SecondPassUnpatched | src/store/slices/messages/extraReducers.ts:58-96 | when the first pass left the streaming message alone, so does the second |
| MessagesReducer.SecondPassPatched | src/store/slices/messages/extraReducers.ts:67-76 | when the first pass patched the snapshot's copy, the second patches it to the same value |
| MessagesReducer.SecondPassAppended | src/store/slices/messages/extraReducers.ts:77-94 | when the first pass appended the streaming message, the second appends the same copy |
| MessagesReducer.ReconcileIdempotent | src/store/slices/messages/extraReducers.ts:24-115 | applying the same snapshot twice, with the same streaming id, gives the list applying it once gives |
| MessagesReducer.MergeSnapshot | src/store/slices/messages/extraReducers.ts:36-54 | the loop over the snapshot with the lookup map computes `Merge` |
| MessagesReducer.PatchStreaming | src/store/slices/messages/extraReducers.ts:58-96 | the streaming guard computes `Patch`: the snapshot's copy patched in place, or the in-memory one pushed |
| MessagesReducer.ResolveSnapshot | src/store/slices/messages/extraReducers.ts:100-102 | the lookup of each fetched id in the merged list computes `Resolve` |
| MessagesReducer.PushMissing | src/store/slices/messages/extraReducers.ts:106-110 | the `forEach` pushing merged messages whose id is missing computes `AppendMissing` |
| MessagesReducer.StreamsOf | src/store/slices/messages/extraReducers.ts:137-146 | the chats the clean-up deletes are exactly those streaming under the target id |
| MessagesReducer.CleanupTargetAsWritten | src/store/slices/messages/extraReducers.ts:134-141 | as written, the loop compares with the id after a truthy id was cleared, so its target is `null` for every real stream |
| MessagesReducer.RejectedStreamSurvivesAsWritten | src/store/slices/messages/extraReducers.ts:134-146 | as written, a failed send streaming "msg-1" in "chat-1" leaves that chat's streaming entry in place |
| MessagesReducer.CleanupRemovesFailedStream | src/store/slices/messages/extraReducers.ts:137-146 | with the failed id as target, no chat streams under it afterwards, and every chat streaming something else keeps its entry |
| MessagesReducer.MessagesState.CurrentOf | src/store/slices/messages/extraReducers.ts:36-37 | a chat without a list reads as the empty list |
| MessagesReducer.MessagesState.StreamingIdOf | src/store/slices/messages/extraReducers.ts:58 | a chat's streaming id is present exactly when the chat has an entry |
| MessagesReducer.MessagesState.Pending | src/store/slices/messages/extraReducers.ts:20-23 | loading starts and the error is cleared; nothing else changes |
| MessagesReducer.MessagesState.FetchFulfilled | src/store/slices/messages/extraReducers.ts:24-115 | the chat's list becomes the reconciliation of its previous list with the snapshot and its streaming id; loading stops; nothing else changes |
| MessagesReducer.MessagesState.FetchRejected | src/store/slices/messages/extraReducers.ts:116-119 | loading stops and the error is the message or "Failed to fetch messages"; the lists are untouched |
| MessagesReducer.MessagesState.SendFulfilled | src/store/slices/messages/extraReducers.ts:125-128 | only loading changes |
| MessagesReducer.MessagesState.SendRejected | src/store/slices/messages/extraReducers.ts:129-146 | loading stops and the error is the message or "Failed to send message"; a truthy streaming id is cleared first, so the loop compares with the cleared id and, for a truthy id, no chat loses its streaming entry or paused flag (the code as written; the intended clean-up is under Findings) |
| PromptUtils.Placeholder | src/features/settings/lib/prompt-utils.ts:32 | the placeholder of a key is `{{`, the key, then `}}` |
| PromptUtils.PlaceholderAt | src/features/settings/lib/prompt-utils.ts:13 | a match of `{{(\w+)}}` found at a position lies inside the text, has a non-empty `\w+` name, and its placeholder is written there |
| PromptUtils.MatchesSound | src/features/settings/lib/prompt-utils.ts:13-15 | every name `matchAll` yields is a `\w+` name whose placeholder occurs in the content |
| PromptUtils.MatchAtOccurrence | src/features/settings/lib/prompt-utils.ts:13-15 | where `{{x}}` is written, the pattern matches at that position and captures `x` |
| PromptUtils.MatchEndsBefore | src/features/settings/lib/prompt-utils.ts:13-15 | a match starting before a written `{{x}}` ends before it, so the scan cannot skip it |
| PromptUtils.MatchesComplete | src/features/settings/lib/prompt-utils.ts:13-15 | every written `{{name}}` with a `\w+` name is among the names `matchAll` yields |
| PromptUtils.FirstIndex | src/features/settings/lib/prompt-utils.ts:16 | the first position of an element: it holds the element and no earlier one does |
| PromptUtils.Dedup | src/features/settings/lib/prompt-utils.ts:16 | `[...new Set(xs)]` has the same elements as `xs`, each once |
| PromptUtils.DedupOrder | src/features/settings/lib/prompt-utils.ts:16 | the elements come out in the order of their first occurrence |
| PromptUtils.ParsePromptVariables | src/features/settings/lib/prompt-utils.ts:12-17 | `parsePromptVariables`: no name twice, and exactly the names the left-to-right `{{\w+}}` scan finds |
| PromptUtils.ParseFindsExactly | src/features/settings/lib/prompt-utils.ts:12-17 | a name is parsed exactly when it is a `\w+` name written as `{{name}}` in the content; no name is parsed twice |
| PromptUtils.ParseInFirstOccurrenceOrder | src/features/settings/lib/prompt-utils.ts:12-17 | the parsed names are in the order in which they first match |
| PromptUtils.NestedBracesParse | src/features/settings/lib/prompt-utils.ts:13-16 | `{{{{a}}}}` parses to `["a"]` |
| PromptUtils.SinglePlaceholderParse | src/features/settings/lib/prompt-utils.ts:13-16 | `{{a}}` parses to `["a"]` |
| PromptUtils.Expand | src/features/settings/lib/prompt-utils.ts:33 | the replacement text `replace` inserts for one match: `$$`, `$&`, `` $` `` and `$'` expanded, everything else copied (see `ExpandWithoutDollar`) |
| PromptUtils.ExpandWithoutDollar | src/features/settings/lib/prompt-utils.ts:33 | a replacement value without `$` is inserted exactly as written |
| PromptUtils.ReplaceWithMatchIsIdentity | src/features/settings/lib/prompt-utils.ts:33 | the replacement `$&` puts every match back, so the replace changes nothing |
| PromptUtils.RenderPrompt | src/features/settings/lib/prompt-utils.ts:26-36 | the loop over the entries computes `Rendered`: one global replace per entry, in entry order |
| PromptUtils.ReplaceAll | src/features/settings/lib/prompt-utils.ts:32-33 | a global replace of a literal pattern, left to right without overlap (see `ReplaceAllAbsent`, `ReplaceEveryOccurrence`) |
| PromptUtils.ReplaceAllAbsent | src/features/settings/lib/prompt-utils.ts:32-33 | replacing a pattern that does not occur changes nothing |
| PromptUtils.ReplaceInPrefix | src/features/settings/lib/prompt-utils.ts:32-33 | the replace copies a prefix free of the pattern unchanged, then replaces the occurrence that follows |
| PromptUtils.ReplaceEveryOccurrence | src/features/settings/lib/prompt-utils.ts:32-33 | pieces without `{{key}}` joined by `{{key}}` become the same pieces joined by the value, when the value has no `$` |
| PromptUtils.RenderOneKey | src/features/settings/lib/prompt-utils.ts:26-36 | with one key, every placeholder of that key is filled with its value |
| PromptUtils.RenderWithoutPlaceholders | src/features/settings/lib/prompt-utils.test.ts:126-160 | content where no key's placeholder occurs is returned unchanged, whatever the entries (missing variables, no variables, content without placeholders) |
| PromptUtils.RenderEmpty | src/features/settings/lib/prompt-utils.test.ts:158-164 | empty content renders to empty content |
| PromptUtils.ExtraKeyHasNoEffect | src/features/settings/lib/prompt-utils.test.ts:134-140 | an entry whose placeholder is absent from the text has no effect |
| PromptUtils.NestedBracesRender | src/features/settings/lib/prompt-utils.ts:30-35 | rendering `{{{{a}}}}` with `a` set to `a` gives `{{a}}` |
| PromptUtils.PlaceholderCanSurvive | src/features/settings/lib/prompt-utils.ts:12-36 | a render can leave a placeholder that parsing finds, even when the value has no braces and no `$` |
| PromptUtils.SubstitutionFollowsEntryOrder | src/features/settings/lib/prompt-utils.ts:31-34 | entries apply in order: a value can introduce the placeholder of a later key, but not of an earlier one |
| SentryMiddleware.MatchesAny | src/store/sentryMiddleware.ts:74-82 | an action type matches a list when it contains one of its entries as a substring |
| SentryMiddleware.SanitizedPayload | src/store/sentryMiddleware.ts:43-67 | a falsy or non-object payload is returned as it is; any other is copied (an array becomes an index-keyed object) with every sensitive field redacted |
| SentryMiddleware.SanitizePayload | src/store/sentryMiddleware.ts:43-67 | the copy followed by the loop over the sensitive fields computes `SanitizedPayload` |
| SentryMiddleware.SanitizedPayloadFields | src/store/sentryMiddleware.ts:51-64 | a sensitive field present in the payload reads `[REDACTED]`; every other field keeps its value |
| SentryMiddleware.AuthorizationOnlyHere | src/store/sentryMiddleware.ts:51-58 | `authorization` is redacted here while the logger's sanitizing lets it through |
| SentryMiddleware.LevelFor | src/store/sentryMiddleware.ts:79-87 | the breadcrumb level is `error` exactly for error actions, `info` exactly for critical actions that are not error actions, `debug` otherwise |
| SentryMiddleware.Handle | src/store/sentryMiddleware.ts:72-126 | an ignored action is only passed on; any other leaves one breadcrumb with its type, level, redacted payload and time; it sets the tag exactly when critical, is captured exactly when an error action with a truthy payload, gets a slow-action breadcrumb exactly when `next` took over 100 ms; the result is always `next`'s |
| SentryMiddleware.ContainsEntry | src/store/sentryMiddleware.ts:74 | a type containing an entry of a list anywhere matches that list |
| SentryMiddleware.StreamingClassification | src/store/sentryMiddleware.ts:10-29 | a streaming chunk action is ignored; a longer type containing `messages/setStreamingError` is at error level |
| SlashCommand.Detect | src/hooks/useSlashCommand.test.ts:24-37 | the command menu is active exactly when the input starts with `/` and the menu was not closed; the query is the text after the `/` |
| SlashCommand.Filtered | src/hooks/useSlashCommand.test.ts:39-51 | an inactive menu lists nothing; an active one lists only prompts whose name matches the query |
| SlashCommand.LoneSlashListsAll | src/hooks/useSlashCommand.test.ts:29-37 | a lone `/` lists every prompt |
| SlashCommand.MatchingPromptListed | src/hooks/useSlashCommand.test.ts:39-51 | a prompt whose name contains the query, ignoring letter case, is listed |
| SlashCommand.EmptyInputInactive | src/hooks/useSlashCommand.test.ts:24-27 | empty input never opens the menu |
| SlashCommand.SlashMenu.constructor | src/hooks/useSlashCommand.test.ts:24-27 | the menu starts with no prompts and not closed |
| SlashCommand.SlashMenu.LoadPrompts | src/hooks/useSlashCommand.test.ts:29-37 | a successful prompt fetch replaces the prompts, a failed one keeps them; the closed flag is untouched |
| SlashCommand.SlashMenu.Close | src/hooks/useSlashCommand.test.ts:53-63 | right after `close()` the menu is inactive for the input it had (and, in the model, for any input: see "## Left out"); the prompts are kept |
| StreamRenderGate.NewlineCount | src/ui/markdown-content/MarkdownContent.tsx:52-53 | the number of `\n` code units is at most the number of units and is zero exactly when there is none |
| StreamRenderGate.Length | src/ui/markdown-content/MarkdownContent.tsx:30 | `.length` counts UTF-16 code units, never fewer than the characters |
| StreamRenderGate.Chunk | src/ui/markdown-content/MarkdownContent.tsx:52 | the new text is the code units after the committed length, none once that passes the end |
| StreamRenderGate.NewlineCountAppend | src/ui/markdown-content/MarkdownContent.tsx:52-57 | new-line counts of two pieces of text add up |
| StreamRenderGate.CommitThresholds | src/ui/markdown-content/MarkdownContent.tsx:52-57 | five new lines commit at once; exactly 500 new code units on fewer than five lines do not; more streamed text never takes a commit decision back |
| StreamRenderGate.AstralTextCommits | src/ui/markdown-content/MarkdownContent.tsx:45-57 | the length test counts code units: more than 250 emoji commit at once from an empty buffer |
| StreamRenderGate.StreamBuffer.Displayed | src/ui/markdown-content/MarkdownContent.tsx:78 | the buffer is shown while streaming, the whole content otherwise |
| StreamRenderGate.StreamBuffer.constructor | src/ui/markdown-content/MarkdownContent.tsx:29-31 | the buffer starts as the initial content and the committed length as its length in code units, with no timer |
| StreamRenderGate.StreamBuffer.StartEffect | src/ui/markdown-content/MarkdownContent.tsx:33-40 | when streaming starts the buffer takes the content as is and the committed length its code-unit length; otherwise nothing changes |
| StreamRenderGate.StreamBuffer.ContentEffect | src/ui/markdown-content/MarkdownContent.tsx:42-76 | nothing happens when not streaming or when the code-unit length did not change; otherwise the change commits at once past a threshold (counted in code units), or arms the 800 ms timer with the current content |
| StreamRenderGate.StreamBuffer.Render | src/ui/markdown-content/MarkdownContent.tsx:29-78 | a render without a changed prop runs no effect; otherwise the previous timer is cleared and the effects run in order, with the outcome of each case in code-unit lengths; for growing content the committed length never shrinks and the buffer stays a prefix of the content |
| StreamRenderGate.StreamBuffer.Fire | src/ui/markdown-content/MarkdownContent.tsx:59-71 | the timer commits the content it captured, with its code-unit length, and is gone; the buffer stays a prefix of growing content |
| ToolPermission.Lookup | src/features/tools/state/toolPermissionSlice.test.ts:34-42 | a stored request is one of the store's with that message id; nothing is found exactly when none is pending for it |
| ToolPermission.Put | src/features/tools/state/toolPermissionSlice.test.ts:34-94 | an add replaces the request of the same message id or adds one; the store then holds a request for that id |
| ToolPermission.Delete | src/features/tools/state/toolPermissionSlice.test.ts:96-121 | after a remove no request is pending for that id, and every remaining one was there before |
| ToolPermission.PutKeepsUniqueKeys | src/features/tools/state/toolPermissionSlice.test.ts:44-94 | an add keeps one request per message id |
| ToolPermission.DeleteKeepsUniqueKeys | src/features/tools/state/toolPermissionSlice.test.ts:96-121 | a remove keeps one request per message id |
| ToolPermission.PutThenLookup | src/features/tools/state/toolPermissionSlice.test.ts:70-94 | after an add the request is stored under its message id, replacing an earlier one |
| ToolPermission.PutOtherLookup | src/features/tools/state/toolPermissionSlice.test.ts:44-68 | an add leaves every other message id's request as it was |
| ToolPermission.DeleteOtherLookup | src/features/tools/state/toolPermissionSlice.test.ts:96-112 | a remove leaves every other message id's request as it was |
| ToolPermission.DeleteAbsent | src/features/tools/state/toolPermissionSlice.test.ts:114-121 | removing an id that is not stored changes nothing |
| ToolPermission.DeletePresent | src/features/tools/state/toolPermissionSlice.test.ts:96-112 | removing a stored id shortens the store by exactly one |
| ToolPermission.PermissionStore.constructor | src/features/tools/state/toolPermissionSlice.test.ts:28-32 | the store starts with no pending request |
| ToolPermission.PermissionStore.Add | src/features/tools/state/toolPermissionSlice.test.ts:34-94 | the store becomes the add of the request: it is found under its id, other ids read as before, the size grows by one unless the id was pending |
| ToolPermission.PermissionStore.Remove | src/features/tools/state/toolPermissionSlice.test.ts:96-121 | the store becomes the remove: nothing is found under the id, other ids read as before, an absent id changes nothing |
| ToolPermission.PermissionStore.ClearAll | src/features/tools/state/toolPermissionSlice.test.ts:123-139 | the store is emptied |
| WorkspaceSettings.StreamFlag | src/features/workspace/state/workspaceSettingsSlice.test.ts:103-138 | the integer stream flag reads 1 as on and 0 as off; `NULL` is not set |
| WorkspaceSettings.JsonColumn | src/features/workspace/state/workspaceSettingsSlice.test.ts:225-255 | a `NULL` JSON column, and one whose text does not parse, is `undefined`; otherwise it is the parsed value |
| WorkspaceSettings.FromDb | src/features/workspace/state/workspaceSettingsSlice.test.ts:103-154 | the row becomes a record with the row's workspace id and the caller's name; a `NULL` system message is the empty text, every other `NULL` is `undefined`; the stream flag and the JSON columns are converted |
| WorkspaceSettings.InvalidJsonGivesUndefined | src/features/workspace/state/workspaceSettingsSlice.test.ts:225-255 | a row whose JSON columns do not parse has no tool ids and no permission config, and keeps its id |
| WorkspaceSettings.NullRowDefaults | src/features/workspace/state/workspaceSettingsSlice.test.ts:140-154 | a row of `NULL`s converts to a record with only the id, the name and an empty system message |
| WorkspaceSettings.Merge | src/features/workspace/state/workspaceSettingsSlice.test.ts:54-91 | each field of the update overrides the record's, every field the update leaves out keeps its value; an empty update changes nothing |
| WorkspaceSettings.MergeIdempotent | src/features/workspace/state/workspaceSettingsSlice.test.ts:54-91 | applying the same update twice is applying it once |
| WorkspaceSettings.OtherWorkspacesIndependent | src/features/workspace/state/workspaceSettingsSlice.test.ts:307-340 | storing a record for one workspace leaves every other workspace's record, or its absence, as it was |
| WorkspaceSettings.WorkspaceSettingsSlice.constructor | src/features/workspace/state/workspaceSettingsSlice.test.ts:32-36 | no settings, not loading, no error |
| WorkspaceSettings.WorkspaceSettingsSlice.SetSettings | src/features/workspace/state/workspaceSettingsSlice.test.ts:38-52 | the record is stored under its workspace id and nothing else changes |
| WorkspaceSettings.WorkspaceSettingsSlice.UpdateSettings | src/features/workspace/state/workspaceSettingsSlice.test.ts:54-91 | an existing record gets the update merged in; an unknown workspace gets no record |
| WorkspaceSettings.WorkspaceSettingsSlice.FetchPending | src/features/workspace/state/workspaceSettingsSlice.test.ts:95-101 | loading starts and the error is cleared |
| WorkspaceSettings.WorkspaceSettingsSlice.FetchFulfilled | src/features/workspace/state/workspaceSettingsSlice.test.ts:103-154 | loading stops; a row is converted and stored under the requested workspace; a missing row stores nothing |
| WorkspaceSettings.WorkspaceSettingsSlice.FetchRejected | src/features/workspace/state/workspaceSettingsSlice.test.ts:156-165 | loading stops and the error is the failure's message, or the fallback text when it has none |
| WorkspaceSettings.WorkspaceSettingsSlice.SaveFulfilled | src/features/workspace/state/workspaceSettingsSlice.test.ts:258-305 | exactly the saved record is stored under the workspace |
| Workspaces.FromDbAll | src/features/workspace/state/workspacesSlice.test.ts:46-65 | one workspace per row, in order, with id, name and creation time copied |
| Workspaces.Ids | src/features/workspace/state/workspacesSlice.test.ts:46-79 | the ids of a list are exactly the ids its workspaces carry |
| Workspaces.CreateSelectsListed | src/features/workspace/state/workspacesSlice.test.ts:67-79 | after a create the selection names a listed workspace and every earlier workspace is still listed |
| Workspaces.FetchSelectsListed | src/features/workspace/state/workspacesSlice.test.ts:46-65 | a fetch whose stored id is among the rows selects a listed workspace |
| Workspaces.WorkspacesSlice.constructor | src/features/workspace/state/workspacesSlice.test.ts:20-25 | no workspaces, no selection, not loading, no error |
| Workspaces.WorkspacesSlice.SetSelectedWorkspace | src/features/workspace/state/workspacesSlice.test.ts:32-42 | the selection becomes the id, which is also written to the `lastWorkspaceId` setting; nothing else changes |
| Workspaces.WorkspacesSlice.FetchFulfilled | src/features/workspace/state/workspacesSlice.test.ts:46-65 | the rows replace the list and the stored last workspace id, when there is one, is selected |
| Workspaces.WorkspacesSlice.CreateFulfilled | src/features/workspace/state/workspacesSlice.test.ts:67-79 | the new workspace is appended and selected |
| AgentMention.QueryOf | src/hooks/useAgentMention.ts:73-94 | the query is the text after `@` up to the first space, and holds no space |
| AgentMention.Detect | src/hooks/useAgentMention.ts:73-94 | the mention menu is active exactly when it was not closed and the input has a valid `@` trigger; the query is then the text after `@`, and empty otherwise |
| AgentMention.ActiveQueryBlankIffEmpty | src/hooks/useAgentMention.ts:104-119 | an active query is blank exactly when it is empty |
| AgentMention.Filtered | src/hooks/useAgentMention.ts:104-119 | an inactive menu lists nothing; a blank query lists every agent; otherwise the agents matching the query, in order |
| AgentMention.LoneTriggerListsAll | src/hooks/useAgentMention.ts:104-119 | a lone `@` lists every agent |
| AgentMention.FilteredIff | src/hooks/useAgentMention.ts:104-119 | an agent that matches the query is listed, and every listed agent matches it |
| AgentMention.NextIndex | src/hooks/useAgentMention.ts:145-149 | ArrowDown moves to the next entry, stopping at the last one |
| AgentMention.PrevIndex | src/hooks/useAgentMention.ts:150-154 | ArrowUp moves to the previous entry, stopping at the first one |
| AgentMention.ArrowsKeepIndexInRange | src/hooks/useAgentMention.ts:145-154 | on a non-empty list the arrow keys keep a valid highlight valid |
| AgentMention.ArrowDownOnEmptyList | src/hooks/useAgentMention.ts:145-149 | on an empty list ArrowDown moves the highlight to -1, where Enter finds no agent |
| AgentMention.ClosedMenuIsInactive | src/hooks/useAgentMention.ts:50-94 | a closed menu is inactive and lists nothing, whatever the input |
| AgentMention.ClosedAfter | src/hooks/useAgentMention.ts:50-70 | the Escape flag after a run of input changes; a menu that is open never closes on an input change |
| AgentMention.ClosedUntilNewTrigger | src/hooks/useAgentMention.ts:50-70 | a closed menu stays closed through a run of inputs exactly when none of them is a valid trigger following an input without one (and different from it) |
| AgentMention.TriggerKeptStaysClosed | src/hooks/useAgentMention.ts:50-70 | while every input keeps a valid trigger (editing the query, retyping the same trigger) a closed menu stays closed; clearing the input and typing "@" reopens it |
| AgentMention.MentionMenu.constructor | src/hooks/useAgentMention.ts:24-28 | no agents, the first entry highlighted, not closed, no previous input |
| AgentMention.MentionMenu.LoadAgents | src/hooks/useAgentMention.ts:31-43 | a successful load replaces the agents, a failed one keeps them |
| AgentMention.MentionMenu.InputChanged | src/hooks/useAgentMention.ts:50-70 | a closed menu reopens exactly when the input changed from one without a valid trigger to one with it; the input is remembered |
| AgentMention.MentionMenu.ListLengthChanged | src/hooks/useAgentMention.ts:122-126 | a non-empty list highlights its first entry; an empty one keeps the highlight |
| AgentMention.MentionMenu.KeyDown | src/hooks/useAgentMention.ts:137-174 | an inactive menu handles no key; ArrowDown and ArrowUp move the highlight; Enter picks the highlighted agent exactly when the highlight is on the list; Escape closes; other keys are not handled |
| AgentMention.MentionMenu.Close | src/hooks/useAgentMention.ts:177-180 | the highlight returns to the top and the menu is closed |
| Notifications.ShowSuccess | src/features/notifications/state/notificationSlice.test.ts:57-64 | a success toast carries the given title and description; its duration and its absent category are assumed (see "## Left out") |
| Notifications.ShowError | src/features/notifications/state/notificationSlice.test.ts:57-73 | an error toast carries the given title, description, duration and category |
| Notifications.RemoveUndoesAdd | src/features/notifications/state/notificationSlice.test.ts:21-41 | removing a notification just added under a fresh id gives back the list before the add |
| Notifications.RemoveKeepsOthers | src/features/notifications/state/notificationSlice.test.ts:32-41 | after a remove no notification carries the id, and one with another id is still there |
| Notifications.NotificationList.constructor | src/features/notifications/state/notificationSlice.test.ts:15-19 | no notifications |
| Notifications.NotificationList.Add | src/features/notifications/state/notificationSlice.test.ts:21-30 | the notification is appended with its generated id |
| Notifications.NotificationList.Remove | src/features/notifications/state/notificationSlice.test.ts:32-41 | every notification with the id is dropped and the others keep their order |
| Notifications.NotificationList.Clear | src/features/notifications/state/notificationSlice.test.ts:43-55 | the list is emptied |
| ModelUtils.EnabledConnections | src/features/llm/lib/model-utils.test.ts:11-47 | only enabled connections of the input are returned |
| ModelUtils.EnabledConnectionKept | src/features/llm/lib/model-utils.test.ts:11-47 | every enabled connection is returned |
| ModelUtils.EnabledConnectionsExact | src/features/llm/lib/model-utils.test.ts:11-47 | two enabled connections are returned in their relative order |
| ModelUtils.NoneEnabledGivesEmpty | src/features/llm/lib/model-utils.test.ts:49-70 | with no enabled connection, none at all included, the result is empty |
| ModelUtils.IsVisionModel | src/features/llm/lib/model-utils.test.ts:73-205 | `isVisionModel`: a present, non-empty name whose lower-cased form contains a lower-cased pattern (see `NoNameNoVision`, `VisionCaseInsensitive`, `PatternInsideName`) |
| ModelUtils.NoNameNoVision | src/features/llm/lib/model-utils.test.ts:159-166 | a missing or empty model name is never a vision model |
| ModelUtils.VisionCaseInsensitive | src/features/llm/lib/model-utils.test.ts:168-172 | whether a name is a vision model does not depend on letter case |
| ModelUtils.PatternInsideName | src/features/llm/lib/model-utils.test.ts:181-205 | a name containing a listed pattern is a vision model: `llava` inside `bakllava` |

## Left out

- Backend and platform calls (`invokeCommand`, `invoke`, `localStorage`, the Tauri file-system, path and opener plugins, the Sentry SDK, the console): their results are parameters and their calls are output values, so their own behaviour is not modelled.
- Timers: `setTimeout` and `setInterval` are arm, cancel and fire events (the stream buffer, the logger's flush, the permission scan); real time passes only through the `now` parameters.
- Concurrency: an async handler is one atomic step. The race in which the one-second permission scan fires again before an answer to the same request has removed it is not modelled, and neither are overlapping `sendMessage` calls.
- MessagesReducer.MessagesState.SendRejected: the loop's `break` is not modelled. It matters only when the id was not truthy but the empty string "", and two chats stream under "": the source then deletes the first of them in key order, and the model deletes them all.
- MessagesReducer.MessagesState: the slice's initial state is declared in src/store/slices/messages/state.ts, which is not part of this model; the class starts from empty maps, no streaming id, not loading and no error.
- The rendering rule of the message list, which drops `role: 'tool'` messages (src/ui/organisms/chat/MessageList.tsx:279), is only noted: `sortMessages` keeps them and the list component is not part of this model.
- ModelUtils.IsVisionModel: the pattern list is a parameter constrained by `KnownPatterns` (non-empty, holding the families the tests name); the tests' negative examples (`gpt-4`, `gpt-3.5-turbo`, `claude-2`) depend on the full list, which is not part of this model, and are not stated.
- PromptUtils.PlaceholderCanSurvive: "when every parsed name gets a value free of `{{` and `$`, no parsed placeholder remains after rendering" does not hold in general (`{{{{a}}}}` with `a` set to `a` renders to `{{a}}`), so the model proves the counterexample and, for one key, that every placeholder is filled (`RenderOneKey`).
- PromptUtils.RenderPrompt: a key is matched as literal text; a key holding regular-expression metacharacters, which `new RegExp` would interpret, is not modelled.
- SlashCommand.Detect: the hook's implementation is not part of this model; activation, the query and case-insensitive name matching are what its tests fix.
- AgentMention.MentionMenu.LoadAgents: the loading flag, which nothing reads, is left out; a failed load keeps the agents, as the `catch` branch does.
- Notifications.NotificationList.Add: the generated id is a parameter.
- Notifications.ShowSuccess: the action creator (src/features/notifications/state/notificationSlice.ts) is not part of this model, and its test fixes only the type, title and description; that the `duration` argument is carried through and that a success toast has no category are assumed.
- Chats.ChatsSlice.FetchFulfilled: the stored `lastChatId` is selected without checking that it names a fetched chat, as the tests fix it; the fetch's pending and rejected cases are not fixed by the tests and are not modelled.
- WorkspaceSettings.WorkspaceSettingsSlice.SaveFulfilled: the save's pending and rejected cases are not fixed by the tests and are not modelled.
- WorkspaceSettings.StreamFlag: any non-zero flag other than 1 reads as on; the tests fix only 1, 0 and `NULL`.
- Logger: the build mode is one flag, production being "not development"; the console and Sentry calls inside `log` are left out; the flush timer is the time it fires; a failed backend write of a batch is ignored, as the source's `catch` does.
- SentryMiddleware.Handle: the slow-action breadcrumb's duration text (`toFixed(2)`) is left out; the duration is a parameter and `next` is its result.
- McpConnections: the connection transport, process launching and the connect thunk's parsing of tool schemas are left out; a status text from the database is taken as one of the known statuses without a check, as the source's cast does.
- FetchMessages.ToMessage: the row's `tool_call_id` has no field in the model's message, since the source's mapping does not carry it over.
- `formatFileSize`, `throttle` and `cn` of src/lib/utils.ts, and the canvas export and cache-file I/O of the mermaid helpers, are floating point, timing or I/O and are left out.
- HeadersEditor: the rows are objects edited in place; the React re-render that follows is not modelled.
- HeadersEditor.Entries: a parsed string gives one entry per character, where `Object.entries` gives one per UTF-16 code unit; a character outside the Basic Multilingual Plane (U+1D11E, say) gives one entry here and two in the source, each holding a lone surrogate, which is not a Dafny character.
- HeadersEditor.Assign: a new key goes last in the model, but JavaScript enumerates integer-like keys ("0", "2", any canonical array index) first, in ascending numeric order, and only then the other keys in insertion order. For a header named "2" the reported object's key order therefore differs from the source's; the entries themselves, and every lookup, are the same.
- JsObjects.AssignField: the same integer-like key order is not modelled for the other objects kept as pair lists (the logger context after `Merge`, spread payloads, the `pendingRequests` record of ToolPermission): their keys are in plain insertion order.
- JsValues.JsValue: numbers are integers; fractional and non-finite numbers (a header value 1.5, `NaN`, `Infinity`) are not modelled, and `ToJsString` renders integers only.
- Common.Lower: case folding is ASCII only (A to Z), where `toLowerCase` folds every Unicode letter (and can change the length, as for "İ"). It is exact for fence languages, which are runs of ASCII word characters, and differs for any other text holding a non-ASCII capital.
- AgentMention.Filtered: matching folds case with the ASCII-only `Lower`, so an agent named "Über" is not listed for the query "ü", while the source's `toLowerCase` lists it.
- AgentMention.FilteredIff: the if-and-only-if is over the ASCII-only `Lower`, not over `toLowerCase`.
- SlashCommand.SlashMenu.Close: no reopening rule is modelled. The hook's implementation (src/hooks/useSlashCommand.ts) is not part of this model, and its test fixes only that the menu is inactive right after `close()`, for the same input. In the model the menu stays closed for every later input; the hook may reopen it, as the agent-mention hook does on a new trigger.
- SlashCommand.Filtered: prompt names are matched with the ASCII-only `Lower`, so a non-ASCII capital in a name or query is not folded as `toLowerCase` would fold it.
- ModelUtils.IsVisionModel: the model name and patterns are compared with the ASCII-only `Lower`; `VisionCaseInsensitive` holds for the ASCII names the tests use.
- MessageFile.Extension: the extension is lower-cased with the ASCII-only `Lower`, so for an extension holding a non-ASCII capital ("ÉPS") the returned text differs from the source's ("éps" there, "Éps" here).

## Findings

| source | as written | input that shows it | evidently intended | confidence | as-written member | corrected member |
|---|---|---|---|---|---|---|
| src/features/chat/state/chatInputSlice.ts:55-62 | `resetChatInput` restores every default except `isLoading`, which keeps its value | a state with `isLoading` true (the state of src/features/chat/state/chatInputSlice.test.ts:39-52) stays loading after the reset, while that test expects the initial state | the reset also clears `isLoading`, giving exactly the initial state | not executed | ChatInput.ResetAsWritten | ChatInput.Reset |
| src/store/slices/messages/extraReducers.ts:134-146 | a truthy `streamingMessageId` is set to `null` before the loop, so the loop compares each chat's streaming id with `null` and never deletes an entry | `streamingMessageId` "msg-1" and `streamingByChatId` {"chat-1": "msg-1"}: after the rejection "chat-1" still streams "msg-1" and keeps its paused flag | the loop compares with the failed id, so the failed stream's chat entry and paused flag are deleted | not executed | MessagesReducer.CleanupTargetAsWritten | MessagesReducer.CleanupRemovesFailedStream |
