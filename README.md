# Chat client conversation state, modelled in Dafny

This project models the conversation state manager of a single-page chat client
that sends user prompts, images and PDFs to the Gemini generation API. It covers
five source files:

- the records of `src/types/chat.ts`;
- the entity factory and title deriver of `src/utils/chat-utils.ts`;
- the request shapes, reply extraction and error rules of `src/services/gemini-api.ts`;
- the chat context provider of `src/context/ChatContext.tsx`;
- the input guards and file dialog of `src/components/chat-input.tsx`.

Layout, one module per source file plus two helper modules:

- `wrappers.dfy` (`Wrappers`): `Option` and `Result`.
- `js_strings.dfy` (`JsStrings`): the JavaScript built-ins the code relies on (`startsWith`, `slice(0, n)`, `trim`), over strings of Unicode scalar values rather than UTF-16 code units (see "## Left out").
- `chat_types.dfy` (`ChatTypes`): `Role` is `User | Ai`, `FileKind` is `Image | Pdf`. `Message` is a plain message or a file message; a file message carries every plain field plus `fileType`, `fileName` and `fileUrl`. A `Chat`'s sequence holds both kinds.
- `chat_utils.dfy` (`ChatUtils`): the factory functions and `UpdateChatTitle`.
- `gemini_api.dfy` (`GeminiApi`): request bodies, the parsed response as an abstract datatype, `ExtractReply`, and the two call functions. The network is an oracle `server: (key, body) -> HttpOutcome`.
- `chat_state.dfy` (`ChatState`): the provider's four state cells as a `Snapshot`. Each operation is a function from the state before to the state after. This module also holds the list helpers (`findIndex`, `find`, `filter`, the upsert by id, the stable sort on load) and the lemmas about the operations.
- `chat_context.dfy` (`ChatContext`): class `ChatContextProvider`. Its fields are `chats`, `currentChat`, `apiKey` and `isLoading`, plus ghost fields for what local storage holds. Each method takes the source's steps on the fields and promises `State() == <Step>(old(State()), ...)`. Its invariant `Valid()` says three things: the current chat is one of the chats; storage holds the chats; and storage holds the key in use unless that key is the build-time one.
- `chat_input.dfy` (`ChatInput`): the file checks, the blank-input guard, the default file description, and class `ChatInput` with the component's state cells.

Parameters stand in for the id generator, the clock, `URL.createObjectURL` and the base64 payload of a file. Operations are sequential and atomic. A send's network step is a single answer from the oracle.

Behaviour kept as the code has it, including where a reader might expect otherwise:

- **Two chats on a first send.** With no current chat, a send runs `handleCreateNewChat` and then builds a second new chat that holds the message. The result is two new chats, `[withMessage, empty, ...old]`, and the one with the message is current (`ChatState.TurnWithoutCurrentChat`, `ChatState.HelloScenario`). A single new chat would be the natural reading.
- **Reselection after delete.** Deleting the current chat makes the first remaining chat in list order current. It does not pick the most recently updated one.
- **Startup choice.** On load, the current chat is the earliest of the chats with the greatest `updatedAt`, because the sort is stable.
- **Prompt sent with a file.** The dialog always passes a non-empty description: "Analyze this image" or "Analyze this PDF". So the provider's longer default prompts are never sent from the UI (`ChatInput.DialogSendPromptsWithDescription`).
- **Follow-up turns.** Only the latest message text is sent. Earlier turns of the conversation are not included.

## Model

| member | source | states |
|---|---|---|
| JsStrings.StartsWith | src/context/ChatContext.tsx:193 | `startsWith` holds exactly when the prefix fits and agrees with the string at each of its positions |
| JsStrings.SliceTo | src/utils/chat-utils.ts:41 | `slice(0, n)` is a prefix of the string, of length `n` or the whole string when shorter |
| JsStrings.TrimEndsAreNotWhitespace | src/components/chat-input.tsx:22 | `trim()` yields the empty string, or a string whose first and last characters are not whitespace |
| JsStrings.TrimEmptyIffAllWhitespace | src/components/chat-input.tsx:22 | `trim()` yields the empty string exactly when every character is whitespace |
| ChatUtils.CreateMessage | src/utils/chat-utils.ts:4-11 | a plain message with the given id, content, role and timestamp stored verbatim |
| ChatUtils.UploadCaption | src/utils/chat-utils.ts:17 | the default caption "Uploaded {kind}: {name}" ends with the file name |
| ChatUtils.CreateFileMessage | src/utils/chat-utils.ts:13-24 | always a user file message with the given kind, name and URL; the content is the given one when non-empty, otherwise the upload caption; the content is never empty |
| ChatUtils.CreateNewChat | src/utils/chat-utils.ts:26-34 | title "New Chat", no messages, created and updated at the given time |
| ChatUtils.FirstUserIndex | src/utils/chat-utils.ts:39 | None exactly when no message is from the user; otherwise the index of a user message with no user message before it |
| ChatUtils.TitleFromContent | src/utils/chat-utils.ts:41 | content of at most 30 characters is kept whole; longer content becomes its first 30 characters plus "..."; at most 33 characters |
| ChatUtils.UpdateChatTitle | src/utils/chat-utils.ts:36-49 | only the title can change; a chat not titled "New Chat", or with no user message, is returned unchanged; otherwise the title comes from the first user message |
| ChatUtils.UpdateChatTitleIdempotent | src/utils/chat-utils.ts:36-49 | deriving the title twice equals deriving it once |
| ChatUtils.DerivedTitleShape | src/utils/chat-utils.ts:39-41 | a derived title has at most 33 characters and agrees with the first user message's first 30 characters, with "..." exactly when it was cut |
| GeminiApi.IsOk | src/services/gemini-api.ts:34 | `response.ok` holds exactly for the 2xx status class |
| GeminiApi.TextRequest | src/services/gemini-api.ts:25-31 | one content holding exactly one text part with the prompt |
| GeminiApi.FileRequest | src/services/gemini-api.ts:65-79 | one content holding exactly two parts in order: the prompt text, then the inline data with MIME type and payload |
| GeminiApi.FileRequestExtendsTextRequest | src/services/gemini-api.ts:65-79 | the file request's parts are the text request's parts followed by the inline data part |
| GeminiApi.ExtractReply | src/services/gemini-api.ts:39-45 | missing candidates, content or parts, or an empty parts list, give "No response received from API"; an empty or missing first text gives "Empty response received"; otherwise that text verbatim; never empty |
| GeminiApi.ExtractReplyBody | src/services/gemini-api.ts:41-42 | a one-candidate, one-part response with non-empty text yields exactly that text |
| GeminiApi.Answer | src/services/gemini-api.ts:34-45 | a transport failure or a non-ok status (carried in the error) yields an error and no reply; an ok status yields the extracted reply |
| GeminiApi.CallGeminiApi | src/services/gemini-api.ts:13-46 | an empty key fails with ApiKeyRequired before any request; otherwise the answer to the text request |
| GeminiApi.CallGeminiApiWithFile | src/services/gemini-api.ts:48-103 | an empty key fails with ApiKeyRequired before any request; otherwise the answer to the file request |
| GeminiApi.NonOkStatusIsError | src/services/gemini-api.ts:34-36 | a non-2xx status from the server makes the call fail with that status |
| GeminiApi.GetEnvApiKey | src/services/gemini-api.ts:6-11 | the configured build-time key when non-empty, else "" |
| GeminiApi.GenerateChatTitle | src/services/gemini-api.ts:105-107 | equals the content when at most 30 characters, else its first 30 characters plus "..." |
| ChatState.TitleRulesAgree | src/services/gemini-api.ts:105-107 | the exported title rule and the rule inside `updateChatTitle` give the same string |
| ChatState.FindChatIndex | src/context/ChatContext.tsx:128 | None exactly when no chat has the id; otherwise the first index holding it |
| ChatState.FindChat | src/context/ChatContext.tsx:76 | None exactly when no chat has the id; otherwise the chat with that id that comes first in the list |
| ChatState.RemoveChat | src/context/ChatContext.tsx:83 | keeps exactly the chats whose id differs; removes nothing when the id is absent |
| ChatState.RemoveChatAppend | src/context/ChatContext.tsx:83 | the filter distributes over concatenation, so the remaining chats keep their order |
| ChatState.Upsert | src/context/ChatContext.tsx:127-135 | a present id is replaced at its first index with the length unchanged and every other chat kept; an absent one is prepended |
| ChatState.UpsertIds | src/context/ChatContext.tsx:127-135 | the ids after an upsert are the old ids plus the chat's id, and distinct ids stay distinct |
| ChatState.MostRecentIndex | src/context/ChatContext.tsx:42-43 | an index of a chat with maximal `updatedAt`, with every earlier chat strictly older (first after the stable descending sort) |
| ChatState.MostRecentIndexUnique | src/context/ChatContext.tsx:42-43 | those two properties determine the chosen index |
| ChatState.AppendMessage | src/context/ChatContext.tsx:114-117 | the message is added at the end and `updatedAt` set; id, title and creation time unchanged |
| ChatState.ResolveApiKey | src/context/ChatContext.tsx:50-53 | the build-time key wins when non-empty; otherwise a non-empty stored key; otherwise "" |
| ChatState.ShouldPersistApiKey | src/context/ChatContext.tsx:64 | a key is not saved exactly when it is the non-empty build-time key |
| ChatState.LoadStep | src/context/ChatContext.tsx:31-54 | stored chats are loaded (none when absent or unparsable); the current chat is none exactly when there are no chats, else one with maximal `updatedAt` that sits at an index where every earlier chat is strictly older, so ties go to the earliest in list order; the key is resolved; not loading |
| ChatState.CreateChatStep | src/context/ChatContext.tsx:69-73 | the new empty chat is first and current; the earlier chats follow in order |
| ChatState.SelectStep | src/context/ChatContext.tsx:75-80 | chats never change; a known id makes the first chat with that id (at the index `findIndex` gives) current; an unknown id changes nothing |
| ChatState.DeleteStep | src/context/ChatContext.tsx:82-89 | the chats are the filtered list; deleting the current chat makes the first remaining chat current, or none; otherwise the current chat stays |
| ChatState.ClearStep | src/context/ChatContext.tsx:91-94 | no chats and no current chat; key and loading flag unchanged |
| ChatState.SetApiKeyStep | src/context/ChatContext.tsx:26 | only the key changes |
| ChatState.OperationsKeepCurrentInChats | src/context/ChatContext.tsx:69-94 | create, select, delete, clear and key changes keep the current chat among the chats |
| ChatState.TurnStep | src/context/ChatContext.tsx:106-174 | after a send the current chat is in the list and not loading; a failure leaves the target chat plus the user message; a reply adds the user message and the "ai" reply message and passes the chat through `UpdateChatTitle` |
| ChatState.OptimisticChat | src/context/ChatContext.tsx:114-123 | the chat of the optimistic update is the open chat, or a new chat with the message id, with the user message appended and `updatedAt` set to the send time |
| ChatState.ReplyChat | src/context/ChatContext.tsx:142-152 | the reply chat keeps the id and creation time, has exactly the "ai" reply message appended, is updated at the reply time, and keeps any title other than "New Chat"; a "New Chat" title becomes the title rule applied to the first user message (the user message just sent, when the chat had none) |
| ChatState.ConfirmStep | src/context/ChatContext.tsx:141-163 | a failed call leaves the state as the optimistic update left it; a reply makes the reply chat current and puts it in the list, whose ids gain only that chat's id; key and loading flag unchanged |
| ChatState.SendMessageStep | src/context/ChatContext.tsx:96-175 | with an empty key the state is unchanged; with a key the send ends not loading, with a current chat that is in the list |
| ChatState.FileKindOf | src/context/ChatContext.tsx:193 | the kind is image exactly when the MIME type starts with "image/", else pdf |
| ChatState.FilePrompt | src/context/ChatContext.tsx:232-234 | the description when non-empty, else the kind-specific default prompt; never empty |
| ChatState.FileMessageFor | src/context/ChatContext.tsx:192-196 | a user file message with the file's name and kind; its content is the description or the upload caption |
| ChatState.SendFileMessageStep | src/context/ChatContext.tsx:177-272 | with an empty key the state is unchanged; with a key the file send ends not loading, with a current chat that is in the list |
| ChatState.TurnWithoutCurrentChat | src/context/ChatContext.tsx:106-135 | with no current chat and fresh ids, the list becomes [chat with the message, empty new chat, ...old] and the first is current |
| ChatState.TurnOnCurrentChat | src/context/ChatContext.tsx:127-163 | a send to an open chat whose id sits at index i replaces the chat at i by the new current chat; the length and every other chat are unchanged |
| ChatState.TurnKeepsDistinctIds | src/context/ChatContext.tsx:106-163 | with fresh ids for the chats a send may create, chat ids stay distinct |
| ChatState.CreateKeepsDistinctIds | src/context/ChatContext.tsx:69-73 | a new chat with a fresh id keeps chat ids distinct |
| ChatState.SendMessageAppends | src/context/ChatContext.tsx:111-174 | on a reply exactly two messages are added (the user's content, then the "ai" reply) and `updatedAt` is the reply time; on failure exactly the user message is added; never loading afterwards |
| ChatState.SendFileUsesDescription | src/context/ChatContext.tsx:192-234 | a file send with a description prompts with the description and adds a file message captioned with it, whose kind follows the MIME type |
| ChatState.HelloScenario | src/context/ChatContext.tsx:96-175 | from an empty state, sending "Hello" with reply "Hi there" leaves two chats: the current one titled "Hello" with the two messages, then an empty "New Chat" |
| ChatContext.SendToast | src/context/ChatContext.tsx:97-171 | an empty key shows "API Key Required"; otherwise a toast appears exactly when the call failed |
| ChatContext.ChatContextProvider.Load | src/context/ChatContext.tsx:23-67 | the mounted state is the load step's result; storage holds the key in use unless it is the build-time key |
| ChatContext.ChatContextProvider.SetApiKey | src/context/ChatContext.tsx:61-67 | the key is replaced; it is saved only when it changed and is not the build-time key |
| ChatContext.ChatContextProvider.CreateNewChat | src/context/ChatContext.tsx:69-73 | the new state is the create step's result, and storage holds it |
| ChatContext.ChatContextProvider.SelectChat | src/context/ChatContext.tsx:75-80 | the new state is the select step's result |
| ChatContext.ChatContextProvider.DeleteChat | src/context/ChatContext.tsx:82-89 | the new state is the delete step's result, and storage holds it |
| ChatContext.ChatContextProvider.ClearChats | src/context/ChatContext.tsx:91-94 | the new state is the clear step's result, and storage holds it |
| ChatContext.ChatContextProvider.PutOptimistic | src/context/ChatContext.tsx:111-135 | the message is appended to the chat current at the call, or put alone in a second new chat; that chat is upserted and current |
| ChatContext.ChatContextProvider.ApplyReply | src/context/ChatContext.tsx:141-163 | the new state is the confirmation step's result: nothing changes on failure; on a reply the titled chat with the reply appended is upserted and current |
| ChatContext.ChatContextProvider.SendMessage | src/context/ChatContext.tsx:96-175 | the new state is the send step's result; the toast matches the outcome; the invariant is kept |
| ChatContext.ChatContextProvider.SendFileMessage | src/context/ChatContext.tsx:177-272 | the new state is the file send step's result; the toast matches the outcome; the invariant is kept |
| ChatInput.ValidateFile | src/components/chat-input.tsx:39-57 | a MIME type outside the five allowed is a type error, whatever the size; an allowed type over 10 MiB is too large; exactly 10 MiB is accepted |
| ChatInput.AcceptedFileKind | src/components/chat-input.tsx:39 | among accepted files, only "application/pdf" is sent as a pdf |
| ChatInput.IsBlank | src/components/chat-input.tsx:22 | input is blank after trimming exactly when every character is whitespace |
| ChatInput.DescriptionFor | src/components/chat-input.tsx:75-76 | the typed description, else "Analyze this image" or "Analyze this PDF"; never empty |
| ChatInput.DialogSendPromptsWithDescription | src/components/chat-input.tsx:75-79 | the description the dialog sends is also the prompt; the provider's default prompts are never used |
| ChatInput.ChatInput.constructor | src/components/chat-input.tsx:13-18 | empty input, no file, dialog closed, empty description |
| ChatInput.ChatInput.HandleSubmit | src/components/chat-input.tsx:20-26 | blank input changes nothing; other input is sent untrimmed and then reset to "" |
| ChatInput.ChatInput.HandleFileSelect | src/components/chat-input.tsx:35-65 | no file changes nothing; a rejected file leaves the selection and dialog as they were; an accepted file is selected and the dialog opens |
| ChatInput.ChatInput.CloseFileDialog | src/components/chat-input.tsx:90-94 | dialog closed, no selected file, empty description |
| ChatInput.ChatInput.HandleSendFile | src/components/chat-input.tsx:71-88 | with no file nothing changes; otherwise the file is sent with its description and the dialog is reset |

## Left out

- Network I/O: `fetch`, the endpoint URL, JSON encoding and `response.json()`. The exchange is the oracle `server`, which returns a status with a parsed body or a transport failure.
- Local storage and `JSON.parse`: storage is two ghost fields. A missing or unparsable stored list is one case, `None`. Parsed values of the wrong shape are not modelled.
- Reading the file bytes and base64 encoding (`arrayBuffer`, `btoa`) and `URL.createObjectURL`: their results are opaque parameters. A failure while reading the file is not modelled separately; it would reach the same catch branch as a failed call.
- `crypto.randomUUID` and `Date.now`: these are parameters. One `sentAt` stands for every clock reading before the request: both readings inside `createNewChat` when `handleCreateNewChat` runs (ChatContext.tsx:70), the user message's timestamp (111) and the optimistic chat's `updatedAt` or its `createNewChat` (117-118). One `repliedAt` stands for both readings after the reply: the reply message's timestamp (142) and the chat's `updatedAt` (148). In the source these readings can differ by a few milliseconds.
- Ids: fresh ids are a precondition of the lemmas about distinct ids and the two-chat outcome, not of the methods.
- React scheduling: batching, stale closures and two sends running at once are not modelled. Operations run one after another, and a send's network step is one atomic answer: the model assumes nothing else runs while a send waits for the reply. In the app only the message box and its buttons are disabled while loading. The sidebar and chat history can still create, select, delete or clear chats during a send, and the reply's upsert (ChatContext.tsx:154-163) would then bring a deleted chat back as current. Such interleavings are not modelled.
- Toasts, console output, rendering, routing and theme: the other components and pages are not part of this model. The provider's toasts appear only as the value `SendToast` returns.
- `handleKeyDown`, `handleAttachmentClick` and the text field's `setInput` / `setFileDescription` setters: these are event wiring. `handleKeyDown` only calls `handleSubmit`.
- Resetting the file input element after a selection (chat-input.tsx:62-64): DOM state.
- ChatInput.ChatInput.HandleSendFile: the catch branch with "Error uploading file" is not modelled, because `sendFileMessage` catches its own failures.
- JsStrings.IsJsWhitespace: follows the ECMAScript WhiteSpace and LineTerminator sets as fixed code points. Unicode category lookups are not modelled.
- Numbers: timestamps and sizes are unbounded integers, not IEEE doubles.
- ChatUtils.TitleFromContent, GeminiApi.GenerateChatTitle, ChatUtils.DerivedTitleShape and JsStrings.SliceTo: strings are sequences of Unicode scalar values, so the 30-character cut and the 33-character bound are counted in scalar values. JavaScript's `length` and `slice` count UTF-16 code units. Content with characters outside the Basic Multilingual Plane, such as emoji, is therefore cut later in the model than in the app. The app can also split a surrogate pair and leave a lone surrogate, which a Dafny `char` cannot hold.
- GeminiApi.CallGeminiApiWithFile: on a non-ok status the source first reads the error body with `response.json()` (gemini-api.ts:90). When that body is not JSON, the call fails with a parse error rather than `API error: <status>`. The model always fails with `HttpStatus(status)`. Both kinds of failure reach the same catch branch in the provider, so the state and toast are the same.
