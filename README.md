# promptthing core in Dafny

A Dafny model of the decision logic inside promptthing, a chat application built on
Next.js, the Vercel AI SDK and Convex, with proofs about that logic. The model covers:

- **The chat route** (`app/api/v1/chat/route.ts`):
  - the submit handler, `POST`: how the authentication and model-resolution failures are
    ordered, how the tool set is assembled, and how a fresh stream id is registered;
  - the payloads the route persists on the "initial" step and when the response finishes;
  - the resume handler, `GET`: its status ladder and the 15-second freshness fallback that
    restores a concluded answer as one `append-message` event;
  - the lazily created, module-level resumable-stream context.
- **Model and credential resolution** (`lib/models.ts` over `config/models.ts`):
  - the key-selection chain and the provider allow-list;
  - the defaults;
  - the catalogue queries: category labels, duplicate-free provider lists, filtering by provider.
- **The Convex chat and message handlers** (`convex/chat.ts`, `convex/message.ts`, typed by
  `convex/schema.ts`): in-place inserts, patches and deletions over a chat table and a message
  table, guarded by authentication and ownership checks.
- **Client-side list logic**:
  - regenerate truncation;
  - the de-duplicating `append-message` consumers of a resumed stream;
  - the chat view's request body, chat creation, image extraction, status text and actions
    visibility;
  - sidebar grouping, rename and share;
  - both prompt inputs;
  - the provider-key store;
  - the web-search result mapping.

## How the model is built

- Every core source file is a module. `Wrappers`, `Text` (JavaScript `trim`, truthiness,
  decimal rendering), `Json` (parsed JSON values, truthiness, array spread, `flatMap`) and
  `Grouping` (group by first appearance, insertion-ordered sets) are shared, as is
  `PropertyOrder`, the order in which `Object.entries` lists a record's keys (section 10.1.11.1
  of ECMAScript, OrdinaryOwnPropertyKeys).
- The Convex store is the class `ConvexDb.Database`. It holds:
  - the chat and message tables, as sequences in creation order;
  - the user table;
  - the stored files;
  - one counter that issues both `_id` and `_creationTime`, so both increase with insertion.

  The handlers are methods over it. Each states its whole new state for every outcome.
- React state that a handler changes is a class with `modifies` clauses:
  - `ChatComponent.ChatView`;
  - `PromptInput.PromptInputState` and `LegacyPromptInput.LegacyPromptInputState`;
  - `SidebarChats.ChatItem`;
  - `UseConfig.ConfigStore`;
  - `StreamHandler.DataStreamHandler`;
  - `UseAutoResume.AutoResumeHook`;
  - `UIMessages.ChatSession`, the chat SDK's message list and the requests it sends.

  Queued `setMessages` updaters are pure functions on the message list. The effect methods are
  proved against them.
- These collaborators become parameters:
  - the authenticated caller, as `Option<UserId>`;
  - the auth token, as `Option<string>`;
  - environment variables, as `map<string, string>`;
  - fresh ids, stream ids and share ids;
  - the clock, as `now` and `dateLabel`;
  - the JSON codec, as `parse` and `stringify` functions;
  - the outcome of every awaited remote call. A `Result` or `Outcome` whose error case means
    "threw".
- `JsonValue` stands for untyped JavaScript values where the source relies on their dynamic
  shape, for example tool results and `Array.isArray` spreads.

## Model

| member | source | states |
|---|---|---|
| ChatRoute.StreamContextCache.constructor | app/api/v1/chat/route.ts:30 | the cached context starts out null |
| ChatRoute.StreamContextCache.GetStreamContext | app/api/v1/chat/route.ts:32-50 | a cached context is returned without a new attempt; otherwise one construction is attempted, its result (null when it threw) is cached and returned, so a failed attempt is retried by the next call |
| ChatRoute.StreamRegistry.constructor | convex/schema.ts:37-42 | the stream-id table starts empty |
| ChatRoute.StreamRegistry.CreateStreamId | app/api/v1/chat/route.ts:110-114 | exactly one (chatId, streamId) pair is appended to the stream-id table |
| ChatRoute.ToolsFor | app/api/v1/chat/route.ts:77-104 | the tool set has webSearch iff search is on and the model supports web search; it has generateImage iff the image tool is on, built from the runware key and image model; building the search tool without TAVILY_API_KEY is the only failure |
| ChatRoute.Post | app/api/v1/chat/route.ts:56-258 | no token gives 401 before any model resolution or write; otherwise a ModelResolution error, then a tool error, then a registration error gives 400 with that error's text and registers nothing; with none of them the status is 200 and the tools are those built for the resolved model's web-search support; on 200 exactly one fresh stream id is registered, an empty stream-context cache is filled with the construction's result (one attempt) while a filled one is kept, and the body is that stream, resumable iff the cache then holds a context; 404 never occurs |
| ChatRoute.SavedAttachment | app/api/v1/chat/route.ts:176-180 | the url is kept, and a missing or empty name or content type becomes "" |
| ChatRoute.UserMessageArgs | app/api/v1/chat/route.ts:168-183 | nothing is written unless the step type is "initial"; an initial step without a message throws; otherwise the user message is written with role user, the message's content, its parts encoded, no storage ids, and attachments mapped one to one or omitted |
| ChatRoute.StorageIdsFromParts | app/api/v1/chat/route.ts:190-201 | a storage id is collected iff some generateImage tool-invocation part's result contributes it |
| ChatRoute.ImagePartContributesIds | app/api/v1/chat/route.ts:198-201 | a generateImage result whose storageIds is an array contributes exactly that array |
| ChatRoute.AssistantMessageArgs | app/api/v1/chat/route.ts:185-214 | the saved assistant content is never blank: it is the generated content when that trims to something, else the fixed placeholder; storageIds is the flattened list, omitted exactly when empty |
| ChatRoute.TruncDiv | app/api/v1/chat/route.ts:354 | the quotient rounds toward zero: for a non-negative dividend it is non-negative and leaves a remainder in [0, divisor); for a negative dividend it is non-positive and overshoots the dividend by less than the divisor |
| ChatRoute.FreshnessWindow | app/api/v1/chat/route.ts:353-358 | differenceInSeconds(now, createdAt) ≤ 15 holds exactly when the message is less than 16 000 ms old |
| ChatRoute.ResumeFallback | app/api/v1/chat/route.ts:334-378 | the fallback restores a message iff the query succeeded with a non-empty list whose last message is an assistant message less than 16 s old, and then emits that message with its decoded parts; every other case is the empty stream |
| ChatRoute.Get | app/api/v1/chat/route.ts:260-386 | an empty stream-context cache is filled with the construction's result (one attempt), a filled one is kept; then the ladder in order: no context 204; no chatId 400; no token 401; a failed or empty chat query 404; a missing or empty stream-id list 404; a thrown query 500; a reattached stream is resumed from the last stream id; the fallback never restores a message, because the message query yields a bare array |
| Models.IsProviderSupported | lib/models.ts:19-28 | true exactly for google, openrouter, anthropic, openai and runware |
| Models.ProvidedKeyWins | lib/models.ts:34-36 | a truthy caller-provided key is always the key used, whatever the availability policy |
| Models.KeyWithoutProvided | lib/models.ts:37-43 | without a provided key, an "always" model with an apiKeyEnv uses that variable (or ""), and every other case resolves to "" |
| Models.TextModelOutcome | lib/models.ts:30-87 | an empty key fails with the bring-your-own-key message for an unkeyed byok model and "<apiKeyEnv> is not set" otherwise; an unsupported provider fails; only google, openrouter, openai and anthropic construct, each with its SDK, the model name and the key |
| Models.CreateModel | lib/models.ts:30-87 | the imperative key chain and provider switch yield exactly TextModelOutcome |
| Models.ImageModelOutcome | lib/models.ts:153-210 | the same key chain and errors; only runware (one image per call) and openai construct an image model |
| Models.CreateImageGenModel | lib/models.ts:153-210 | the imperative chain yields exactly ImageModelOutcome |
| Models.ModelResolution | lib/models.ts:89-103 | an absent model selects the key "undefined"; a key without configuration fails with "Model configuration not found for: <key>"; otherwise the model is constructed from that configuration with the selected key, an empty key fails with the missing-key message, and canReason and supportsWebSearch are copied from the configuration |
| Models.GetModel | lib/models.ts:89-103 | yields exactly ModelResolution |
| Models.ImageGenModelResolution | lib/models.ts:212-230 | the same over the image table, with the default "runware:100@1" and "Image generation model configuration not found for: <key>"; modelName and provider are copied from the configuration |
| Models.GetImageGenModel | lib/models.ts:212-230 | yields exactly ImageGenModelResolution |
| Models.ShippedTableNeedsProvidedKey | lib/models.ts:89-103 | over the shipped tables, getModel without a model fails, and no shipped model has an availability policy, so none constructs without a provided key |
| Models.GetAvailableModels | lib/models.ts:105-107 | one entry per configuration, in table order, each that configuration's key; with unique object keys no key repeats |
| Models.GetAvailableModelsWithCategories | lib/models.ts:109-129 | one entry per key, in order, labelled "Reasoning" iff canReason, else "General", with that model's name and icon |
| Models.GetAvailableImageGenModelsWithCategories | lib/models.ts:244-255 | one entry per image key, in order, all labelled "Image Generation" |
| Models.AddTextProviders | lib/models.ts:282-284 | adding the provider of every text model, in table order, to an insertion-ordered set built from `seen` gives the set built from `seen` followed by those providers |
| Models.AddImageProviders | lib/models.ts:286-288 | the same over the image table |
| Models.GetAvailableProviders | lib/models.ts:131-139 | the providers in first-appearance order, each once, exactly those of the text table |
| Models.GetAvailableImageGenProviders | lib/models.ts:269-277 | the same over the image table |
| Models.GetAllAvailableProviders | lib/models.ts:279-291 | the text providers then the new image providers, each once, exactly the union of both tables |
| Models.GetModelConfig | lib/models.ts:141-143 | a configuration is found iff the model is a key of the table |
| Models.GetModelsByProvider | lib/models.ts:145-151 | every listed configuration has that provider |
| Models.ModelsByProviderMembers | lib/models.ts:145-151 | a configuration is listed iff it is in the table with that provider |
| Models.ModelsByProviderInTableOrder | lib/models.ts:145-151 | entry j is the configuration at the j-th ascending table index whose provider matches, so table order and repeats are kept |
| Models.GetImageGenModelsByProvider | lib/models.ts:261-267 | every listed image configuration has that provider |
| Models.ImageModelsByProviderMembers | lib/models.ts:261-267 | an image configuration is listed iff it is in the table with that provider |
| Models.ImageModelsByProviderInTableOrder | lib/models.ts:261-267 | entry j is the image configuration at the j-th ascending table index whose provider matches |
| Grouping.Positions | lib/models.ts:145-151 | the ascending indices whose element has the key: every such index and no other |
| Grouping.WithKeyAtPositions | lib/models.ts:145-151 | filtering by key picks exactly the elements at those indices, in that order |
| Models.ImageModelsExistIff | lib/models.ts:232-237 | a provider has an image model iff it is a provider of the image table |
| Models.GetImageGenProviders | lib/models.ts:232-237 | each once, exactly the providers of the image table |
| Models.GetAllModelsFromProvider | lib/models.ts:293-303 | that provider's text models, then its image models, each summarised by model, name, provider and icon |
| ModelsConfig.Lookup | config/models.ts:20-24 | an entry is found iff some entry has that key, and it is that entry's value |
| ModelsConfig.ModelIdsAreConfigKeys | config/models.ts:1-7 | exactly three ids with distinct keys, each id its own value, and the configuration keys are the id keys in the same order |
| ModelsConfig.ConfigEntriesWellFormed | config/models.ts:24-48 | every entry's key equals its model field and its provider is one of the four Provider values |
| ModelsConfig.ConfigCapabilities | config/models.ts:29-47 | supportsWebSearch holds exactly for the two google entries, and canReason exactly for gemini-2.5-flash-thinking and deepseek-r1 |
| ConvexDb.Database.constructor | convex/schema.ts:5-43 | empty chat, message and storage tables over a given user table |
| ConvexDb.Database.InsertChat | convex/chat.ts:32-35 | one chat with the title and owner is appended under a fresh id; nothing else changes |
| ConvexDb.Database.InsertMessage | convex/message.ts:28-35 | one message with the given fields is appended under a fresh id; nothing else changes |
| ConvexDb.Database.Patch | convex/chat.ts:96-106 | only the addressed chat is replaced, in place |
| ConvexDb.Database.DeleteMessage | convex/chat.ts:153 | exactly the message with that id is removed |
| ConvexDb.Database.DeleteChat | convex/chat.ts:156 | exactly the chat with that id is removed |
| ConvexDb.Database.DeleteStorage | convex/chat.ts:145-149 | the stored object is removed unless deleting it throws, which is reported and otherwise ignored |
| ConvexDb.FindChat | convex/chat.ts:126 | a found chat has that id and is in the table; None means no chat has it |
| ConvexDb.MessagesOfChat | convex/chat.ts:138-141 | exactly the messages with that chatId |
| ConvexDb.ChatsOfUser | convex/chat.ts:73-76 | exactly the chats of that owner |
| ConvexDb.DeletingChatIdsKeepsOthers | convex/chat.ts:137-154 | removing the ids of one chat's messages leaves exactly the other chats' messages |
| ConvexDb.MessagesOfChatOrdered | convex/chat.ts:138-141 | one chat's messages keep ascending creation order |
| ConvexChat.Authenticate | convex/chat.ts:21-30 | succeeds iff the caller is present and has a user record; "User not authenticated" and "User not found" otherwise |
| ConvexChat.OwnedChat | convex/chat.ts:96-105 | succeeds iff the caller is authenticated, the chat exists and the caller owns it, with "Chat not found" and the action's permission message as the failures |
| ConvexChat.CreateChat | convex/chat.ts:7-59 | an unauthenticated caller gets the failure and nothing is written; otherwise one chat is appended, then the initial messages in their order under the new chat id and owner, and the new id is returned |
| ConvexChat.InsertInitialMessages | convex/chat.ts:41-51 | the loop appends one message record per initial message, in order, with consecutive fresh ids, under the given chat and owner, and changes nothing else |
| ConvexChat.CreatedChatHoldsInitialMessages | convex/chat.ts:41-51 | after creation the new chat's messages are exactly the initial messages |
| ConvexChat.GetChats | convex/chat.ts:61-83 | fails iff authentication fails; otherwise exactly the caller's chats |
| ConvexChat.GetChatsNewestFirst | convex/chat.ts:73-79 | the listed chats run from newest to oldest |
| ConvexChat.RenameChat | convex/chat.ts:85-113 | a missing, foreign or unauthenticated request fails and changes nothing; otherwise only that chat's title changes |
| ConvexChat.PatchedChatFound | convex/chat.ts:106 | after a patch the chat reads back as patched and every other chat reads as before |
| ConvexChat.DeleteChatAndMessages | convex/chat.ts:115-160 | only the owner can delete; the chat and exactly its messages are removed, other chats' messages stay, and the stored objects of its messages are removed except those whose deletion throws |
| ConvexChat.DeleteMessages | convex/chat.ts:142-154 | the loop removes exactly the listed messages and their stored objects, except the failing ones |
| ConvexChat.DeleteMessageAndObjects | convex/chat.ts:143-153 | one turn of that loop removes the message and the stored objects it references, except the failing ones |
| ConvexChat.DeleteStoredObjects | convex/chat.ts:143-151 | the inner loop removes exactly the listed stored objects that do not fail |
| ConvexChat.CreateShareChat | convex/chat.ts:162-211 | only the owner can share; a chat without messages fails unpatched; otherwise lastSharedMessageId becomes the latest message and shareId the fresh id, which is returned |
| ConvexChat.PatchChatTwice | convex/chat.ts:196-201 | the two successive patches equal one patch with the final record |
| ConvexChat.FindByShareId | convex/chat.ts:218-221 | a found chat carries that shareId; None means no chat does |
| ConvexChat.MessagesUpTo | convex/chat.ts:240-246 | exactly the chat's messages created no later than the cutoff |
| ConvexChat.GetSharedChatWithMessages | convex/chat.ts:213-253 | an unknown shareId fails; the owner gets an empty list marked as their chat; for anyone else a chat without `lastSharedMessageId` throws `db.get`'s argument error, a last shared message that no longer exists fails with "No messages found for this chat", and otherwise the listing holds exactly the chat's messages created no later than the last shared one |
| ConvexChat.SharedChatsDoNotThrow | convex/chat.ts:196-234 | while every chat with a share id also has a last shared message, as `createShareChat` guarantees by patching that first, the query never throws |
| ConvexChat.SharedViewAscending | convex/chat.ts:240-246 | the shared listing is in ascending creation order |
| ConvexChat.SharedMessagesArePrefix | convex/chat.ts:240-246 | the shared messages are a prefix, in ascending order, of the chat's messages |
| ConvexChat.SharedMessagesEndAtShared | convex/chat.ts:234-246 | the shared listing ends with the last shared message itself |
| ConvexChat.ShareThenView | convex/chat.ts:162-253 | a non-owner viewing a just-shared chat sees all of its messages, in order |
| ConvexMessage.CreateMessage | convex/message.ts:7-39 | a missing chat throws "Chat not found" and a caller who is not the owner (including an absent caller) throws the permission message, writing nothing; otherwise exactly one message with the fields and the owner is appended and its id returned |
| ConvexMessage.GetMessages | convex/message.ts:41-66 | a signed-out caller throws `db.get`'s argument error; an unknown user, a missing chat and a foreign chat each throw their message; otherwise exactly the chat's messages |
| ConvexMessage.GetMessagesOldestFirst | convex/message.ts:59-64 | the listed messages run from oldest to newest |
| ConvexDb.MessagesOfChatSnoc | convex/message.ts:28-37 | a message just created is the last entry of its chat's listing, and other chats' listings are unchanged |
| AssistantMessageActions.FindIndex | components/assistant-message-actions.tsx:28 | the first position holding the id, or -1 exactly when no message has it |
| AssistantMessageActions.RegenerationOf | components/assistant-message-actions.tsx:27-42 | an unknown id changes nothing; the first message faults after the last element was dropped; otherwise the list is truncated before the preceding user message and that message is re-sent |
| AssistantMessageActions.RegenerateKeepsPrefix | components/assistant-message-actions.tsx:33-38 | for index i ≥ 1 the kept list is messages[0..i-1) and the re-sent content is that of messages[i-1] |
| AssistantMessageActions.RegeneratedLength | components/assistant-message-actions.tsx:36-42 | after regenerating, the list has exactly i messages |
| AssistantMessageActions.RegenerateFirstDropsLast | components/assistant-message-actions.tsx:33-42 | regenerating the first message drops the last message and sends nothing |
| AssistantMessageActions.HandleRegenerate | components/assistant-message-actions.tsx:27-42 | the session's list and requests change exactly as RegenerationOf says, and the handler throws exactly in the fault case |
| MessageActions.HandleRegenerate | components/message-actions.tsx:30-42 | the general copy of the handler makes the same changes |
| UIMessages.AppendIfAbsent | hooks/use-auto-resume.ts:55-69 | the message ends up shown, the old list is a prefix of the new one, at most one message is added, only the new id can be new, and unique ids stay unique |
| UIMessages.ChatSession.constructor | components/chat.tsx:95 | the session starts with the initial messages and no requests |
| UIMessages.ChatSession.SetMessages | components/assistant-message-actions.tsx:37 | the list is replaced and nothing is sent |
| UIMessages.ChatSession.Append | components/chat.tsx:134-137 | the new message is shown and one request with the whole list and the body options is sent |
| UseAutoResume.AutoResumeHook.constructor | hooks/use-auto-resume.ts:23 | the mount effect has not run |
| UseAutoResume.AutoResumeHook.MountEffect | hooks/use-auto-resume.ts:23-38 | resume is requested iff this is the first run, autoResume is set and the last initial message is a user message |
| UseAutoResume.DataEffect | hooks/use-auto-resume.ts:40-75 | absent or empty data leaves the list alone; otherwise the parts are applied in order; nothing is sent |
| UseAutoResume.ProcessDataExtends | hooks/use-auto-resume.ts:47-73 | processing only appends, and keeps ids unique |
| UseAutoResume.ProcessDataCovers | hooks/use-auto-resume.ts:47-73 | every message an append-message part carries is shown afterwards |
| UseAutoResume.ProcessDataNoop | hooks/use-auto-resume.ts:55-64 | when every carried message is already shown, nothing changes |
| UseAutoResume.ProcessDataIdempotent | hooks/use-auto-resume.ts:55-69 | processing the same data twice gives the list of processing it once |
| UseAutoResume.ProcessDataConcat | hooks/use-auto-resume.ts:47 | processing a + b is processing a, then b |
| UseAutoResume.GrownDataRerun | hooks/use-auto-resume.ts:40-75 | re-running the effect on data that grew gives the result of one run over the whole data |
| UseAutoResume.SkippedPartChangesNothing | hooks/use-auto-resume.ts:48-72 | a part that is not an append-message, or whose message fails to parse, is skipped and the later parts still count |
| StreamHandler.DataStreamHandler.constructor | components/stream-handler.tsx:25 | the processed-key set starts empty |
| StreamHandler.DataStreamHandler.Effect | components/stream-handler.tsx:27-72 | absent or empty data changes nothing; otherwise the list and the processed set become those of one run; nothing is sent |
| StreamHandler.HandleDataGrows | components/stream-handler.tsx:25-63 | the processed set only grows, and the list is only appended to, never with a duplicate id |
| StreamHandler.NewKeysAreMarked | components/stream-handler.tsx:34-63 | every key a run adds is `${id}-${index}-${type}` of a part that carried a parsable message |
| StreamHandler.HandleDataSettles | components/stream-handler.tsx:33-71 | after a run each part of the data is processed or carries nothing |
| StreamHandler.SettledRunIsNoop | components/stream-handler.tsx:36-39 | a run over settled data changes nothing |
| StreamHandler.HandleDataIdempotent | components/stream-handler.tsx:27-72 | the effect firing twice on the same data changes nothing the second time |
| ChatComponent.PrepareRequestBody | components/chat.tsx:78-94 | chatId is the request's truthy chatId, else the view's id; message is the last message; the toggles, models and keys are copied from the view's state |
| ChatComponent.ProviderKeyFor | components/chat.tsx:68-70 | the key lookup throws iff the selected model has no configuration, and otherwise reads the store at that model's provider |
| ChatComponent.DefaultModelKeyLookupFails | components/chat.tsx:68-70 | with the store's default model the lookup throws whatever keys are stored |
| ChatComponent.NewChatTitle | components/chat.tsx:106 | the title is 1 to 40 characters: "New Chat" for a blank prompt, else the first 40 characters of the trimmed prompt |
| ChatComponent.InitialMessagesArg | components/chat.tsx:107-114 | initial messages are sent iff present and non-empty, one per message with its content, role and encoded parts |
| ChatComponent.ChatView.constructor | components/chat.tsx:56-63 | the id starts as the chatId prop, not loading, both tools off |
| ChatComponent.ChatView.HandleOnSubmit | components/chat.tsx:100-146 | createChat is called iff the chat is new; the id becomes the new chat id only on success; the trimmed prompt is always appended as a user message, with body chatId the resulting id, even after a failed creation; loading ends false |
| ChatComponent.ImageResultsFromParts | components/chat.tsx:185-203 | an image is shown iff some finished generateImage call's truthy result contributes it, arrays spread and other values as singletons |
| UIMessages.PartTypeDecidesKind | components/chat.tsx:156-193 | a part's `type` is "text", "reasoning" or "tool-invocation" iff it is that kind of part, so the model's kind tests are the source's `part.type` tests |
| ChatComponent.FirstToolInvocation | components/chat.tsx:155-157 | None iff no part is a tool invocation, else the first one |
| ChatComponent.AssistantDisplay | components/chat.tsx:184-230 | images are shown iff there are image results, with the content as caption iff truthy; otherwise a pending first tool call shows its per-tool status, empty content without reasoning shows "Loading...", and anything else shows the content |
| ChatComponent.SettledMessageShowsContent | components/chat.tsx:205-228 | a message without images or pending tool calls shows exactly its non-empty content |
| ChatComponent.WithActions | components/chat.tsx:231-233 | the assistant positions whose actions are shown |
| ChatComponent.ActionsHiddenOnlyWhileStreaming | components/chat.tsx:231-233 | an assistant message hides its actions iff it is the last one and the status is streaming |
| SidebarChats.GroupedChats | components/app-sidebar/sidebar-chats.tsx:77-108 | absent or failed data gives []; otherwise each chat is in exactly the group of its date label, labels are unique, order within a group is kept, and the group sizes sum to the number of chats |
| SidebarChats.ScreenOf | components/app-sidebar/sidebar-chats.tsx:110-159 | skeleton while loading, nothing on failure, "No chats yet!" for an empty list, else the groups |
| SidebarChats.GroupListShowsEveryChat | components/app-sidebar/sidebar-chats.tsx:144-159 | when the group list is shown, it is non-empty and holds every chat |
| SidebarChats.BlankTitlePassesValidation | components/app-sidebar/sidebar-chats.tsx:70-72 | a whitespace-only title passes the form schema and is sent as "" |
| SidebarChats.SentTitleWithinLimit | components/app-sidebar/sidebar-chats.tsx:70-72 | a title that passes the schema is sent with at most 100 characters |
| SidebarChats.ShareLink | components/app-sidebar/sidebar-chats.tsx:228 | the link is the origin, then "/share/", then the share id |
| SidebarChats.ShareLinkCarriesId | components/app-sidebar/sidebar-chats.tsx:228 | two share ids give the same link iff they are equal |
| SidebarChats.ChatItem.constructor | components/app-sidebar/sidebar-chats.tsx:169-175 | the link reads "Generate the link" and nothing is loading or open |
| SidebarChats.ChatItem.HandleDeleteChat | components/app-sidebar/sidebar-chats.tsx:187-201 | a call that returns navigates home iff the route shows this chat; a call that throws shows the error toast; loading ends false |
| SidebarChats.ChatItem.SubmitRename | components/app-sidebar/sidebar-chats.tsx:203-219 | an invalid title sends nothing; otherwise the trimmed title is sent, and a call that returns closes the dialog with the success toast while one that throws shows the error toast |
| SidebarChats.ChatItem.HandleShareChat | components/app-sidebar/sidebar-chats.tsx:221-237 | the link becomes the share link iff the call returned success with a shareId; otherwise the error toast is shown and the link is kept |
| PromptInput.RemoveAtSplice | components/prompt-input/prompt-input.tsx:95-97 | removing index i leaves the elements before and after i in order; an index outside the list removes nothing |
| PromptInput.PromptInputState.constructor | components/prompt-input/prompt-input.tsx:66 | empty prompt, no files, nothing submitted |
| PromptInput.PromptInputState.SetPrompt | components/prompt-input/prompt-input.tsx:66 | only the prompt changes |
| PromptInput.PromptInputState.SetFiles | components/prompt-input/prompt-input.tsx:93 | only the files change |
| PromptInput.PromptInputState.RemoveAllFiles | components/prompt-input/prompt-input.tsx:68-70 | the file list becomes empty |
| PromptInput.PromptInputState.HandleRemoveFile | components/prompt-input/prompt-input.tsx:95-97 | exactly element i is removed |
| PromptInput.PromptInputState.HandleOnSubmit | components/prompt-input/prompt-input.tsx:72-78 | a blank prompt submits nothing; otherwise the prompt and files are submitted once and the prompt is cleared; no blank prompt is ever submitted |
| PromptInput.SendEnabledIffSubmits | components/prompt-input/prompt-input.tsx:339 | the send button is enabled iff the prompt is not blank and nothing is loading |
| PromptInput.CategoryKey | components/prompt-input/prompt-input.tsx:180 | the category, or "Other" when it is empty |
| PromptInput.GroupByCategory | components/prompt-input/prompt-input.tsx:177-189 | the groups are `Object.entries` of the category record: the same groups as the first-appearance grouping, array-index categories first in ascending numeric order, the other categories in first-appearance order, sizes summing to the input length, and every model's category a group |
| PromptInput.NumericCategoryListedFirst | components/prompt-input/prompt-input.tsx:177-189 | models in the categories "Reasoning" then "1" are listed as the "1" group, then the "Reasoning" group |
| PromptInput.ReasoningGeneralReasoning | components/prompt-input/prompt-input.tsx:177-189 | for the shape Reasoning, General, Reasoning the picker shows Reasoning (first and third) before General (second) |
| PromptInput.ShippedTextPickerGroups | components/prompt-input/prompt-input.tsx:87 | the shipped text picker lists Reasoning (gemini-2.5-flash-thinking, deepseek-r1), then General (gemini-2.5-flash) |
| PromptInput.ShippedModelsSelectable | components/prompt-input/prompt-input.tsx:203-206 | no shipped model is disabled, whatever keys are stored, because none is marked byok |
| PromptInput.ToggleSearch | components/prompt-input/prompt-input.tsx:300-303 | flips the search flag and keeps the image flag |
| PromptInput.ToggleGenerateImage | components/prompt-input/prompt-input.tsx:313-317 | flips the image flag and keeps the search flag |
| PromptInput.TogglesInvolutiveAndCommute | components/prompt-input/prompt-input.tsx:300-317 | each toggle undoes itself and the two commute |
| LegacyPromptInput.LegacyPromptInputState.constructor | components/prompt-input.tsx:52 | empty prompt, nothing submitted |
| LegacyPromptInput.LegacyPromptInputState.SetPrompt | components/prompt-input.tsx:52 | only the prompt changes |
| LegacyPromptInput.LegacyPromptInputState.HandleOnSubmit | components/prompt-input.tsx:61-67 | a blank prompt submits nothing; otherwise the prompt is submitted untrimmed and cleared |
| UseConfig.ConfigStore.constructor | store/use-config.ts:18-27 | no keys, model "gemini-2.0-flash-lite", image model "runware:100@1" |
| UseConfig.ConfigStore.AppendKey | store/use-config.ts:19-22 | the key is stored under its provider and reads back; every other key and both selections are unchanged |
| UseConfig.ConfigStore.GetKey | store/use-config.ts:23 | the stored value, or undefined exactly when the provider has no key |
| UseConfig.ConfigStore.SetSelectedModel | store/use-config.ts:25-26 | only the selected model changes |
| UseConfig.ConfigStore.SetSelectedImageGenModel | store/use-config.ts:28-29 | only the selected image model changes |
| UseConfig.DefaultModelHasNoConfig | store/use-config.ts:24 | the default model is neither a model id nor a configuration key |
| Tools.WebSearchTool | lib/tools.ts:10-14 | the tool is built iff TAVILY_API_KEY is set and non-empty, holding that key; else "TAVILY_API_KEY is not set" |
| Tools.MapSearchResult | lib/tools.ts:31-38 | title, url and score are copied, description and content are the result's content, and rawContent is its first 1000 characters or "" |
| Tools.MapSearchResults | lib/tools.ts:31-38 | one mapped result per hit, in order |
| Tools.ExecuteWebSearch | lib/tools.ts:20-44 | a query outside 1 to 100 characters is rejected; the request sends the key, the query, 5 results, "advanced" depth and text raw content; a failing search becomes "Failed to perform web search"; results are mapped |
| Tools.ExecuteImageGeneration | lib/tools.ts:47-62 | an empty prompt is rejected; otherwise the prompt, key and image model are forwarded unchanged and the action's outcome is returned |
| Text.Trim | components/prompt-input/prompt-input.tsx:73 | the result is empty iff the string is all whitespace, otherwise starts and ends with non-whitespace; it is the contiguous run after the leading whitespace, and everything after it is whitespace |
| Text.TrimIdempotent | components/chat.tsx:106 | trimming twice is trimming once |
| PropertyOrder.EntriesOrder | components/prompt-input/prompt-input.tsx:177-189 | `Object.entries` lists every group once (a permutation, sizes kept), array-index labels before all others and ascending, the other labels in insertion order |
| PropertyOrder.NoIndexLabelsKeepOrder | components/prompt-input/prompt-input.tsx:177-189 | with no array-index label the entries are in insertion order |
| PropertyOrder.IndexLabelListedFirst | components/prompt-input/prompt-input.tsx:177-189 | a "1" group created after a "Reasoning" group is listed before it |
| Grouping.GroupBy | components/app-sidebar/sidebar-chats.tsx:96-101 | the find-or-push loop computes the first-appearance grouping |
| Grouping.GroupedIsPartition | components/app-sidebar/sidebar-chats.tsx:80-101 | labels are unique, each group holds exactly the elements with its label, and every element's label is a group |
| Grouping.GroupedSizesSum | components/app-sidebar/sidebar-chats.tsx:81-102 | the group sizes sum to the number of elements |
| Grouping.DistinctMembers | lib/models.ts:132-138 | a Set's contents are exactly the added elements |
| Grouping.DistinctNoDuplicates | lib/models.ts:132-138 | a Set's contents have no duplicates |
| Json.FlatMapMembers | components/chat.tsx:192-203 | a value is in the flattened list iff some element's contribution holds it |

## Left out

- The model follows the code where the code and its documented behaviour disagree:
  - `convex/message.ts` never writes the `id` field that `convex/schema.ts:17` declares as
    required on messages. Its `createMessage` arguments validator does not accept the
    `attachments` and `storageIds` fields that the chat route passes, so those calls would be
    rejected by argument validation. The model does not follow the route's calls into
    `createMessage`: `ChatRoute.CreateMessageArgs` only builds the arguments, and
    `ConvexDb.Database.InsertMessage` stores neither field.
  - `ChatRoute.Get`: `getMessages` returns a bare array, so the fallback's `success` test always
    fails and the freshness restore is unreachable from `GET`. `ChatRoute.ResumeFallback`
    models the whole branch, and `ChatRoute.Get` states that it always yields the empty stream.
  - `ChatRoute.Post`: `getModel` throws rather than returning a falsy value, so the 404
    "Model not found" branch is unreachable. An unknown model is reported as 400.
  - `ConvexMessage.GetMessages` has no guard for a signed-out caller, unlike the other
    handlers. The missing id goes to `ctx.db.get`, which throws Convex's argument error
    (`ConvexDb.InvalidIdArgument`) rather than "User not found".
  - `ConvexChat.GetSharedChatWithMessages` hands a missing `lastSharedMessageId` to
    `ctx.db.get`, which throws the same error. That state is unreachable through these
    handlers, because `createShareChat` sets `lastSharedMessageId` before `shareId`
    (`ConvexChat.SharedChatsDoNotThrow`).
  - `ConvexChat.CreateChat`: the "Failed to create chat" branch is unreachable, because an
    insert always yields an id.
  - `UseConfig.DefaultModel` ("gemini-2.0-flash-lite") has no configuration. The chat view's
    key lookup therefore throws until a configured model is selected
    (`ChatComponent.DefaultModelKeyLookupFails`).
  - `SidebarChats.ChatItem.SubmitRename` shows the success toast even when `renameChat`
    returns a failure, and a whitespace-only title passes validation and is sent as "".
  - `SidebarChats.ChatItem.HandleDeleteChat` navigates home even when the response is a
    failure.
  - `components/prompt-input.tsx` (the legacy input) is rendered by `components/chat.tsx`
    without its model props. Its category reduce, disabled predicates and toggles are the same
    as the newer input's and are modelled once, by the `PromptInput` members.
- `SidebarChats.GroupedChats`: stops before the final sort. The comparator parses labels such
  as "Today" as dates, giving NaN. The date labels depend on the clock and are a parameter.
- `PromptInput.PromptInputState.HandleOnSubmit`: submits the current files. The source's
  callback lists only `[prompt, onSubmit]` as dependencies and can submit a stale file list.
- `ChatRoute.Get` and `ChatRoute.Post`: `getChatById`, `getStreamIdsByChatId` and
  `createStreamId` are not part of `convex/chat.ts`. Their results are parameters, and the
  stream-id table is `ChatRoute.StreamRegistry`.
- `ChatRoute.Post`: does not model `resumableStream` returning null.
- The streamed generation is not modelled: the system prompt, providerOptions, headers,
  smoothing, step limits, `consumeStream`, `mergeIntoDataStream` and `onError`. The finished
  assistant message is an input to `ChatRoute.AssistantMessageArgs`.
- `UIMessages.ChatSession` does not model the chat SDK's handling of the model's streamed
  response. It only records the list and the requests.
- `ImageGenModelConfig` tables: the image table `lib/models.ts` imports is not part of
  `config/models.ts`, so image queries take the table as a parameter.
- The `reasoning` argument of `createMessage` is not modelled; the route never sends it.
- `ChatComponent.NewChatTitle`: cuts at 40 code points. JavaScript's `slice(0, 40)` counts
  UTF-16 code units, so a prompt with characters outside the Basic Multilingual Plane gets a
  shorter title in the source, which may end in a lone surrogate.
- `Tools.MapSearchResult`: cuts `rawContent` at 1000 code points where `slice(0, 1000)` counts
  UTF-16 code units, with the same consequence for characters outside the Basic Multilingual Plane.
- `ConvexDb.InvalidIdArgument`: only models that Convex's error for a non-id argument differs
  from every handler's message, not its wording.
- These are not modelled:
  - zod's UTF-16 length counting, JavaScript prototype keys, and the unchecked role cast in
    `createChat`'s initial messages;
  - the JSON codec, as `parse` and `stringify` parameters;
  - the SDK constructors, which are recorded by name only;
  - Convex indexes, HTTP transport and React rendering;
  - clipboard, toast rendering and URL history;
  - the persist middleware of the config store;
  - logging;
  - the concurrency of awaited calls, which are modelled as happening in sequence.
