/**
 * The chat view: the request body it sends to the chat route, the first-message flow that creates
 * a chat, and what each assistant message displays.
 */
module ChatComponent {
  import opened Wrappers
  import opened Text
  import Json
  import opened UIMessages
  import opened ModelsConfig
  import Models
  import UseConfig

  /** The tool toggles of the prompt input. */
  datatype ToolsEnabled = ToolsEnabled(search: bool, generateImage: bool)

  datatype ToolsApiKey = ToolsApiKey(runware: Option<string>)

  /** The JSON body of a chat request. */
  datatype BodyRequest = BodyRequest(
    messages: seq<UIMessage>,
    search: bool,
    generateImage: bool,
    model: string,
    imageGenModel: string,
    apiKey: Option<string>,
    chatId: Option<string>,
    toolsApiKey: ToolsApiKey,
    message: Option<UIMessage>)

  /** What the view holds when a request is prepared: its chat id, toggles, models and keys. */
  datatype RequestSettings = RequestSettings(
    id: Option<string>,
    toolsEnabled: ToolsEnabled,
    model: string,
    apiKey: Option<string>,
    runwareApiKey: Option<string>,
    imageGenModel: string)

  /** Truthiness of an optional string. */
  predicate Given(s: Option<string>) {
    s.Some? && Truthy(s.value)
  }

  /**
   * `experimental_prepareRequestBody`: the chat id of the request body wins when truthy, else the
   * view's id; `message` is the last message. A request sent with no body makes reading
   * `requestBody.chatId` throw (None).
   */
  function PrepareRequestBody(request: ChatRequest, settings: RequestSettings): (r: Option<BodyRequest>)
    ensures r.None? <==> request.options.NoBody?
    ensures r.Some? ==>
      && r.value.chatId == (if Given(request.options.chatId) then request.options.chatId else settings.id)
      && r.value.messages == request.messages
      && (r.value.message.Some? <==> |request.messages| > 0)
      && (|request.messages| > 0 ==> r.value.message == Some(request.messages[|request.messages| - 1]))
      && r.value.search == settings.toolsEnabled.search && r.value.generateImage == settings.toolsEnabled.generateImage
      && r.value.model == settings.model && r.value.apiKey == settings.apiKey
      && r.value.imageGenModel == settings.imageGenModel && r.value.toolsApiKey == ToolsApiKey(settings.runwareApiKey)
  {
    match request.options
    case NoBody => None
    case WithBody(bodyChatId) =>
      var finalChatId := if Given(bodyChatId) then bodyChatId else settings.id;
      var last := if |request.messages| > 0 then Some(request.messages[|request.messages| - 1]) else None;
      Some(BodyRequest(request.messages, settings.toolsEnabled.search, settings.toolsEnabled.generateImage,
                       settings.model, settings.imageGenModel, settings.apiKey, finalChatId,
                       ToolsApiKey(settings.runwareApiKey), last))
  }

  /**
   * The key the view sends: the stored key of the selected model's provider. The lookup of the
   * provider throws when the model has no configuration (None).
   */
  function ProviderKeyFor(keys: map<string, string>, table: Table<ModelConfig>, model: string): (r: Option<Option<string>>)
    ensures r.None? <==> Models.GetModelConfig(table, model).None?
    ensures r.Some? ==> var p := Models.GetModelConfig(table, model).value.provider;
      r.value == if p in keys then Some(keys[p]) else None
  {
    match Models.GetModelConfig(table, model)
    case None => None
    case Some(config) => Some(if config.provider in keys then Some(keys[config.provider]) else None)
  }

  /** With the store's default model the key lookup fails whatever keys are stored. */
  lemma DefaultModelKeyLookupFails(keys: map<string, string>)
    ensures ProviderKeyFor(keys, ModelsConfigTable, UseConfig.DefaultModel).None?
  {
    UseConfig.DefaultModelHasNoConfig();
  }

  const TitleLimit: nat := 40

  /** The title of a chat created from its first prompt. */
  function NewChatTitle(prompt: string): (t: string)
    ensures 1 <= |t| <= TitleLimit
    ensures AllWhitespace(prompt) ==> t == "New Chat"
    ensures !AllWhitespace(prompt) ==> t <= Trim(prompt) && |t| == (if |Trim(prompt)| < TitleLimit then |Trim(prompt)| else TitleLimit)
    ensures !AllWhitespace(prompt) ==> !IsWhitespace(t[0])
  {
    var p := Prefix(Trim(prompt), TitleLimit);
    assert p == Trim(prompt)[..|p|];
    if Truthy(p) then p else "New Chat"
  }

  /** An initial message as `createChat` receives it; the role is cast without a check. */
  datatype ClientInitialMessage = ClientInitialMessage(content: string, role: UIRole, parts: string)

  datatype CreateChatArgs = CreateChatArgs(title: string, initialMessages: Option<seq<ClientInitialMessage>>)

  /** `initialMessages` is sent only when there is at least one; each message's parts are JSON-encoded. */
  function InitialMessagesArg(initialMessages: Option<seq<UIMessage>>, stringify: seq<UIPart> -> string)
    : (r: Option<seq<ClientInitialMessage>>)
    ensures r.Some? <==> initialMessages.Some? && |initialMessages.value| > 0
    ensures r.Some? ==> |r.value| == |initialMessages.value| && forall i :: 0 <= i < |r.value| ==>
      r.value[i] == ClientInitialMessage(initialMessages.value[i].content, initialMessages.value[i].role, stringify(initialMessages.value[i].parts))
  {
    if initialMessages.Some? && |initialMessages.value| > 0 then
      var ms := initialMessages.value;
      Some(seq(|ms|, i requires 0 <= i < |ms| => ClientInitialMessage(ms[i].content, ms[i].role, stringify(ms[i].parts))))
    else None
  }

  /** How the `createChat` call ended. */
  datatype CreationOutcome = Created(success: bool, data: Option<string>) | CreationThrew

  class ChatView {
    const chatIdProp: Option<string>
    const initialMessages: Option<seq<UIMessage>>
    var id: Option<string>
    var isLoading: bool
    var toolsEnabled: ToolsEnabled
    var createChatCalls: seq<CreateChatArgs>

    constructor (chatIdProp: Option<string>, initialMessages: Option<seq<UIMessage>>)
      ensures this.chatIdProp == chatIdProp && this.initialMessages == initialMessages
      ensures id == chatIdProp && !isLoading && toolsEnabled == ToolsEnabled(false, false) && createChatCalls == []
    {
      this.chatIdProp := chatIdProp;
      this.initialMessages := initialMessages;
      id := chatIdProp;
      isLoading := false;
      toolsEnabled := ToolsEnabled(false, false);
      createChatCalls := [];
    }

    /** Neither the page nor an earlier submit has given the view a chat id. */
    predicate IsNewChat()
      reads this
    {
      !Given(chatIdProp) && !Given(id)
    }

    /**
     * `handleOnSubmit`: a new chat is first created, titled from the prompt and seeded with the
     * initial messages; when that succeeds the view takes the new id. Either way the trimmed prompt
     * is appended as a user message whose request names the chat id known at that point.
     */
    method HandleOnSubmit(session: ChatSession, prompt: string, creation: CreationOutcome, freshId: string,
                          stringify: seq<UIPart> -> string)
      modifies this, session
      ensures old(IsNewChat()) ==>
        createChatCalls == old(createChatCalls) + [CreateChatArgs(NewChatTitle(prompt), InitialMessagesArg(initialMessages, stringify))]
      ensures !old(IsNewChat()) ==> createChatCalls == old(createChatCalls)
      ensures id == if old(IsNewChat()) && creation.Created? && creation.success then creation.data else old(id)
      ensures old(IsNewChat()) && creation.Created? && creation.success && Given(creation.data) ==> !IsNewChat()
      ensures !isLoading && toolsEnabled == old(toolsEnabled)
      ensures session.messages == old(session.messages) + [AppendedMessage(freshId, UserRole, Trim(prompt))]
      ensures session.requests == old(session.requests) + [ChatRequest(session.messages, WithBody(id))]
    {
      var generatedId := id;
      isLoading := true;
      if IsNewChat() {
        createChatCalls := createChatCalls + [CreateChatArgs(NewChatTitle(prompt), InitialMessagesArg(initialMessages, stringify))];
        match creation
        case Created(success, newChatId) =>
          if success {
            generatedId := newChatId;
            id := newChatId;
          }
        case CreationThrew =>
          isLoading := false;
      }
      isLoading := false;
      session.Append(freshId, UserRole, Trim(prompt), WithBody(generatedId));
    }
  }

  /** The images one part shows: a finished "generateImage" call's truthy result, spread when an array. */
  function ImageContribution(p: UIPart): seq<Json.JsonValue> {
    if p.ToolInvocationPart? && p.toolInvocation.toolName == "generateImage" && p.toolInvocation.state == ResultState
       && p.toolInvocation.result.Some? && Json.Truthy(p.toolInvocation.result.value)
    then Json.Spread(p.toolInvocation.result.value)
    else []
  }

  /** `imageResults` of an assistant message. */
  function ImageResults(parts: seq<UIPart>): seq<Json.JsonValue> {
    Json.FlatMap(parts, ImageContribution)
  }

  /** An image is shown iff some part contributes it. */
  lemma ImageResultsFromParts(parts: seq<UIPart>, v: Json.JsonValue)
    ensures v in ImageResults(parts) <==> exists i :: 0 <= i < |parts| && v in ImageContribution(parts[i])
  {
    Json.FlatMapMembers(parts, ImageContribution, v);
  }

  /** `parts.find(type === "tool-invocation")`. */
  function FirstToolInvocation(parts: seq<UIPart>): (r: Option<ToolInvocation>)
    ensures r.None? <==> forall i :: 0 <= i < |parts| ==> !parts[i].ToolInvocationPart?
    ensures r.Some? ==> exists i :: (0 <= i < |parts| && parts[i] == ToolInvocationPart(r.value)
      && forall j :: 0 <= j < i ==> !parts[j].ToolInvocationPart?)
  {
    if |parts| == 0 then None
    else if parts[0].ToolInvocationPart? then Some(parts[0].toolInvocation)
    else
      var r := FirstToolInvocation(parts[1..]);
      assert forall j :: 1 <= j < |parts| ==> parts[j] == parts[1..][j - 1];
      r
  }

  predicate HasReasoning(parts: seq<UIPart>) {
    exists i :: 0 <= i < |parts| && parts[i].ReasoningPart?
  }

  /** What an assistant message shows: its images (with its content as caption when non-empty), or a text. */
  datatype Display = Images(images: seq<Json.JsonValue>, caption: Option<string>) | TextDisplay(text: string)

  /**
   * While the first tool call is in flight a status line is shown; an empty message with no
   * reasoning shows "Loading..."; otherwise the content.
   */
  function AssistantDisplay(m: UIMessage): (r: Display)
    ensures r.Images? <==> |ImageResults(m.parts)| > 0
    ensures r.Images? ==> r.images == ImageResults(m.parts) && (r.caption.Some? <==> Truthy(m.content))
    ensures r.TextDisplay? && FirstToolInvocation(m.parts).Some? && FirstToolInvocation(m.parts).value.state == Call ==>
      r.text == (match FirstToolInvocation(m.parts).value.toolName
                 case "webSearch" => "Searching the web..."
                 case "generateImage" => "Generating image..."
                 case _ => "Invoking tool...")
    ensures r.TextDisplay? && !(FirstToolInvocation(m.parts).Some? && FirstToolInvocation(m.parts).value.state == Call) ==>
      r.text == (if m.content == "" && !HasReasoning(m.parts) then "Loading..." else m.content)
  {
    var images := ImageResults(m.parts);
    if |images| > 0 then Images(images, if Truthy(m.content) then Some(m.content) else None)
    else
      var toolInvoked := FirstToolInvocation(m.parts);
      if toolInvoked.Some? && toolInvoked.value.state == Call then
        TextDisplay(if toolInvoked.value.toolName == "webSearch" then "Searching the web..."
                    else if toolInvoked.value.toolName == "generateImage" then "Generating image..."
                    else "Invoking tool...")
      else if m.content == "" && !HasReasoning(m.parts) then TextDisplay("Loading...")
      else TextDisplay(m.content)
  }

  /** A message with no images and no tool call in flight shows exactly its content once that is non-empty. */
  lemma SettledMessageShowsContent(m: UIMessage)
    requires forall i :: 0 <= i < |m.parts| ==> ImageContribution(m.parts[i]) == []
    requires forall i :: 0 <= i < |m.parts| && m.parts[i].ToolInvocationPart? ==> m.parts[i].toolInvocation.state != Call
    requires m.content != ""
    ensures AssistantDisplay(m) == TextDisplay(m.content)
  {
    if |ImageResults(m.parts)| > 0 {
      ImageResultsFromParts(m.parts, ImageResults(m.parts)[0]);
    }
    var t := FirstToolInvocation(m.parts);
    if t.Some? {
      var i :| 0 <= i < |m.parts| && m.parts[i] == ToolInvocationPart(t.value) && forall j :: 0 <= j < i ==> !m.parts[j].ToolInvocationPart?;
    }
  }

  datatype ChatStatus = Submitted | Streaming | Ready | Errored

  /** The actions under an assistant message are hidden only on the last message while it streams. */
  predicate ShowActions(index: nat, count: nat, status: ChatStatus) {
    if index == count - 1 then status != Streaming else true
  }

  /** The positions of the assistant messages that show their actions. */
  function WithActions(ms: seq<UIMessage>, status: ChatStatus): (r: set<nat>)
    ensures forall i: nat :: i in r <==> i < |ms| && ms[i].role == AssistantRole && ShowActions(i, |ms|, status)
  {
    set i: nat | i < |ms| && ms[i].role == AssistantRole && ShowActions(i, |ms|, status)
  }

  /** Every assistant message shows its actions except the last one while the response is streaming. */
  lemma ActionsHiddenOnlyWhileStreaming(ms: seq<UIMessage>, status: ChatStatus, i: nat)
    requires i < |ms| && ms[i].role == AssistantRole
    ensures i !in WithActions(ms, status) <==> i == |ms| - 1 && status == Streaming
  {
  }
}
