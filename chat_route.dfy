/**
 * The chat route: POST resolves the model and tools, records a stream id and answers with the
 * response stream; its callbacks build the messages that are saved. GET resumes the latest stream
 * of a chat. Everything the handlers await is a parameter holding its result.
 */
module ChatRoute {
  import opened Wrappers
  import opened Text
  import Json
  import opened Schema
  import opened ModelsConfig
  import Models
  import Tools
  import opened UIMessages
  import ChatComponent
  import opened ConvexChat

  /** A resumable-stream context; its internals are not modelled. */
  datatype StreamContext = StreamContext(handle: nat)

  /** The module-level `globalStreamContext` and the constructions attempted so far. */
  class StreamContextCache {
    var context: Option<StreamContext>
    var attempts: nat

    constructor ()
      ensures context.None? && attempts == 0
    {
      context := None;
      attempts := 0;
    }

    /**
     * `getStreamContext`: a cached context is returned as it is; otherwise one construction is
     * attempted (`creation`, None when it throws) and its result cached.
     */
    method GetStreamContext(creation: Option<StreamContext>) returns (r: Option<StreamContext>)
      modifies this
      ensures old(context).Some? ==> r == old(context) && context == old(context) && attempts == old(attempts)
      ensures old(context).None? ==> r == creation && context == creation && attempts == old(attempts) + 1
    {
      if context.None? {
        context := creation;
        attempts := attempts + 1;
      }
      r := context;
    }
  }

  /** The stream ids recorded by `createStreamId`, with the chat id each was sent with. */
  class StreamRegistry {
    var records: seq<(Option<string>, string)>

    constructor ()
      ensures records == []
    {
      records := [];
    }

    method CreateStreamId(chatId: Option<string>, streamId: string)
      modifies this
      ensures records == old(records) + [(chatId, streamId)]
    {
      records := records + [(chatId, streamId)];
    }
  }

  /** The tools handed to the model. */
  datatype ToolSet = ToolSet(webSearch: Option<Tools.WebSearch>, generateImage: Option<Tools.ImageGeneration>)

  /**
   * The tool set of a request: web search when asked for and the model supports it (building it
   * throws without a search key), image generation when asked for.
   */
  function ToolsFor(body: ChatComponent.BodyRequest, supportsWebSearch: bool, env: Tools.Env): (r: Result<ToolSet, string>)
    ensures r.Err? <==> body.search && supportsWebSearch && Tools.WebSearchTool(env).Err?
    ensures r.Err? ==> r.error == "TAVILY_API_KEY is not set"
    ensures r.Ok? ==> (r.value.webSearch.Some? <==> body.search && supportsWebSearch)
    ensures r.Ok? && r.value.webSearch.Some? ==> r.value.webSearch == Some(Tools.WebSearchTool(env).value)
    ensures r.Ok? ==> (r.value.generateImage ==
      if body.generateImage then Some(Tools.ImageGeneration(body.toolsApiKey.runware, body.imageGenModel)) else None)
  {
    var image := if body.generateImage then Some(Tools.ImageGeneration(body.toolsApiKey.runware, body.imageGenModel)) else None;
    if body.search && supportsWebSearch then
      match Tools.WebSearchTool(env)
      case Err(e) => Err(e)
      case Ok(search) => Ok(ToolSet(Some(search), image))
    else Ok(ToolSet(None, image))
  }

  /** What a response carries. */
  datatype Body =
    | TextBody(text: string)
    | NoContent
    | DataStream(streamId: string, resumable: bool)
    | ResumedStream(streamId: string)
    | EmptyDataStream
    | Restored(event: AppendMessageEvent)

  datatype HttpResponse = HttpResponse(status: nat, body: Body)

  /** The "append-message" event written when a concluded response is restored. */
  datatype AppendMessageEvent = AppendMessageEvent(
    id: MessageId, role: Role, content: string, parts: Option<Json.JsonValue>,
    attachments: seq<Attachment>, createdAt: nat)

  /**
   * POST: authenticate, resolve the model (its failure is a thrown error, answered 400 with its
   * message), build the tools, record a fresh stream id and answer with the stream, resumable when
   * a stream context exists. `registration` is the error of `createStreamId`, if it throws.
   */
  method Post(cache: StreamContextCache, registry: StreamRegistry, creation: Option<StreamContext>,
              body: ChatComponent.BodyRequest, token: Option<string>,
              ids: Table<string>, table: Table<ModelConfig>, env: Models.Env,
              freshStreamId: string, registration: Option<string>)
    returns (r: HttpResponse, tools: Option<ToolSet>)
    modifies cache, registry
    ensures r.status != 404
    ensures !ChatComponent.Given(token) ==>
      r == HttpResponse(401, TextBody("Unauthorized")) && tools.None? && unchanged(cache, registry)
    ensures r.status == 200 <==> tools.Some?
    ensures r.status == 200 ==>
      && registry.records == old(registry.records) + [(body.chatId, freshStreamId)]
      && r.body == DataStream(freshStreamId, cache.context.Some?)
      && (old(cache.context).Some? ==> cache.context == old(cache.context) && cache.attempts == old(cache.attempts))
      && (old(cache.context).None? ==> cache.context == creation && cache.attempts == old(cache.attempts) + 1)
    ensures r.status != 200 ==> registry.records == old(registry.records) && unchanged(cache)
    ensures r.status == 400 ==> r.body.TextBody?
    ensures r.status in {200, 400, 401}
    ensures ChatComponent.Given(token) ==>
      var m := Models.ModelResolution(Some(body.model), body.apiKey, ids, table, env);
      && (m.Err? ==> r == HttpResponse(400, TextBody(m.error)))
      && (m.Ok? ==>
            var t := ToolsFor(body, m.value.supportsWebSearch, env);
            && (t.Err? ==> r == HttpResponse(400, TextBody(t.error)))
            && (t.Ok? && registration.Some? ==> r == HttpResponse(400, TextBody(registration.value)))
            && (t.Ok? && registration.None? ==> r.status == 200 && tools == Some(t.value)))
  {
    tools := None;
    if !ChatComponent.Given(token) {
      return HttpResponse(401, TextBody("Unauthorized")), None;
    }
    var model := Models.GetModel(Some(body.model), body.apiKey, ids, table, env);
    if model.Err? {
      return HttpResponse(400, TextBody(model.error)), None;
    }
    var toolSet := ToolsFor(body, model.value.supportsWebSearch, env);
    if toolSet.Err? {
      return HttpResponse(400, TextBody(toolSet.error)), None;
    }
    if registration.Some? {
      return HttpResponse(400, TextBody(registration.value)), None;
    }
    registry.CreateStreamId(body.chatId, freshStreamId);
    var context := cache.GetStreamContext(creation);
    r := HttpResponse(200, DataStream(freshStreamId, context.Some?));
    tools := Some(toolSet.value);
  }

  /** The arguments of one `createMessage` call from the route. */
  datatype CreateMessageArgs = CreateMessageArgs(
    chatId: Option<string>,
    content: string,
    role: Role,
    parts: string,
    attachments: Option<seq<Attachment>>,
    storageIds: Option<seq<Json.JsonValue>>)

  /** An attachment as saved: a missing name or content type becomes "". */
  function SavedAttachment(a: ClientAttachment): (s: Attachment)
    ensures s.url == a.url
    ensures s.name == (if ChatComponent.Given(a.name) then a.name.value else "")
    ensures s.contentType == (if ChatComponent.Given(a.contentType) then a.contentType.value else "")
  {
    Attachment(
      if ChatComponent.Given(a.contentType) then a.contentType.value else "",
      a.url,
      if ChatComponent.Given(a.name) then a.name.value else "")
  }

  /** What one `onStepFinish` call does: nothing, one `createMessage` call, or a thrown TypeError. */
  datatype StepWrite = NoWrite | Write(args: CreateMessageArgs) | Throws

  /**
   * `onStepFinish`: only the initial step saves the user's message, as it was sent, its parts
   * JSON-encoded and its attachments normalised. Without a message, reading its attachments throws.
   */
  function UserMessageArgs(stepType: string, chatId: Option<string>, message: Option<UIMessage>, stringify: seq<UIPart> -> string)
    : (r: StepWrite)
    ensures r.NoWrite? <==> stepType != "initial"
    ensures r.Throws? <==> stepType == "initial" && message.None?
    ensures r.Write? ==>
      && r.args.chatId == chatId && r.args.role == User
      && r.args.content == message.value.content && r.args.parts == stringify(message.value.parts)
      && r.args.storageIds.None?
      && (r.args.attachments.Some? <==> message.value.attachments.Some?)
      && (r.args.attachments.Some? ==>
            |r.args.attachments.value| == |message.value.attachments.value|
            && forall i :: 0 <= i < |r.args.attachments.value| ==>
                 r.args.attachments.value[i] == SavedAttachment(message.value.attachments.value[i]))
  {
    if stepType != "initial" then NoWrite
    else
      match message
      case None => Throws
      case Some(m) =>
        var saved := if m.attachments.Some? then
          Some(seq(|m.attachments.value|, i requires 0 <= i < |m.attachments.value| => SavedAttachment(m.attachments.value[i])))
          else None;
        Write(CreateMessageArgs(chatId, m.content, User, stringify(m.parts), saved, None))
  }

  const ErrorPlaceholder: string := "Some error occurred during the generation " + "of the response, regenerate the response."

  /** The storage ids one part contributes: a "generateImage" invocation's `result?.storageIds || []`, spread. */
  function StorageContribution(p: UIPart): seq<Json.JsonValue> {
    if p.ToolInvocationPart? && p.toolInvocation.toolName == "generateImage" && p.toolInvocation.result.Some? then
      match Json.Get(p.toolInvocation.result.value, "storageIds")
      case Some(v) => if Json.Truthy(v) then Json.Spread(v) else []
      case None => []
    else []
  }

  /** `allStorageIds`: the contributions of all parts, in order. */
  function StorageIdsOf(parts: seq<UIPart>): seq<Json.JsonValue> {
    Json.FlatMap(parts, StorageContribution)
  }

  /** A storage id is collected iff some image-generation part carries it. */
  lemma StorageIdsFromParts(parts: seq<UIPart>, v: Json.JsonValue)
    ensures v in StorageIdsOf(parts) <==> exists i :: 0 <= i < |parts| && v in StorageContribution(parts[i])
  {
    Json.FlatMapMembers(parts, StorageContribution, v);
  }

  /** The part of a tool result that carries an array of storage ids contributes exactly that array. */
  lemma ImagePartContributesIds(ids: seq<Json.JsonValue>)
    ensures StorageContribution(ToolInvocationPart(ToolInvocation("generateImage", ResultState,
      Some(Json.JObject([("storageIds", Json.JArray(ids))]))))) == ids
  {
  }

  /**
   * `onFinish`: the assistant message is saved with its content, or the error placeholder when the
   * content is blank, with the storage ids of its generated images when there are any.
   */
  function AssistantMessageArgs(chatId: Option<string>, assistant: UIMessage, stringify: seq<UIPart> -> string)
    : (r: CreateMessageArgs)
    ensures r.chatId == chatId && r.role == Assistant && r.parts == stringify(assistant.parts) && r.attachments.None?
    ensures !AllWhitespace(r.content)
    ensures !AllWhitespace(assistant.content) ==> r.content == assistant.content
    ensures AllWhitespace(assistant.content) ==> r.content == ErrorPlaceholder
    ensures r.storageIds.Some? <==> |StorageIdsOf(assistant.parts)| > 0
    ensures r.storageIds.Some? ==> r.storageIds.value == StorageIdsOf(assistant.parts)
  {
    var content := if Trim(assistant.content) != "" then assistant.content else ErrorPlaceholder;
    assert ErrorPlaceholder[0] == 'S';
    var ids := StorageIdsOf(assistant.parts);
    CreateMessageArgs(chatId, content, Assistant, stringify(assistant.parts), None, if |ids| > 0 then Some(ids) else None)
  }

  /** `x / y` truncated toward zero, as `Math.trunc` does. */
  function TruncDiv(x: int, y: nat): (q: int)
    requires y > 0
    ensures x >= 0 ==> q >= 0 && 0 <= x - q * y < y
    ensures x < 0 ==> q <= 0 && 0 <= q * y - x < y
  {
    if x >= 0 then x / y else -((-x) / y)
  }

  /** `differenceInSeconds(later, earlier)` on millisecond timestamps: whole seconds, truncated toward zero. */
  function DifferenceInSeconds(later: int, earlier: int): int {
    TruncDiv(later - earlier, 1000)
  }

  /** A message counts as fresh (at most 15 whole seconds old) exactly when it is less than 16 seconds old. */
  lemma FreshnessWindow(later: int, earlier: int)
    ensures DifferenceInSeconds(later, earlier) <= 15 <==> later - earlier < 16000
  {
    var d := later - earlier;
    if d >= 0 {
      if d < 16000 {
        assert d / 1000 <= 15;
      } else {
        assert d / 1000 >= 16;
      }
    } else {
      assert (-d) / 1000 >= 0;
    }
  }

  /** The value a query call resolves to, as the fallback reads it: a bare array or a response envelope. */
  datatype QueryValue = BareArray(items: seq<MessageDoc>) | Envelope(success: bool, data: Option<seq<MessageDoc>>)

  /** The event restoring message `m`; stored parts are JSON-decoded, missing ones become []. */
  function RestoreEvent(m: MessageDoc, parse: string -> Option<Json.JsonValue>): AppendMessageEvent {
    AppendMessageEvent(m.docId, m.role, m.content,
      if Truthy(m.parts) then parse(m.parts) else Some(Json.JArray([])),
      m.attachments.GetOr([]), m.creationTime)
  }

  /**
   * The fallback when no stream can be resumed: restore the chat's latest message when the query
   * reports success with data and that message is an assistant message written within the last
   * 15 seconds; otherwise an empty stream.
   */
  function ResumeFallback(query: QueryValue, now: int, parse: string -> Option<Json.JsonValue>): (b: Body)
    ensures b.Restored? || b == EmptyDataStream
    ensures b.Restored? <==>
      && query.Envelope? && query.success && query.data.Some? && |query.data.value| > 0
      && Last(query.data.value).role == Assistant
      && now - Last(query.data.value).creationTime < 16000
    ensures b.Restored? ==> b.event == RestoreEvent(Last(query.data.value), parse)
  {
    match query
    case BareArray(_) => EmptyDataStream
    case Envelope(success, data) =>
      if !success || data.None? || |data.value| == 0 then EmptyDataStream
      else
        var last := Last(data.value);
        FreshnessWindow(now, last.creationTime);
        if last.role != Assistant then EmptyDataStream
        else if DifferenceInSeconds(now, last.creationTime) > 15 then EmptyDataStream
        else Restored(RestoreEvent(last, parse))
  }

  /**
   * GET: resume the latest stream of the chat named by the `chatId` parameter. The awaited
   * queries are parameters; `Err` means the call threw, which the handler answers with 500.
   * `getMessages` resolves to a bare array, so the fallback always answers with an empty stream.
   */
  method Get(cache: StreamContextCache, creation: Option<StreamContext>, now: int,
             chatIdParam: Option<string>, token: Option<string>,
             chatQuery: Result<Response<Option<ChatDoc>>, string>,
             streamIdsQuery: Result<Response<Option<seq<string>>>, string>,
             resumed: Result<bool, string>,
             messagesQuery: Result<seq<MessageDoc>, string>,
             parse: string -> Option<Json.JsonValue>)
    returns (r: HttpResponse)
    modifies cache
    ensures old(cache.context).Some? ==> cache.context == old(cache.context) && cache.attempts == old(cache.attempts)
    ensures old(cache.context).None? ==> cache.context == creation && cache.attempts == old(cache.attempts) + 1
    ensures cache.context.None? ==> r == HttpResponse(204, NoContent)
    ensures cache.context.Some? && !ChatComponent.Given(chatIdParam) ==>
      r == HttpResponse(400, TextBody("Bad Request: Missing chatId parameter"))
    ensures cache.context.Some? && ChatComponent.Given(chatIdParam) && !ChatComponent.Given(token) ==>
      r == HttpResponse(401, TextBody("Unauthorized"))
    ensures cache.context.Some? && ChatComponent.Given(chatIdParam) && ChatComponent.Given(token) ==>
      && (chatQuery.Err? ==> r == HttpResponse(500, TextBody("Internal Server Error")))
      && (chatQuery.Ok? && !(chatQuery.value.Success? && chatQuery.value.data.Some?) ==>
            r == HttpResponse(404, TextBody("Chat not found")))
    ensures cache.context.Some? && ChatComponent.Given(chatIdParam) && ChatComponent.Given(token)
            && chatQuery.Ok? && chatQuery.value.Success? && chatQuery.value.data.Some? ==>
      && (streamIdsQuery.Err? ==> r == HttpResponse(500, TextBody("Internal Server Error")))
      && (streamIdsQuery.Ok? && !(streamIdsQuery.value.Success? && streamIdsQuery.value.data.Some?
                                  && |streamIdsQuery.value.data.value| > 0) ==>
            r == HttpResponse(404, TextBody("No streams found")))
      && (streamIdsQuery.Ok? && streamIdsQuery.value.Success? && streamIdsQuery.value.data.Some?
          && |streamIdsQuery.value.data.value| > 0 ==>
            var recent := Last(streamIdsQuery.value.data.value);
            && (recent == "" ==> r == HttpResponse(404, TextBody("No recent stream found")))
            && (recent != "" && resumed.Err? ==> r == HttpResponse(500, TextBody("Internal Server Error")))
            && (recent != "" && resumed == Ok(true) ==> r == HttpResponse(200, ResumedStream(recent)))
            && (recent != "" && resumed == Ok(false) ==>
                  r == if messagesQuery.Err? then HttpResponse(500, TextBody("Internal Server Error"))
                       else HttpResponse(200, EmptyDataStream)))
    ensures r.status == 200 ==>
      && streamIdsQuery.Ok? && streamIdsQuery.value.Success? && streamIdsQuery.value.data.Some?
      && |streamIdsQuery.value.data.value| > 0
      && var recent := Last(streamIdsQuery.value.data.value);
         recent != "" && resumed.Ok? && (resumed.value || messagesQuery.Ok?)
    ensures r.status == 200 ==> r.body == ResumedStream(Last(streamIdsQuery.value.data.value)) || r.body == EmptyDataStream
    ensures r.status in {200, 204, 400, 401, 404, 500}
    ensures !r.body.Restored?
  {
    var context := cache.GetStreamContext(creation);
    if context.None? {
      return HttpResponse(204, NoContent);
    }
    if !ChatComponent.Given(chatIdParam) {
      return HttpResponse(400, TextBody("Bad Request: Missing chatId parameter"));
    }
    if !ChatComponent.Given(token) {
      return HttpResponse(401, TextBody("Unauthorized"));
    }
    if chatQuery.Err? {
      return HttpResponse(500, TextBody("Internal Server Error"));
    }
    if !(chatQuery.value.Success? && chatQuery.value.data.Some?) {
      return HttpResponse(404, TextBody("Chat not found"));
    }
    if streamIdsQuery.Err? {
      return HttpResponse(500, TextBody("Internal Server Error"));
    }
    if !(streamIdsQuery.value.Success? && streamIdsQuery.value.data.Some? && |streamIdsQuery.value.data.value| > 0) {
      return HttpResponse(404, TextBody("No streams found"));
    }
    var recent := Last(streamIdsQuery.value.data.value);
    if recent == "" {
      return HttpResponse(404, TextBody("No recent stream found"));
    }
    if resumed.Err? {
      return HttpResponse(500, TextBody("Internal Server Error"));
    }
    if resumed.value {
      return HttpResponse(200, ResumedStream(recent));
    }
    if messagesQuery.Err? {
      return HttpResponse(500, TextBody("Internal Server Error"));
    }
    var fallback := ResumeFallback(BareArray(messagesQuery.value), now, parse);
    r := HttpResponse(200, fallback);
  }
}
