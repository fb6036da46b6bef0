/**
 * Client-side chat messages as the chat SDK hands them to the components, and the SDK's chat
 * state that `setMessages` and `append` change.
 */
module UIMessages {
  import opened Wrappers
  import Json

  datatype UIRole = SystemRole | UserRole | AssistantRole | DataRole

  datatype InvocationState = PartialCall | Call | ResultState

  /** A tool call inside an assistant message; `result` is present once the tool returned. */
  datatype ToolInvocation = ToolInvocation(toolName: string, state: InvocationState, result: Option<Json.JsonValue>)

  /** The `type` of a part other than the three modelled ones, such as "step-start" or "file". */
  type OtherPartType = t: string | t != "text" && t != "reasoning" && t != "tool-invocation" witness "step-start"

  datatype UIPart =
    | TextPart(text: string)
    | ReasoningPart(reasoning: string)
    | ToolInvocationPart(toolInvocation: ToolInvocation)
    | OtherPart(partType: OtherPartType)

  /** The `type` tag of a part. */
  function PartType(p: UIPart): string {
    match p
    case TextPart(_) => "text"
    case ReasoningPart(_) => "reasoning"
    case ToolInvocationPart(_) => "tool-invocation"
    case OtherPart(t) => t
  }

  /** The `type` tag decides the constructor, so testing a constructor is testing `part.type`. */
  lemma PartTypeDecidesKind(p: UIPart)
    ensures PartType(p) == "text" <==> p.TextPart?
    ensures PartType(p) == "reasoning" <==> p.ReasoningPart?
    ensures PartType(p) == "tool-invocation" <==> p.ToolInvocationPart?
  {
  }

  /** An attachment as the client holds it: name and content type may be missing. */
  datatype ClientAttachment = ClientAttachment(url: string, name: Option<string>, contentType: Option<string>)

  datatype UIMessage = UIMessage(id: string, role: UIRole, content: string, parts: seq<UIPart>, attachments: Option<seq<ClientAttachment>>)

  function Ids(ms: seq<UIMessage>): (r: seq<string>)
    ensures |r| == |ms| && forall i :: 0 <= i < |ms| ==> r[i] == ms[i].id
  {
    seq(|ms|, i requires 0 <= i < |ms| => ms[i].id)
  }

  /** No two messages share an id. */
  predicate UniqueIds(ms: seq<UIMessage>) {
    forall i, j :: 0 <= i < j < |ms| ==> ms[i].id != ms[j].id
  }

  /** The updater both stream consumers pass to `setMessages`: append unless a message with that id exists. */
  function AppendIfAbsent(ms: seq<UIMessage>, m: UIMessage): (r: seq<UIMessage>)
    ensures m.id in Ids(r)
    ensures ms <= r && |r| <= |ms| + 1
    ensures forall id :: id in Ids(ms) ==> id in Ids(r)
    ensures forall id :: id in Ids(r) ==> id in Ids(ms) || id == m.id
    ensures UniqueIds(ms) ==> UniqueIds(r)
  {
    if m.id in Ids(ms) then ms
    else
      var r := ms + [m];
      assert Ids(r)[|ms|] == m.id;
      r
  }

  /** The body options of a request: `append(message)` sends none; `append(message, { body })` sends one. */
  datatype RequestOptions = NoBody | WithBody(chatId: Option<string>)

  /** A request the chat state sends to the chat route: the message list and the body options. */
  datatype ChatRequest = ChatRequest(messages: seq<UIMessage>, options: RequestOptions)

  /** The message the chat SDK builds for `append({ role, content })`, with an id it generates. */
  function AppendedMessage(id: string, role: UIRole, content: string): UIMessage {
    UIMessage(id, role, content, [TextPart(content)], None)
  }

  /** The chat SDK's state: the displayed messages and the requests sent so far. */
  class ChatSession {
    var messages: seq<UIMessage>
    var requests: seq<ChatRequest>

    constructor (initialMessages: seq<UIMessage>)
      ensures messages == initialMessages && requests == []
    {
      messages := initialMessages;
      requests := [];
    }

    /** `setMessages(list)`. */
    method SetMessages(ms: seq<UIMessage>)
      modifies this
      ensures messages == ms && requests == old(requests)
    {
      messages := ms;
    }

    /** `append(message, options)`: the new message is shown and the whole list is sent. */
    method Append(freshId: string, role: UIRole, content: string, options: RequestOptions)
      modifies this
      ensures messages == old(messages) + [AppendedMessage(freshId, role, content)]
      ensures requests == old(requests) + [ChatRequest(messages, options)]
    {
      messages := messages + [AppendedMessage(freshId, role, content)];
      requests := requests + [ChatRequest(messages, options)];
    }
  }
}
