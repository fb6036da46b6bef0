/**
 * "Regenerate response" on an assistant message: drop the message, the user message before it
 * and everything after, then send that user message's content again as a new user message.
 */
module AssistantMessageActions {
  import opened UIMessages

  /** `findIndex` by id: the first position holding that id, or -1. */
  function FindIndex(ms: seq<UIMessage>, id: string): (i: int)
    ensures -1 <= i < |ms|
    ensures i == -1 <==> id !in Ids(ms)
    ensures i >= 0 ==> ms[i].id == id && forall j :: 0 <= j < i ==> ms[j].id != id
  {
    if |ms| == 0 then -1
    else if ms[0].id == id then 0
    else
      var k := FindIndex(ms[1..], id);
      assert forall j :: 0 <= j < |ms| - 1 ==> Ids(ms[1..])[j] == Ids(ms)[j + 1];
      if k == -1 then -1 else k + 1
  }

  /**
   * What a click does to a message list. At index 0 there is no preceding message: the list is
   * first cut by `slice(0, -1)` (dropping its last element) and then reading the missing message
   * throws, so nothing is appended.
   */
  datatype Regeneration =
    | NotFound
    | Regenerate(truncated: seq<UIMessage>, userContent: string)
    | Fault(truncated: seq<UIMessage>)

  function RegenerationOf(ms: seq<UIMessage>, id: string): (r: Regeneration)
    ensures r.NotFound? <==> id !in Ids(ms)
    ensures r.Fault? <==> |ms| > 0 && ms[0].id == id
  {
    var i := FindIndex(ms, id);
    if i == -1 then NotFound
    else if i == 0 then Fault(ms[..|ms| - 1])
    else Regenerate(ms[..i - 1], ms[i - 1].content)
  }

  /**
   * For a message at index i >= 1: the list keeps its first i - 1 messages, drops the n - i + 1
   * messages from the preceding user message on, and the re-sent content is that message's.
   */
  lemma RegenerateKeepsPrefix(ms: seq<UIMessage>, id: string)
    ensures var r := RegenerationOf(ms, id); var i := FindIndex(ms, id);
      r.Regenerate? ==>
        && i >= 1
        && r.truncated == ms[..i - 1] && r.truncated <= ms
        && |ms| - |r.truncated| == |ms| - i + 1
        && r.userContent == ms[i - 1].content
  {
  }

  /** After regenerating, the list has exactly as many messages as preceded the regenerated one. */
  lemma RegeneratedLength(ms: seq<UIMessage>, id: string, freshId: string)
    ensures var r := RegenerationOf(ms, id);
      r.Regenerate? ==>
        var after := r.truncated + [AppendedMessage(freshId, UserRole, r.userContent)];
        && |after| == FindIndex(ms, id)
        && after[|after| - 1].role == UserRole
        && after[|after| - 1].content == ms[FindIndex(ms, id) - 1].content
  {
  }

  /** Regenerating the first message loses the last message of the list and sends nothing. */
  lemma RegenerateFirstDropsLast(ms: seq<UIMessage>)
    requires |ms| > 0
    ensures RegenerationOf(ms, ms[0].id) == Fault(ms[..|ms| - 1])
  {
  }

  /**
   * `handleRegenerate`: the chat state is truncated and, when a preceding message exists,
   * `freshId` names the re-sent user message (the SDK generates it). Returns whether the
   * handler threw.
   */
  method HandleRegenerate(session: ChatSession, message: UIMessage, freshId: string) returns (threw: bool)
    modifies session
    ensures match RegenerationOf(old(session.messages), message.id)
      case NotFound => !threw && session.messages == old(session.messages) && session.requests == old(session.requests)
      case Fault(t) => threw && session.messages == t && session.requests == old(session.requests)
      case Regenerate(t, c) =>
        && !threw
        && session.messages == t + [AppendedMessage(freshId, UserRole, c)]
        && session.requests == old(session.requests) + [ChatRequest(session.messages, NoBody)]
  {
    var messages := session.messages;
    var currentMessageIndex := FindIndex(messages, message.id);
    if currentMessageIndex == -1 {
      return false;
    }
    if currentMessageIndex == 0 {
      session.SetMessages(messages[..|messages| - 1]);
      return true;
    }
    var userMessage := messages[currentMessageIndex - 1];
    session.SetMessages(messages[..currentMessageIndex - 1]);
    session.Append(freshId, UserRole, userMessage.content, NoBody);
    return false;
  }
}
