/** The general message actions: the same copy and regenerate handlers as for assistant messages. */
module MessageActions {
  import opened UIMessages
  import AssistantMessageActions

  /** `handleRegenerate` of the general actions; its steps are those of the assistant actions. */
  method HandleRegenerate(session: ChatSession, message: UIMessage, freshId: string) returns (threw: bool)
    modifies session
    ensures match AssistantMessageActions.RegenerationOf(old(session.messages), message.id)
      case NotFound => !threw && session.messages == old(session.messages) && session.requests == old(session.requests)
      case Fault(t) => threw && session.messages == t && session.requests == old(session.requests)
      case Regenerate(t, c) =>
        && !threw
        && session.messages == t + [AppendedMessage(freshId, UserRole, c)]
        && session.requests == old(session.requests) + [ChatRequest(session.messages, NoBody)]
  {
    threw := AssistantMessageActions.HandleRegenerate(session, message, freshId);
  }
}
