/**
 * The auto-resume hook: on mount it asks the chat SDK to resume a stream when the last initial
 * message is the user's; whenever the stream data changes it appends every message carried by an
 * "append-message" part that is not shown yet.
 */
module UseAutoResume {
  import opened Wrappers
  import opened UIMessages

  /** One entry of the stream's data array: its `type` and its JSON-encoded `message`, if any. */
  datatype DataPart = DataPart(partType: string, message: Option<string>)

  /** `JSON.parse` of a message string into a chat message; None when it throws. */
  type Parser = string -> Option<UIMessage>

  /** `JSON.parse(dataPart.message)`: a missing message cannot be parsed. */
  function ParseMessage(part: DataPart, parse: Parser): Option<UIMessage> {
    if part.message.Some? then parse(part.message.value) else None
  }

  /** The message an "append-message" part contributes, if it parses. */
  function Carried(part: DataPart, parse: Parser): Option<UIMessage> {
    if part.partType == "append-message" then ParseMessage(part, parse) else None
  }

  predicate ShouldResume(autoResume: bool, initialMessages: seq<UIMessage>) {
    autoResume && |initialMessages| > 0 && initialMessages[|initialMessages| - 1].role == UserRole
  }

  /** The hook's mount effect, which runs once per mounted component. */
  class AutoResumeHook {
    var mounted: bool

    constructor ()
      ensures !mounted
    {
      mounted := false;
    }

    /** Returns whether `experimental_resume` is called. */
    method MountEffect(autoResume: bool, initialMessages: seq<UIMessage>) returns (resumed: bool)
      modifies this
      ensures resumed <==> !old(mounted) && ShouldResume(autoResume, initialMessages)
      ensures mounted
    {
      if mounted {
        return false;
      }
      mounted := true;
      if !autoResume {
        return false;
      }
      resumed := |initialMessages| > 0 && initialMessages[|initialMessages| - 1].role == UserRole;
    }
  }

  function ApplyPart(ms: seq<UIMessage>, part: DataPart, parse: Parser): seq<UIMessage> {
    match Carried(part, parse)
    case None => ms
    case Some(m) => AppendIfAbsent(ms, m)
  }

  /** The queued `setMessages` updaters of one run, applied in data order. */
  function ProcessData(ms: seq<UIMessage>, data: seq<DataPart>, parse: Parser): seq<UIMessage> {
    if |data| == 0 then ms
    else ApplyPart(ProcessData(ms, data[..|data| - 1], parse), data[|data| - 1], parse)
  }

  /** The data effect. `None` stands for a missing `data`. */
  method DataEffect(session: ChatSession, data: Option<seq<DataPart>>, parse: Parser)
    modifies session
    ensures data.None? || |data.value| == 0 ==> session.messages == old(session.messages)
    ensures data.Some? && |data.value| > 0 ==> session.messages == ProcessData(old(session.messages), data.value, parse)
    ensures session.requests == old(session.requests)
  {
    if data.None? || |data.value| == 0 {
      return;
    }
    var parts := data.value;
    var i := 0;
    while i < |parts|
      invariant 0 <= i <= |parts|
      invariant session.messages == ProcessData(old(session.messages), parts[..i], parse)
      invariant session.requests == old(session.requests)
    {
      assert parts[..i + 1][..i] == parts[..i];
      var message := Carried(parts[i], parse);
      if message.Some? {
        session.SetMessages(AppendIfAbsent(session.messages, message.value));
      }
      i := i + 1;
    }
    assert parts[..|parts|] == parts;
  }

  /** Processing only appends: what was shown stays, in place, and nothing is shown twice. */
  lemma {:induction false} ProcessDataExtends(ms: seq<UIMessage>, data: seq<DataPart>, parse: Parser)
    ensures ms <= ProcessData(ms, data, parse)
    ensures UniqueIds(ms) ==> UniqueIds(ProcessData(ms, data, parse))
    ensures forall id :: id in Ids(ms) ==> id in Ids(ProcessData(ms, data, parse))
  {
    if |data| > 0 {
      ProcessDataExtends(ms, data[..|data| - 1], parse);
    }
  }

  /** Every message some part carries is shown afterwards. */
  lemma {:induction false} ProcessDataCovers(ms: seq<UIMessage>, data: seq<DataPart>, parse: Parser)
    ensures forall i :: 0 <= i < |data| && Carried(data[i], parse).Some? ==>
      Carried(data[i], parse).value.id in Ids(ProcessData(ms, data, parse))
  {
    if |data| > 0 {
      var init := data[..|data| - 1];
      ProcessDataCovers(ms, init, parse);
      forall i | 0 <= i < |data| - 1 && Carried(data[i], parse).Some?
        ensures Carried(data[i], parse).value.id in Ids(ProcessData(ms, data, parse))
      {
        assert init[i] == data[i];
      }
    }
  }

  /** A run changes nothing when every carried message is already shown. */
  lemma {:induction false} ProcessDataNoop(ms: seq<UIMessage>, data: seq<DataPart>, parse: Parser)
    requires forall i :: 0 <= i < |data| && Carried(data[i], parse).Some? ==> Carried(data[i], parse).value.id in Ids(ms)
    ensures ProcessData(ms, data, parse) == ms
  {
    if |data| > 0 {
      var init := data[..|data| - 1];
      forall i | 0 <= i < |init| && Carried(init[i], parse).Some? ensures Carried(init[i], parse).value.id in Ids(ms) {
        assert init[i] == data[i];
      }
      ProcessDataNoop(ms, init, parse);
    }
  }

  /** Running the effect again on the same data shows nothing new. */
  lemma ProcessDataIdempotent(ms: seq<UIMessage>, data: seq<DataPart>, parse: Parser)
    ensures ProcessData(ProcessData(ms, data, parse), data, parse) == ProcessData(ms, data, parse)
  {
    ProcessDataCovers(ms, data, parse);
    ProcessDataNoop(ProcessData(ms, data, parse), data, parse);
  }

  /** Processing `a + b` is processing `a`, then `b`. */
  lemma {:induction false} ProcessDataConcat(ms: seq<UIMessage>, a: seq<DataPart>, b: seq<DataPart>, parse: Parser)
    ensures ProcessData(ms, a + b, parse) == ProcessData(ProcessData(ms, a, parse), b, parse)
  {
    if |b| == 0 {
      assert a + b == a;
    } else {
      assert (a + b)[..|a + b| - 1] == a + b[..|b| - 1];
      ProcessDataConcat(ms, a, b[..|b| - 1], parse);
    }
  }

  /**
   * The data array only grows while a stream is read, and the effect re-runs over all of it: the
   * re-run over a grown array shows what one run over that array would.
   */
  lemma GrownDataRerun(ms: seq<UIMessage>, seen: seq<DataPart>, more: seq<DataPart>, parse: Parser)
    ensures ProcessData(ProcessData(ms, seen, parse), seen + more, parse) == ProcessData(ms, seen + more, parse)
  {
    ProcessDataConcat(ProcessData(ms, seen, parse), seen, more, parse);
    ProcessDataIdempotent(ms, seen, parse);
    ProcessDataConcat(ms, seen, more, parse);
  }

  /** A part that is not an "append-message", or whose message does not parse, is skipped and later parts still count. */
  lemma SkippedPartChangesNothing(ms: seq<UIMessage>, before: seq<DataPart>, part: DataPart, after: seq<DataPart>, parse: Parser)
    requires Carried(part, parse).None?
    ensures ProcessData(ms, before + [part] + after, parse) == ProcessData(ms, before + after, parse)
  {
    ProcessDataConcat(ms, before + [part], after, parse);
    assert (before + [part])[..|before + [part]| - 1] == before;
    ProcessDataConcat(ms, before, after, parse);
  }
}
