/**
 * The data-stream handler: walks the stream's data array, and for every "append-message" part
 * not yet processed, appends the carried message unless one with that id is shown. A part counts
 * as processed, under a key made of the chat id, its position and its type, once its message was
 * parsed; a part whose message fails to parse stays unprocessed and is retried on the next run.
 */
module StreamHandler {
  import opened Wrappers
  import opened Text
  import opened UIMessages
  import opened UseAutoResume

  function DataKey(id: string, index: nat, partType: string): string {
    id + "-" + NatToString(index) + "-" + partType
  }

  /** The message a part carries: an "append-message" with a non-empty message that parses. */
  function Marked(part: DataPart, parse: Parser): Option<UIMessage> {
    if part.partType == "append-message" && part.message.Some? && Truthy(part.message.value) then parse(part.message.value)
    else None
  }

  /** The shown messages and the processed keys. */
  datatype HandlerState = HandlerState(messages: seq<UIMessage>, processed: set<string>)

  function HandlePart(s: HandlerState, id: string, index: nat, part: DataPart, parse: Parser): HandlerState {
    var key := DataKey(id, index, part.partType);
    if key in s.processed then s
    else
      match Marked(part, parse)
      case None => s
      case Some(m) => HandlerState(AppendIfAbsent(s.messages, m), s.processed + {key})
  }

  /** One run of the effect, the parts taken in order with their positions. */
  function HandleData(s: HandlerState, id: string, data: seq<DataPart>, parse: Parser): HandlerState {
    if |data| == 0 then s
    else HandlePart(HandleData(s, id, data[..|data| - 1], parse), id, |data| - 1, data[|data| - 1], parse)
  }

  class DataStreamHandler {
    const id: string
    var processed: set<string>

    constructor (id: string)
      ensures this.id == id && processed == {}
    {
      this.id := id;
      processed := {};
    }

    /** The effect; `None` stands for a missing `data`. */
    method Effect(session: ChatSession, data: Option<seq<DataPart>>, parse: Parser)
      modifies this, session
      ensures data.None? || |data.value| == 0 ==> session.messages == old(session.messages) && processed == old(processed)
      ensures data.Some? && |data.value| > 0 ==>
        HandlerState(session.messages, processed) == HandleData(HandlerState(old(session.messages), old(processed)), id, data.value, parse)
      ensures session.requests == old(session.requests)
    {
      if data.None? || |data.value| == 0 {
        return;
      }
      var parts := data.value;
      var index := 0;
      while index < |parts|
        invariant 0 <= index <= |parts|
        invariant HandlerState(session.messages, processed) == HandleData(HandlerState(old(session.messages), old(processed)), id, parts[..index], parse)
        invariant session.requests == old(session.requests)
      {
        assert parts[..index + 1][..index] == parts[..index];
        var part := parts[index];
        var dataKey := DataKey(id, index, part.partType);
        if dataKey !in processed {
          var message := Marked(part, parse);
          if message.Some? {
            session.SetMessages(AppendIfAbsent(session.messages, message.value));
            processed := processed + {dataKey};
          }
        }
        index := index + 1;
      }
      assert parts[..|parts|] == parts;
    }
  }

  /** A part is settled when its key is processed or it carries nothing. */
  predicate Settled(processed: set<string>, id: string, data: seq<DataPart>, parse: Parser) {
    forall i :: 0 <= i < |data| ==> DataKey(id, i, data[i].partType) in processed || Marked(data[i], parse).None?
  }

  /** Keys are only ever added and messages only appended, never twice. */
  lemma {:induction false} HandleDataGrows(s: HandlerState, id: string, data: seq<DataPart>, parse: Parser)
    ensures var t := HandleData(s, id, data, parse);
      && s.processed <= t.processed
      && s.messages <= t.messages
      && (UniqueIds(s.messages) ==> UniqueIds(t.messages))
  {
    if |data| > 0 {
      HandleDataGrows(s, id, data[..|data| - 1], parse);
    }
  }

  /** Every key a run adds is that of a part which carried a message. */
  lemma {:induction false} NewKeysAreMarked(s: HandlerState, id: string, data: seq<DataPart>, parse: Parser, k: string)
    requires k in HandleData(s, id, data, parse).processed && k !in s.processed
    ensures exists i :: 0 <= i < |data| && k == DataKey(id, i, data[i].partType) && Marked(data[i], parse).Some?
  {
    var init := data[..|data| - 1];
    var u := HandleData(s, id, init, parse);
    if k in u.processed {
      NewKeysAreMarked(s, id, init, parse, k);
      var i :| 0 <= i < |init| && k == DataKey(id, i, init[i].partType) && Marked(init[i], parse).Some?;
      assert data[i] == init[i];
    } else {
      assert k == DataKey(id, |data| - 1, data[|data| - 1].partType);
    }
  }

  /** Handling a part keeps every processed key and settles that part. */
  lemma HandlePartSettles(s: HandlerState, id: string, index: nat, part: DataPart, parse: Parser)
    ensures var t := HandlePart(s, id, index, part, parse);
      && s.processed <= t.processed
      && (DataKey(id, index, part.partType) in t.processed || Marked(part, parse).None?)
  {
  }

  /** After a run every part of that data is settled. */
  lemma {:induction false} HandleDataSettles(s: HandlerState, id: string, data: seq<DataPart>, parse: Parser)
    ensures Settled(HandleData(s, id, data, parse).processed, id, data, parse)
  {
    if |data| > 0 {
      var init := data[..|data| - 1];
      HandleDataSettles(s, id, init, parse);
      var u := HandleData(s, id, init, parse);
      var t := HandlePart(u, id, |data| - 1, data[|data| - 1], parse);
      assert HandleData(s, id, data, parse) == t;
      HandlePartSettles(u, id, |data| - 1, data[|data| - 1], parse);
      forall i | 0 <= i < |data|
        ensures DataKey(id, i, data[i].partType) in t.processed || Marked(data[i], parse).None?
      {
        if i < |init| {
          assert init[i] == data[i];
        }
      }
    }
  }

  /** A run over settled data changes nothing. */
  lemma {:induction false} SettledRunIsNoop(s: HandlerState, id: string, data: seq<DataPart>, parse: Parser)
    requires Settled(s.processed, id, data, parse)
    ensures HandleData(s, id, data, parse) == s
  {
    if |data| > 0 {
      var init := data[..|data| - 1];
      assert Settled(s.processed, id, init, parse) by {
        forall i | 0 <= i < |init| ensures DataKey(id, i, init[i].partType) in s.processed || Marked(init[i], parse).None? {
          assert init[i] == data[i];
        }
      }
      SettledRunIsNoop(s, id, init, parse);
    }
  }

  /** The effect firing twice on the same data appends nothing and marks nothing the second time. */
  lemma HandleDataIdempotent(s: HandlerState, id: string, data: seq<DataPart>, parse: Parser)
    ensures HandleData(HandleData(s, id, data, parse), id, data, parse) == HandleData(s, id, data, parse)
  {
    HandleDataSettles(s, id, data, parse);
    SettledRunIsNoop(HandleData(s, id, data, parse), id, data, parse);
  }
}
