/** The bounded per-stream event store (http/event_store.go) and the id generator (http/idgen.go). */
module EventStore {
  import Decimal

  datatype StoredEvent = StoredEvent(id: string, event: string, data: string)

  // ------------------------------------------------------------ specification

  /** The last `n` elements, or all. */
  function Last<T>(s: seq<T>, n: nat): seq<T> {
    if |s| <= n then s else s[|s| - n..]
  }

  predicate FirstAt(events: seq<StoredEvent>, id: string, k: nat) {
    k < |events| && events[k].id == id && forall j :: 0 <= j < k ==> events[j].id != id
  }

  predicate Absent(events: seq<StoredEvent>, id: string) {
    forall k :: 0 <= k < |events| ==> events[k].id != id
  }

  function Anchor(events: seq<StoredEvent>, id: string): (k: nat)
    ensures k == |events| || FirstAt(events, id, k)
    ensures k == |events| ==> Absent(events, id)
  {
    if events == [] || events[0].id == id then 0 else 1 + Anchor(events[1..], id)
  }

  /** Everything after the first event with that id, or everything. */
  function AfterAnchor(events: seq<StoredEvent>, id: string): (r: seq<StoredEvent>)
    ensures Absent(events, id) ==> r == events
    ensures forall k :: FirstAt(events, id, k) ==> r == events[k + 1..]
  {
    var k := Anchor(events, id);
    if k == |events| then events else events[k + 1..]
  }

  datatype Op = Store(stream: string, event: StoredEvent) | Trim(stream: string)

  function StreamIn(streams: map<string, seq<StoredEvent>>, stream: string): seq<StoredEvent> {
    if stream in streams then streams[stream] else []
  }

  function Apply(streams: map<string, seq<StoredEvent>>, max: nat, op: Op): map<string, seq<StoredEvent>> {
    match op
    case Store(stream, event) => streams[stream := Last(StreamIn(streams, stream) + [event], max)]
    case Trim(stream) => streams - {stream}
  }

  function Run(ops: seq<Op>, max: nat): map<string, seq<StoredEvent>> {
    if ops == [] then map[] else Apply(Run(ops[..|ops| - 1], max), max, ops[|ops| - 1])
  }

  /** All events stored in a stream since it was last trimmed, without any bound. */
  function History(ops: seq<Op>, stream: string): seq<StoredEvent> {
    if ops == [] then []
    else
      var before := History(ops[..|ops| - 1], stream);
      match ops[|ops| - 1]
      case Store(s, event) => if s == stream then before + [event] else before
      case Trim(s) => if s == stream then [] else before
  }

  // ------------------------------------------------------------------- theorems

  lemma {:induction false} LastOfLast<T>(h: seq<T>, e: T, max: nat)
    requires max > 0
    ensures Last(Last(h, max) + [e], max) == Last(h + [e], max)
  {
  }

  /** Whatever was stored and trimmed elsewhere, a stream holds the end of its own history. */
  lemma {:induction false} StoreRefinesHistory(ops: seq<Op>, max: nat, stream: string)
    requires max > 0
    ensures var h := History(ops, stream);
            && StreamIn(Run(ops, max), stream) == Last(h, max)
            && Last(h, max) == if |h| <= max then h else h[|h| - max..]
  {
    if ops != [] {
      var before := ops[..|ops| - 1];
      StoreRefinesHistory(before, max, stream);
      var op := ops[|ops| - 1];
      if op.Store? && op.stream == stream {
        LastOfLast(History(before, stream), op.event, max);
      }
    }
  }

  predicate DistinctIds(h: seq<StoredEvent>) {
    forall i, j :: 0 <= i < j < |h| ==> h[i].id != h[j].id
  }

  /** Replay loses an event only if it has been evicted. */
  lemma {:induction false} ReplayFromHistory(h: seq<StoredEvent>, max: nat, p: nat)
    requires DistinctIds(h) && p < |h|
    ensures AfterAnchor(Last(h, max), h[p].id) == h[if p + 1 >= |h| - max then p + 1 else |h| - max..]
  {
    var kept := Last(h, max);
    var offset := |h| - |kept|;
    if p >= offset {
      assert FirstAt(kept, h[p].id, p - offset);
      assert kept[p - offset + 1..] == h[p + 1..];
    } else {
      assert Absent(kept, h[p].id);
    }
  }

  lemma {:induction false} ReplayUnknown(h: seq<StoredEvent>, max: nat, id: string)
    requires Absent(h, id)
    ensures AfterAnchor(Last(h, max), id) == Last(h, max)
  {
  }

  // ---------------------------------------------------------------- the classes

  class MemoryEventStore {
    var streams: map<string, seq<StoredEvent>>
    const maxPerStream: nat

    constructor (maxPerStream: int)
      ensures this.maxPerStream == (if maxPerStream <= 0 then 1000 else maxPerStream)
      ensures streams == map[]
    {
      this.maxPerStream := if maxPerStream <= 0 then 1000 else maxPerStream;
      streams := map[];
    }

    method Store(streamID: string, event: StoredEvent)
      modifies this
      ensures streams == Apply(old(streams), maxPerStream, Op.Store(streamID, event))
    {
      var events := StreamIn(streams, streamID);
      events := events + [event];
      if |events| > maxPerStream {
        var excess := |events| - maxPerStream;
        events := events[excess..];
      }
      streams := streams[streamID := events];
    }

    method Replay(streamID: string, lastEventID: string) returns (result: seq<StoredEvent>)
      ensures result == AfterAnchor(StreamIn(streams, streamID), lastEventID)
    {
      var events := StreamIn(streams, streamID);
      if |events| == 0 {
        return [];
      }
      for i := 0 to |events|
        invariant forall k :: 0 <= k < i ==> events[k].id != lastEventID
      {
        if events[i].id == lastEventID {
          if i + 1 >= |events| {
            return [];
          }
          return events[i + 1..];
        }
      }
      return events;
    }

    method Trim(streamID: string)
      modifies this
      ensures streams == Apply(old(streams), maxPerStream, Op.Trim(streamID))
    {
      streams := streams - {streamID};
    }
  }

  class AtomicIDGen {
    var counter: nat

    constructor ()
      ensures counter == 0
    {
      counter := 0;
    }

    method Next() returns (id: string)
      modifies this
      ensures counter == old(counter) + 1 && id == Decimal.Print(counter)
    {
      counter := counter + 1;
      id := Decimal.Print(counter);
    }
  }
}
