/** The TypeScript SSE client's memory between connections (clients/typescript/src/sse-client.ts). */
module SseClient {
  import opened Wrappers
  import opened SseParser

  /** `_lastEventId` after one event. */
  function Track(last: Option<string>, call: Callback): Option<string> {
    if call.OnEvent? && call.id.Some? then call.id else last
  }

  function TrackAll(last: Option<string>, calls: seq<Callback>): Option<string> {
    if calls == [] then last else Track(TrackAll(last, calls[..|calls| - 1]), calls[|calls| - 1])
  }

  /** The Last-Event-ID header of the next request; an empty id is not sent. */
  function Header(last: Option<string>): Option<string> {
    if last.Some? && last.value != "" then last else None
  }

  /** Callbacks that are not events with an id leave the client's id alone. */
  lemma {:induction false} NoIdIsForgotten(last: Option<string>, calls: seq<Callback>)
    requires forall k :: 0 <= k < |calls| && calls[k].OnEvent? ==> calls[k].id == None
    ensures TrackAll(last, calls) == last
  {
    if calls != [] {
      NoIdIsForgotten(last, calls[..|calls| - 1]);
    }
  }

  /**
   After any callbacks the client's id, and so the header of its next request, is that of the
   last event among them that has an id: `call`, if those after it have none.
   */
  lemma {:induction false} LastIdIsKept(last: Option<string>, before: seq<Callback>, call: Callback, after: seq<Callback>)
    requires call.OnEvent? && call.id.Some?
    requires forall k :: 0 <= k < |after| && after[k].OnEvent? ==> after[k].id == None
    ensures TrackAll(last, before + [call] + after) == call.id
    ensures Header(TrackAll(last, before + [call] + after)) == if call.id.value == "" then None else call.id
  {
    if after == [] {
      assert before + [call] + after == before + [call];
      TrackOneMore(last, before, call);
    } else {
      var n := |after| - 1;
      LastIdIsKept(last, before, call, after[..n]);
      TrackOneMore(last, before + [call] + after[..n], after[n]);
      assert before + [call] + after[..n] + [after[n]] == before + [call] + after;
    }
  }

  lemma {:induction false} TrackOneMore(last: Option<string>, calls: seq<Callback>, call: Callback)
    ensures TrackAll(last, calls + [call]) == Track(TrackAll(last, calls), call)
  {
    assert (calls + [call])[..|calls|] == calls;
  }

  class SSEClient {
    var lastEventId: Option<string>
    /** Calls of the unnamed handler and of the named one, in order. */
    var messages: seq<string>
    var events: seq<(string, string)>

    constructor (lastEventId: Option<string>)
      ensures this.lastEventId == lastEventId && messages == [] && events == []
    {
      this.lastEventId, messages, events := lastEventId, [], [];
    }

    method HandleEvent(event: Callback)
      requires event.OnEvent?
      modifies this
      ensures lastEventId == if event.id.Some? then event.id else old(lastEventId)
      ensures event.event.GetOr("") == "" ==>
                messages == old(messages) + [event.data] && events == old(events)
      ensures event.event.GetOr("") != "" ==>
                messages == old(messages) && events == old(events) + [(event.event.value, event.data)]
    {
      if event.id.Some? {
        lastEventId := event.id;
      }
      if event.event.Some? && event.event.value != "" {
        events := events + [(event.event.value, event.data)];
      } else {
        messages := messages + [event.data];
      }
    }

    method ConnectHeader() returns (header: Option<string>)
      ensures header == Header(lastEventId)
      ensures header == if lastEventId == Some("") then None else lastEventId
    {
      header := None;
      if lastEventId.Some? && lastEventId.value != "" {
        header := lastEventId;
      }
    }

    /** The parser's `onEvent`; the other callbacks are not given. */
    method HandleCalls(calls: seq<Callback>)
      modifies this
      ensures lastEventId == TrackAll(old(lastEventId), calls)
    {
      for k := 0 to |calls|
        invariant lastEventId == TrackAll(old(lastEventId), calls[..k])
      {
        TrackOneMore(old(lastEventId), calls[..k], calls[k]);
        assert calls[..k] + [calls[k]] == calls[..k + 1];
        if calls[k].OnEvent? {
          HandleEvent(calls[k]);
        }
      }
      assert calls[..|calls|] == calls;
    }

    /** One connection's stream, read chunk by chunk until it ends. */
    method ReadStream(chunks: seq<string>)
      modifies this
      ensures lastEventId == TrackAll(old(lastEventId), FeedAllEffect(FRESH, chunks).calls)
    {
      hide FeedEffect, TrackAll;
      TrackNothing(lastEventId);
      var parser := new EventSourceParser();
      for i := 0 to |chunks|
        invariant fresh(parser)
        invariant parser.Snapshot() == FeedAllEffect(FRESH, chunks[..i]).state
        invariant parser.calls == FeedAllEffect(FRESH, chunks[..i]).calls
        invariant lastEventId == TrackAll(old(lastEventId), parser.calls)
      {
        var before := parser.calls;
        FeedOneMore(FRESH, chunks[..i], chunks[i]);
        assert chunks[..i] + [chunks[i]] == chunks[..i + 1];
        parser.Feed(chunks[i]);
        var more := parser.calls[|before|..];
        TrackAppend(old(lastEventId), before, more);
        assert parser.calls == before + more;
        HandleCalls(more);
      }
      assert chunks[..|chunks|] == chunks;
    }
  }

  lemma {:induction false} TrackNothing(last: Option<string>)
    ensures TrackAll(last, []) == last
  {
  }

  lemma {:induction false} TrackAppend(last: Option<string>, a: seq<Callback>, b: seq<Callback>)
    ensures TrackAll(last, a + b) == TrackAll(TrackAll(last, a), b)
  {
    if b == [] {
      assert a + b == a;
    } else {
      var n := |b| - 1;
      TrackAppend(last, a, b[..n]);
      TrackOneMore(last, a + b[..n], b[n]);
      assert a + b[..n] + [b[n]] == a + b;
    }
  }

  lemma {:induction false} FeedOneMore(s: State, chunks: seq<string>, chunk: string)
    ensures var o1 := FeedAllEffect(s, chunks);
            var o2 := FeedEffect(o1.state, chunk);
            FeedAllEffect(s, chunks + [chunk]) == Outcome(o2.state, o1.calls + o2.calls)
    decreases |chunks|
  {
    hide FeedEffect;
    if chunks == [] {
      assert ([] + [chunk])[0] == chunk && ([] + [chunk])[1..] == [];
      var o := FeedEffect(s, chunk);
      assert o.calls + [] == o.calls && [] + o.calls == o.calls;
    } else {
      var o := FeedEffect(s, chunks[0]);
      FeedOneMore(o.state, chunks[1..], chunk);
      assert (chunks + [chunk])[0] == chunks[0] && (chunks + [chunk])[1..] == chunks[1..] + [chunk];
      var o1 := FeedAllEffect(o.state, chunks[1..]);
      var o2 := FeedEffect(o1.state, chunk);
      assert o.calls + (o1.calls + o2.calls) == o.calls + o1.calls + o2.calls;
    }
  }
}
