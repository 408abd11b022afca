/**
 The bridge and its client over a FIFO link: the client has handled some prefix of the
 queue, and the server some list of the frames the client sent.
 */
module EndToEnd {
  import opened Wrappers
  import opened Envelope
  import opened GrpcBridge

  // --------------------------------------------------------------- to the client

  /** What the client has done after some envelopes, with the socket open and auto-pong on. */
  function ClientCalls(msgs: seq<ControlMessage>): seq<ClientCall> {
    if msgs == [] then []
    else
      var last := |msgs| - 1;
      ClientCalls(msgs[..last]) + FrameCalls(JsonText(Encode(msgs[last])), true, true)
  }

  /** The arguments of onMessage, in order. */
  function Heard(calls: seq<ClientCall>): seq<Option<Json>> {
    if calls == [] then []
    else
      var last := |calls| - 1;
      Heard(calls[..last]) + if calls[last].OnMessage? then [calls[last].data] else []
  }

  function Ponged(calls: seq<ClientCall>): seq<Json> {
    if calls == [] then []
    else
      var last := |calls| - 1;
      Ponged(calls[..last]) + if calls[last].SendPong? then [calls[last].id] else []
  }

  /** A null payload is left out of the envelope and arrives as `undefined`. */
  function Arrives(payload: Json): Option<Json> {
    if payload == Null then None else Some(payload)
  }

  lemma {:induction false} CallsSnoc(calls: seq<ClientCall>, call: ClientCall)
    ensures Heard(calls + [call]) == if call.OnMessage? then Heard(calls) + [call.data] else Heard(calls)
    ensures Ponged(calls + [call]) == if call.SendPong? then Ponged(calls) + [call.id] else Ponged(calls)
  {
    assert (calls + [call])[..|calls|] == calls;
  }

  /** One envelope more. */
  lemma {:induction false} OneMore(msgs: seq<ControlMessage>, m: ControlMessage)
    requires m.kind in [DATA, STREAM_END, ERROR, PING] && (m.kind == PING ==> m.pingId != 0)
    ensures var before, after := ClientCalls(msgs), ClientCalls(msgs + [m]);
            && Heard(after) == (if m.kind == DATA then Heard(before) + [Arrives(m.data)] else Heard(before))
            && Ponged(after) == (if m.kind == PING then Ponged(before) + [Number(m.pingId)] else Ponged(before))
  {
    hide Heard, Ponged, FrameCalls, Encode;
    var before := ClientCalls(msgs);
    var calls := FrameCalls(JsonText(Encode(m)), true, true);
    assert (msgs + [m])[..|msgs|] == msgs;
    EnvelopeArrives(m, true);
    if m.kind == PING {
      CallsSnoc(before, calls[0]);
      CallsSnoc(before + [calls[0]], calls[1]);
      assert before + calls == before + [calls[0]] + [calls[1]];
    } else {
      CallsSnoc(before, calls[0]);
    }
  }

  function DataIn(msgs: seq<ControlMessage>): seq<Option<Json>> {
    seq(|msgs|, k requires 0 <= k < |msgs| => Arrives(msgs[k].data))
  }

  function IdsIn(msgs: seq<ControlMessage>): seq<Json> {
    seq(|msgs|, k requires 0 <= k < |msgs| => Number(msgs[k].pingId))
  }

  /** The client hears the data envelopes and answers the pings, and nothing else makes it do either. */
  lemma {:induction false} ClientFollows(msgs: seq<ControlMessage>)
    requires forall k :: 0 <= k < |msgs| ==>
               msgs[k].kind in [DATA, STREAM_END, ERROR, PING] && (msgs[k].kind == PING ==> msgs[k].pingId != 0)
    ensures Heard(ClientCalls(msgs)) == DataIn(OfKind(msgs, DATA))
    ensures Ponged(ClientCalls(msgs)) == IdsIn(OfKind(msgs, PING))
  {
    hide ClientCalls, Heard, Ponged, OfKind;
    if msgs != [] {
      var before, m := msgs[..|msgs| - 1], msgs[|msgs| - 1];
      ClientFollows(before);
      OneMore(before, m);
      assert before + [m] == msgs;
      OfKindSnoc(before, m, DATA);
      OfKindSnoc(before, m, PING);
      SnocMapped(OfKind(before, DATA), m);
      SnocMapped(OfKind(before, PING), m);
      hide DataIn, IdsIn;
    } else {
      NothingHeard();
    }
  }

  lemma {:induction false} SnocMapped(msgs: seq<ControlMessage>, m: ControlMessage)
    ensures DataIn(msgs + [m]) == DataIn(msgs) + [Arrives(m.data)]
    ensures IdsIn(msgs + [m]) == IdsIn(msgs) + [Number(m.pingId)]
  {
  }

  lemma {:induction false} NothingHeard()
    ensures Heard(ClientCalls([])) == [] && Ponged(ClientCalls([])) == []
    ensures forall kind :: OfKind([], kind) == []
  {
  }

  lemma {:induction false} OfKindPrefix(msgs: seq<ControlMessage>, k: nat, kind: string)
    requires k <= |msgs|
    ensures OfKind(msgs[..k], kind) <= OfKind(msgs, kind)
  {
    if k < |msgs| {
      var before := msgs[..|msgs| - 1];
      OfKindPrefix(before, k, kind);
      assert before[..k] == msgs[..k];
      OfKindSnoc(before, msgs[|msgs| - 1], kind);
      assert before + [msgs[|msgs| - 1]] == msgs;
    } else {
      assert msgs[..k] == msgs;
    }
  }

  lemma {:induction false} PingsAreNumbered(msgs: seq<ControlMessage>)
    requires forall k :: 0 <= k < |OfKind(msgs, PING)| ==> OfKind(msgs, PING)[k].pingId != 0
    ensures forall k :: 0 <= k < |msgs| && msgs[k].kind == PING ==> msgs[k].pingId != 0
  {
    if msgs != [] {
      var before, m := msgs[..|msgs| - 1], msgs[|msgs| - 1];
      assert before + [m] == msgs;
      OfKindSnoc(before, m, PING);
      assert forall k :: 0 <= k < |OfKind(before, PING)| ==> OfKind(msgs, PING)[k] == OfKind(before, PING)[k];
      if m.kind == PING {
        assert OfKind(msgs, PING)[|OfKind(before, PING)|] == m;
      }
      PingsAreNumbered(before);
    }
  }

  /**
   Whatever the payloads look like, pings and other envelopes included: what the client's
   onMessage has been given is a prefix of the response payloads, and its pongs are 1, 2, 3, …
   up to no more than the pings sent.
   */
  lemma {:induction false} PayloadsArriveInOrder(c: Config, steps: seq<Step>, k: nat)
    requires k <= |Run(c, steps).queue|
    ensures var s := Run(c, steps);
            var calls := ClientCalls(All(s.queue)[..k]);
            var results := Witnessed(c, steps).results;
            && |Heard(calls)| <= |results|
            && (forall j :: 0 <= j < |Heard(calls)| ==>
                 results[j].Response? && Heard(calls)[j] == Arrives(results[j].payload))
            && |Ponged(calls)| <= Witnessed(c, steps).pings
            && forall j :: 0 <= j < |Ponged(calls)| ==> Ponged(calls)[j] == Number(j + 1)
  {
    hide ClientCalls, Heard, Ponged, OfKind, Run, Witnessed;
    var s := Run(c, steps);
    var msgs := All(s.queue);
    HandlerTrace(c, steps);
    DataTrace(c, steps);
    OfKindPrefix(msgs, k, DATA);
    OfKindPrefix(msgs, k, PING);
    QueueIsNumbered(c, steps);
    assert forall j :: 0 <= j < k ==> msgs[..k][j] == msgs[j];
    ClientFollows(msgs[..k]);
    DataArrives(msgs[..k], msgs, Witnessed(c, steps).results[..s.msgsSent - One(s.forwarder.Counted?)]);
  }

  lemma {:induction false} DataArrives(seen: seq<ControlMessage>, msgs: seq<ControlMessage>, results: seq<Received>)
    requires AllResponses(results) && OfKind(seen, DATA) <= OfKind(msgs, DATA) == GrpcBridge.DataOf(results)
    ensures var heard := DataIn(OfKind(seen, DATA));
            |heard| <= |results| && forall j :: 0 <= j < |heard| ==> heard[j] == Arrives(results[j].payload)
  {
    hide OfKind;
  }

  /** onStreamEnd is called when, and only when, a stream_end envelope has been handled. */
  lemma {:induction false} EndReported(msgs: seq<ControlMessage>)
    requires forall k :: 0 <= k < |msgs| ==>
               msgs[k].kind in [DATA, STREAM_END, ERROR, PING] && (msgs[k].kind == PING ==> msgs[k].pingId != 0)
    ensures OnStreamEnd in ClientCalls(msgs) <==> exists k :: 0 <= k < |msgs| && msgs[k].kind == STREAM_END
  {
    hide FrameCalls, Encode;
    if msgs != [] {
      var last := |msgs| - 1;
      EndReported(msgs[..last]);
      EnvelopeArrives(msgs[last], true);
      assert forall k :: 0 <= k < last ==> msgs[..last][k] == msgs[k];
    }
  }

  lemma {:induction false} NoMoreOfKind(msgs: seq<ControlMessage>, k: nat, kind: string)
    requires k <= |msgs| && forall j :: k <= j < |msgs| ==> msgs[j].kind != kind
    ensures OfKind(msgs[..k], kind) == OfKind(msgs, kind)
  {
    if k < |msgs| {
      var before := msgs[..|msgs| - 1];
      NoMoreOfKind(before, k, kind);
      assert before[..k] == msgs[..k];
    } else {
      assert msgs[..k] == msgs;
    }
  }

  /**
   onStreamEnd is called only if gRPC has come to its end, and by then onMessage has been given
   every response received from it.
   */
  lemma {:induction false} EndMeansAll(c: Config, steps: seq<Step>, k: nat)
    requires k <= |Run(c, steps).queue|
    requires OnStreamEnd in ClientCalls(All(Run(c, steps).queue)[..k])
    ensures var results := Witnessed(c, steps).results;
            var heard := Heard(ClientCalls(All(Run(c, steps).queue)[..k]));
            && results != [] && results[|results| - 1].Eof? && |heard| == |results| - 1
            && forall j :: 0 <= j < |heard| ==> results[j].Response? && heard[j] == Arrives(results[j].payload)
  {
    hide ClientCalls, Heard, OfKind, Run, Witnessed;
    var s, h := Run(c, steps), Witnessed(c, steps);
    var msgs := All(s.queue);
    QueueIsNumbered(c, steps);
    var seen := msgs[..k];
    assert forall j :: 0 <= j < k ==> seen[j] == msgs[j] && msgs[j] == s.queue[j].msg;
    EndReported(seen);
    EndIsLast(c, steps);
    var i :| 0 <= i < k && seen[i].kind == STREAM_END;
    EndAfterEof(c, steps, i);
    DataTrace(c, steps);
    NoMoreOfKind(msgs, k, DATA);
    ClientFollows(seen);
    DataArrives(seen, msgs, h.results[..s.msgsSent - One(s.forwarder.Counted?)]);
  }

  /** A stream_end in the queue is there because Recv has returned EOF. */
  lemma {:induction false} EndAfterEof(c: Config, steps: seq<Step>, i: nat)
    requires i < |Run(c, steps).queue| && Run(c, steps).queue[i].msg.kind == STREAM_END
    ensures var s, rs := Run(c, steps), Witnessed(c, steps).results;
            s.forwarder == Stopped && rs != [] && rs[|rs| - 1].Eof?
  {
    RunKeeps(c, steps);
    EndIsLast(c, steps);
    var s, h := Run(c, steps), Witnessed(c, steps);
    InFrom(s.queue, i);
    hide From, Run, Witnessed;
    var rs := h.results;
    var last := rs[|rs| - 1];
    assert s.queue[i].msg in GrpcBridge.DataOf(Front(rs)) + LastWords(last, h.looked);
    assert forall m :: m in GrpcBridge.DataOf(Front(rs)) ==> m.kind == DATA;
  }

  lemma {:induction false} InFrom(queue: seq<Queued>, i: nat)
    requires i < |queue|
    ensures queue[i].msg in From(queue, queue[i].source)
  {
    if i < |queue| - 1 {
      InFrom(queue[..|queue| - 1], i);
    }
  }

  /** What the queue may hold. */
  lemma {:induction false} QueueIsNumbered(c: Config, steps: seq<Step>)
    ensures var msgs := All(Run(c, steps).queue);
            forall k :: 0 <= k < |msgs| ==>
              msgs[k].kind in [DATA, STREAM_END, ERROR, PING] && (msgs[k].kind == PING ==> msgs[k].pingId != 0)
  {
    hide OfKind, Run, Witnessed;
    RunKeeps(c, steps);
    HandlerTrace(c, steps);
    PingsAreNumbered(All(Run(c, steps).queue));
  }

  // --------------------------------------------------------------- to the server

  /** What an application does with the client. */
  datatype Action = SendData(data: Json) | EndSend | CancelStream

  /** The envelope the client sends for it; pongs go out by themselves in between. */
  datatype Sent = ByApplication(action: Action) | AsPong(id: int)

  function ClientFrame(sent: Sent): Json {
    match sent
    case ByApplication(SendData(data)) => Wrapped(data)
    case ByApplication(EndSend) => Object(map["type" := String("end_send")])
    case ByApplication(CancelStream) => Object(map["type" := String("cancel")])
    case AsPong(id) => Pong(Number(id))
  }

  /** The requests that the payloads sent decode to, in order. */
  function SentRequests(c: Config, sent: seq<Sent>): seq<Json> {
    if sent == [] then []
    else
      var last := sent[|sent| - 1];
      SentRequests(c, sent[..|sent| - 1]) +
      if last.ByApplication? && last.action.SendData? && c.decode(last.action.data).Request?
      then [c.decode(last.action.data).json] else []
  }

  lemma {:induction false} FrameKind(sent: Sent)
    requires sent.AsPong? ==> IsInt64(sent.id)
    ensures Decode(ClientFrame(sent)) ==
            Some(match sent
                 case ByApplication(SendData(data)) => ControlMessage("data", data, "", 0)
                 case ByApplication(EndSend) => ControlMessage("end_send", Null, "", 0)
                 case ByApplication(CancelStream) => ControlMessage("cancel", Null, "", 0)
                 case AsPong(id) => ControlMessage("pong", Null, "", id))
  {
    if sent.AsPong? {
      PongArrives(sent.id);
    }
  }

  predicate Delivered(sent: seq<Sent>, arrived: seq<ControlMessage>) {
    |arrived| == |sent| && forall k :: 0 <= k < |sent| ==>
      (sent[k].AsPong? ==> IsInt64(sent[k].id)) && Decode(ClientFrame(sent[k])) == Some(arrived[k])
  }

  function EndSends(sent: seq<Sent>): nat {
    if sent == [] then 0
    else EndSends(sent[..|sent| - 1]) + if sent[|sent| - 1] == ByApplication(EndSend) then 1 else 0
  }

  lemma {:induction false} DeliveredRequests(c: Config, sent: seq<Sent>, arrived: seq<ControlMessage>)
    requires c.kind.Bidi? && Delivered(sent, arrived)
    ensures Decodable(c, arrived) == SentRequests(c, sent) && HalfCloses(c, arrived) == EndSends(sent)
  {
    hide ClientFrame, Decode;
    if sent != [] {
      DeliveredRequests(c, sent[..|sent| - 1], arrived[..|arrived| - 1]);
      FrameKind(sent[|sent| - 1]);
    }
  }

  /**
   The requests gRPC is given are those the application sent, whatever they look like; each of
   its end_sends closes the stream for sending; and if it has cancelled, so is the stream.
   */
  lemma {:induction false} RequestsArriveInOrder(c: Config, steps: seq<Step>, sent: seq<Sent>)
    requires c.kind.Bidi? && Delivered(sent, Witnessed(c, steps).arrived)
    ensures var s, h := Run(c, steps), Witnessed(c, steps);
            && s.requests == SentRequests(c, sent)
            && EndSends(sent) == |h.closes| + One(s.loop.Closing?)
            && (ByApplication(CancelStream) in sent ==> s.cancelled)
  {
    HandlerTrace(c, steps);
    DeliveredRequests(c, sent, Witnessed(c, steps).arrived);
    if ByApplication(CancelStream) in sent {
      var k :| 0 <= k < |sent| && sent[k] == ByApplication(CancelStream);
      FrameKind(sent[k]);
      CancelArrives(c, steps, k);
    }
  }

  lemma {:induction false} CancelArrives(c: Config, steps: seq<Step>, k: nat)
    requires k < |Witnessed(c, steps).arrived| && Witnessed(c, steps).arrived[k].kind == "cancel"
    ensures Witnessed(c, steps).cancelled
  {
    hide Run, Next;
    if steps != [] && k < |Witnessed(c, steps[..|steps| - 1]).arrived| {
      ArrivedStays(c, steps);
      CancelArrives(c, steps[..|steps| - 1], k);
    }
  }

  lemma {:induction false} ArrivedStays(c: Config, steps: seq<Step>)
    requires steps != []
    ensures var h, h' := Witnessed(c, steps[..|steps| - 1]), Witnessed(c, steps);
            h.arrived <= h'.arrived && (h.cancelled ==> h'.cancelled)
  {
    hide Run, Next;
  }
}
