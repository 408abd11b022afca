/**
 A streaming gRPC call bridged to a WebSocket (grpcws/bidi_stream.go, server_stream.go,
 conn.go): the forwarder goroutine and the connection's event loop (incoming messages and
 the ping timer) both queue envelopes for one writer. Every atomic action of either is a
 step, and the steps interleave freely.
 */
module GrpcBridge {
  import opened Wrappers
  import opened Text
  import opened Envelope

  datatype Kind = ServerStream | Bidi

  /** `DecodeRequest`: a request, or the error it reports. */
  datatype Decoded = Request(json: Json) | Undecodable(error: string)

  datatype Config = Config(kind: Kind, decode: Json -> Decoded)

  /** What `stream.Recv` returns, with the outcome of encoding a response. */
  datatype Received = Response(payload: Json) | Unencodable(error: string) | Eof | Failed(error: string)

  /** Where the forwarder goroutine is. */
  datatype Forwarder =
    | Receiving
    | Encoded(msg: ControlMessage)  // before MsgsSent is incremented
    | Counted(msg: ControlMessage)  // before the message is queued
    | Broken(error: string)         // before the context is looked at
    | Ending(msg: ControlMessage)   // before the last message is queued
    | Stopped

  /** Where the event loop is. */
  datatype Loop =
    | Idle
    | Pinging                      // PingId is incremented
    | Sending                      // inside stream.Send
    | Accepted                     // stream.Send has succeeded
    | Closing                      // inside stream.CloseSend
    | Replying(msg: ControlMessage)

  datatype Source = ByForwarder | ByLoop

  datatype Queued = Queued(source: Source, msg: ControlMessage)

  /** `queue` is everything ever handed to the writer, `requests` everything handed to `stream.Send`. */
  datatype State = State(
    forwarder: Forwarder, loop: Loop, cancelled: bool,
    queue: seq<Queued>, msgsSent: nat, msgsReceived: nat, pingId: nat, requests: seq<Json>)

  const INITIAL := State(Receiving, Idle, false, [], 0, 0, 0, [])

  datatype Step =
    // the forwarder
    | Recv(result: Received)
    | CountSent
    | QueueData
    | LookAtContext
    | QueueLast
    // the event loop
    | SendPing
    | QueuePing
    | Handle(msg: ControlMessage)
    | SendReturns(error: Option<string>)
    | CountReceived
    | CloseSendReturns(error: Option<string>)
    | QueueReply
    // anyone who holds the cancel function
    | Cancel

  function Push(s: State, source: Source, msg: ControlMessage): State {
    s.(queue := s.queue + [Queued(source, msg)])
  }

  function Next(c: Config, s: State, step: Step): State {
    match step
    case Recv(result) =>
      if !s.forwarder.Receiving? then s
      else (match result
            case Response(p) => s.(forwarder := Encoded(DataMessage(p)))
            case Unencodable(e) => s.(forwarder := Ending(ErrorMessage(e)))
            case Eof => s.(forwarder := Ending(EndMessage()))
            case Failed(e) => s.(forwarder := Broken(e)))
    case CountSent =>
      if s.forwarder.Encoded? then s.(forwarder := Counted(s.forwarder.msg), msgsSent := s.msgsSent + 1) else s
    case QueueData =>
      if s.forwarder.Counted? then Push(s, ByForwarder, s.forwarder.msg).(forwarder := Receiving) else s
    case LookAtContext =>
      if s.forwarder.Broken?
      then s.(forwarder := if s.cancelled then Stopped else Ending(ErrorMessage(s.forwarder.error)))
      else s
    case QueueLast =>
      if s.forwarder.Ending? then Push(s, ByForwarder, s.forwarder.msg).(forwarder := Stopped) else s
    case SendPing =>
      if s.loop.Idle? then s.(loop := Pinging, pingId := s.pingId + 1) else s
    case QueuePing =>
      if s.loop.Pinging? then Push(s, ByLoop, PingMessage(s.pingId)).(loop := Idle) else s
    case Handle(msg) =>
      if s.loop.Idle? then HandleEffect(c, s, msg) else s
    case SendReturns(error) =>
      if !s.loop.Sending? then s
      else s.(loop := if error.Some? then Replying(ErrorMessage(error.value)) else Accepted)
    case CountReceived =>
      if s.loop.Accepted? then s.(loop := Idle, msgsReceived := s.msgsReceived + 1) else s
    case CloseSendReturns(error) =>
      if !s.loop.Closing? then s
      else s.(loop := if error.Some? then Replying(ErrorMessage(error.value)) else Idle)
    case QueueReply =>
      if s.loop.Replying? then Push(s, ByLoop, s.loop.msg).(loop := Idle) else s
    case Cancel => s.(cancelled := true)
  }

  /** `HandleMessage`, up to the first call it makes. */
  function HandleEffect(c: Config, s: State, msg: ControlMessage): State {
    if msg.kind == CANCEL then s.(cancelled := true)
    else if c.kind.Bidi? && msg.kind == DATA then
      (match c.decode(msg.data)
       case Request(r) => s.(loop := Sending, requests := s.requests + [r])
       case Undecodable(e) => s.(loop := Replying(ErrorMessage(e))))
    else if c.kind.Bidi? && msg.kind == END_SEND then s.(loop := Closing)
    else s
  }

  function Run(c: Config, steps: seq<Step>): State {
    if steps == [] then INITIAL else Next(c, Run(c, steps[..|steps| - 1]), steps[|steps| - 1])
  }

  lemma {:induction false} RunOneMore(c: Config, steps: seq<Step>, step: Step)
    ensures Run(c, steps + [step]) == Next(c, Run(c, steps), step)
  {
    hide Next;
    assert (steps + [step])[..|steps|] == steps;
  }

  // ------------------------------------------------------- what has happened

  /**
   What the steps of a run say of the world around the bridge: what Recv, Send and CloseSend
   have returned to it, the messages it has handled, the ping ticks, whether the stream has been
   cancelled, and whether it had been when the forwarder looked. A step that meets a forwarder
   or loop that is elsewhere has not happened.
   */
  datatype Past = Past(
    results: seq<Received>, looked: Option<bool>, cancelled: bool, pings: nat,
    arrived: seq<ControlMessage>, sends: seq<Option<string>>, closes: seq<Option<string>>,
    complaints: seq<string>)

  /** `complaints` are the errors of decoding, Send and CloseSend, in the order they came up. */
  function Witnessed(c: Config, steps: seq<Step>): Past {
    if steps == [] then Past([], None, false, 0, [], [], [], [])
    else
      var before := steps[..|steps| - 1];
      var h, forwarder, loop := Witnessed(c, before), Run(c, before).forwarder, Run(c, before).loop;
      match steps[|steps| - 1]
      case Recv(result) => if forwarder == Receiving then h.(results := h.results + [result]) else h
      case LookAtContext => if forwarder.Broken? then h.(looked := Some(h.cancelled)) else h
      case SendPing => if loop == Idle then h.(pings := h.pings + 1) else h
      case Handle(msg) => if loop == Idle then Meets(c, h.(arrived := h.arrived + [msg]), msg) else h
      case SendReturns(error) =>
        if loop == Sending then Complain(h.(sends := h.sends + [error]), error) else h
      case CloseSendReturns(error) =>
        if loop == Closing then Complain(h.(closes := h.closes + [error]), error) else h
      case Cancel => h.(cancelled := true)
      case _ => h
  }

  function Complain(h: Past, error: Option<string>): Past {
    h.(complaints := h.complaints + if error.Some? then [error.value] else [])
  }

  function Meets(c: Config, h: Past, msg: ControlMessage): Past {
    if msg.kind == "cancel" then h.(cancelled := true)
    else if c.kind == Bidi && msg.kind == "data" then
      Complain(h, match c.decode(msg.data)
                  case Request(_) => None
                  case Undecodable(e) => Some(e))
    else h
  }

  // -------------------------------------------------------------- what was queued

  function From(queue: seq<Queued>, source: Source): seq<ControlMessage> {
    if queue == [] then []
    else
      var last := |queue| - 1;
      From(queue[..last], source) + if queue[last].source == source then [queue[last].msg] else []
  }

  function OfKind(msgs: seq<ControlMessage>, kind: string): seq<ControlMessage> {
    if msgs == [] then []
    else
      var last := |msgs| - 1;
      OfKind(msgs[..last], kind) + if msgs[last].kind == kind then [msgs[last]] else []
  }

  function All(queue: seq<Queued>): seq<ControlMessage> {
    seq(|queue|, k requires 0 <= k < |queue| => queue[k].msg)
  }

  predicate AllResponses(results: seq<Received>) {
    forall k :: 0 <= k < |results| ==> results[k].Response?
  }

  /** The data envelopes of some responses. */
  function DataOf(results: seq<Received>): seq<ControlMessage>
    requires AllResponses(results)
  {
    seq(|results|, k requires 0 <= k < |results| => ControlMessage("data", results[k].payload, "", 0))
  }

  function ErrorsOf(errors: seq<string>): seq<ControlMessage> {
    seq(|errors|, k requires 0 <= k < |errors| => ControlMessage("error", Null, errors[k], 0))
  }

  function Pings(n: nat): seq<ControlMessage> {
    seq(n, k => ControlMessage("ping", Null, "", k + 1))
  }

  /** Everything but the last. */
  function Front<T>(s: seq<T>): seq<T> {
    if s == [] then [] else s[..|s| - 1]
  }

  /** What is said after the responses, when Recv returned `last` and, if it failed, the context was found so. */
  function LastWords(last: Received, looked: Option<bool>): seq<ControlMessage> {
    match last
    case Response(_) => []
    case Eof => [ControlMessage("stream_end", Null, "", 0)]
    case Unencodable(e) => [ControlMessage("error", Null, e, 0)]
    case Failed(e) => if looked == Some(true) then [] else [ControlMessage("error", Null, e, 0)]
  }

  // --------------------------------------------------------------- the invariant

  predicate ForwarderInv(s: State, h: Past) {
    var out, rs := From(s.queue, ByForwarder), h.results;
    && AllResponses(Front(rs))
    && s.cancelled == h.cancelled
    && (s.forwarder != Receiving ==> rs != [])
    && (!s.forwarder.Ending? && !s.forwarder.Stopped? ==> h.looked == None)
    && match s.forwarder
       case Receiving => AllResponses(rs) && out == DataOf(rs) && s.msgsSent == |rs|
       case Encoded(m) => out == DataOf(Front(rs)) && s.msgsSent == |rs| - 1 && InHand(rs, m)
       case Counted(m) => out == DataOf(Front(rs)) && s.msgsSent == |rs| && InHand(rs, m)
       case Broken(e) => out == DataOf(Front(rs)) && s.msgsSent == |rs| - 1 && rs[|rs| - 1] == Failed(e)
       case Ending(m) =>
         && out == DataOf(Front(rs)) && s.msgsSent == |rs| - 1 && !rs[|rs| - 1].Response?
         && [m] == LastWords(rs[|rs| - 1], h.looked) && Looked(rs, h.looked)
       case Stopped =>
         && out == DataOf(Front(rs)) + LastWords(rs[|rs| - 1], h.looked) && s.msgsSent == |rs| - 1
         && !rs[|rs| - 1].Response? && Looked(rs, h.looked)
  }

  predicate InHand(rs: seq<Received>, m: ControlMessage) {
    AllResponses(rs) && rs != [] && [m] == DataOf([rs[|rs| - 1]])
  }

  /** The context is looked at exactly if Recv fails. */
  predicate Looked(rs: seq<Received>, looked: Option<bool>) {
    rs != [] && (looked.Some? <==> rs[|rs| - 1].Failed?)
  }

  /** The requests that the handled messages decode to, in order. */
  function Decodable(c: Config, arrived: seq<ControlMessage>): seq<Json> {
    if arrived == [] then []
    else
      var msg := arrived[|arrived| - 1];
      Decodable(c, arrived[..|arrived| - 1]) +
      if c.kind.Bidi? && msg.kind == "data" && c.decode(msg.data).Request? then [c.decode(msg.data).json] else []
  }

  /** How many handled messages ask for the stream to be closed for sending. */
  function HalfCloses(c: Config, arrived: seq<ControlMessage>): nat {
    if arrived == [] then 0
    else
      HalfCloses(c, arrived[..|arrived| - 1]) +
      if c.kind.Bidi? && arrived[|arrived| - 1].kind == "end_send" then 1 else 0
  }

  function Successes(sends: seq<Option<string>>): nat {
    if sends == [] then 0 else Successes(sends[..|sends| - 1]) + if sends[|sends| - 1].None? then 1 else 0
  }

  function One(b: bool): nat {
    if b then 1 else 0
  }

  predicate LoopInv(c: Config, s: State, h: Past) {
    && s.requests == Decodable(c, h.arrived) && |s.requests| == |h.sends| + One(s.loop.Sending?)
    && HalfCloses(c, h.arrived) == |h.closes| + One(s.loop.Closing?)
    && Successes(h.sends) == s.msgsReceived + One(s.loop.Accepted?)
    && s.pingId == h.pings && (s.loop.Pinging? ==> h.pings > 0)
    && OfKind(From(s.queue, ByLoop), PING) == Pings(h.pings - One(s.loop.Pinging? && h.pings > 0))
    && OfKind(From(s.queue, ByLoop), ERROR) + (if s.loop.Replying? then [s.loop.msg] else []) == ErrorsOf(h.complaints)
    && (c.kind.ServerStream? ==> s.loop.Idle? || s.loop.Pinging?)
    && (s.loop.Replying? ==> s.loop.msg.kind == ERROR)
  }

  /** Who may queue what. */
  predicate QueueOk(c: Config, queue: seq<Queued>) {
    forall k :: 0 <= k < |queue| ==>
      if queue[k].source.ByForwarder? then queue[k].msg.kind in [DATA, STREAM_END, ERROR]
      else queue[k].msg.kind == PING || (c.kind.Bidi? && queue[k].msg.kind == ERROR)
  }

  predicate Inv(c: Config, s: State, h: Past) {
    ForwarderInv(s, h) && LoopInv(c, s, h) && QueueOk(c, s.queue)
  }

  lemma {:induction false} PushFrom(queue: seq<Queued>, source: Source, msg: ControlMessage)
    ensures From(queue + [Queued(source, msg)], source) == From(queue, source) + [msg]
    ensures forall other :: other != source ==> From(queue + [Queued(source, msg)], other) == From(queue, other)
  {
    assert (queue + [Queued(source, msg)])[..|queue|] == queue;
  }

  lemma {:induction false} FromLast(queue: seq<Queued>, source: Source)
    requires queue != []
    ensures var before, q := queue[..|queue| - 1], queue[|queue| - 1];
            From(queue, source) == if q.source == source then From(before, source) + [q.msg] else From(before, source)
  {
  }

  lemma {:induction false} OfKindSnoc(msgs: seq<ControlMessage>, m: ControlMessage, kind: string)
    ensures OfKind(msgs + [m], kind) == if m.kind == kind then OfKind(msgs, kind) + [m] else OfKind(msgs, kind)
  {
    assert (msgs + [m])[..|msgs|] == msgs;
  }

  lemma {:induction false} FrontOneMore<T>(s: seq<T>, x: T)
    ensures Front(s + [x]) == s && (s + [x])[|s|] == x
  {
  }

  lemma {:induction false} DataOneMore(rs: seq<Received>)
    requires rs != [] && AllResponses(rs)
    ensures AllResponses(Front(rs)) && DataOf(rs) == DataOf(Front(rs)) + DataOf([rs[|rs| - 1]])
  {
  }

  lemma {:induction false} ErrorsOneMore(errors: seq<string>, e: string)
    ensures ErrorsOf(errors + [e]) == ErrorsOf(errors) + [ErrorMessage(e)]
    ensures ErrorsOf(errors + []) == ErrorsOf(errors)
  {
    assert errors + [] == errors;
  }

  lemma {:induction false} PingsOneMore(n: nat)
    requires n > 0
    ensures Pings(n - 1) + [PingMessage(n)] == Pings(n)
  {
  }

  lemma {:induction false} ArrivedOneMore(c: Config, arrived: seq<ControlMessage>, msg: ControlMessage)
    ensures Decodable(c, arrived + [msg]) ==
            Decodable(c, arrived) +
            if c.kind.Bidi? && msg.kind == DATA && c.decode(msg.data).Request? then [c.decode(msg.data).json] else []
    ensures HalfCloses(c, arrived + [msg]) ==
            HalfCloses(c, arrived) + if c.kind.Bidi? && msg.kind == END_SEND then 1 else 0
  {
    assert (arrived + [msg])[..|arrived|] == arrived;
  }

  lemma {:induction false} SendsOneMore(sends: seq<Option<string>>, error: Option<string>)
    ensures Successes(sends + [error]) == Successes(sends) + if error.None? then 1 else 0
  {
    assert (sends + [error])[..|sends|] == sends;
  }

  // ------------------------------------------------------------- every step keeps it

  predicate IsForwarderStep(step: Step) {
    step.Recv? || step.CountSent? || step.QueueData? || step.LookAtContext? || step.QueueLast?
  }

  lemma {:induction false} ForwarderStep(c: Config, s: State, h: Past, step: Step, h': Past)
    requires ForwarderInv(s, h) && IsForwarderStep(step)
    requires h' == match step
      case Recv(result) => if s.forwarder == Receiving then h.(results := h.results + [result]) else h
      case LookAtContext => if s.forwarder.Broken? then h.(looked := Some(h.cancelled)) else h
      case _ => h
    ensures ForwarderInv(Next(c, s, step), h')
  {
    hide From, DataOf, AllResponses, HandleEffect, Front;
    match step
    case Recv(result) =>
      if s.forwarder == Receiving {
        FrontOneMore(h.results, result);
        OneResponse(h.results, result);
      }
    case QueueData =>
      if s.forwarder.Counted? {
        PushFrom(s.queue, ByForwarder, s.forwarder.msg);
        DataOneMore(h.results);
      }
    case QueueLast =>
      if s.forwarder.Ending? {
        PushFrom(s.queue, ByForwarder, s.forwarder.msg);
      }
    case _ =>
  }

  lemma {:induction false} OneResponse(rs: seq<Received>, r: Received)
    requires AllResponses(rs)
    ensures r.Response? ==> AllResponses(rs + [r]) && AllResponses([r]) && DataOf([r]) == [DataMessage(r.payload)]
  {
  }

  lemma {:induction false} OtherStep(c: Config, s: State, h: Past, step: Step, h': Past)
    requires ForwarderInv(s, h) && !IsForwarderStep(step)
    requires h'.results == h.results && h'.looked == h.looked
    requires h'.cancelled == (h.cancelled || step.Cancel? || (step.Handle? && s.loop.Idle? && step.msg.kind == CANCEL))
    ensures ForwarderInv(Next(c, s, step), h')
  {
    hide From, DataOf, AllResponses, Front, LastWords;
    if step.QueuePing? && s.loop.Pinging? {
      PushFrom(s.queue, ByLoop, PingMessage(s.pingId));
    } else if step.QueueReply? && s.loop.Replying? {
      PushFrom(s.queue, ByLoop, s.loop.msg);
    }
  }

  lemma {:induction false} LoopStep(c: Config, s: State, h: Past, step: Step, h': Past)
    requires LoopInv(c, s, h)
    requires h' == h.(results := h'.results, looked := h'.looked, cancelled := h'.cancelled)
    requires !step.SendPing? && !step.Handle? && !step.SendReturns? && !step.CloseSendReturns?
    ensures LoopInv(c, Next(c, s, step), h')
  {
    hide From, OfKind, Decodable, HalfCloses, Successes, Pings, ErrorsOf;
    if step.QueueData? && s.forwarder.Counted? {
      PushFrom(s.queue, ByForwarder, s.forwarder.msg);
    } else if step.QueueLast? && s.forwarder.Ending? {
      PushFrom(s.queue, ByForwarder, s.forwarder.msg);
    } else if step.QueuePing? && s.loop.Pinging? {
      PushFrom(s.queue, ByLoop, PingMessage(s.pingId));
      OfKindSnoc(From(s.queue, ByLoop), PingMessage(s.pingId), PING);
      OfKindSnoc(From(s.queue, ByLoop), PingMessage(s.pingId), ERROR);
      PingsOneMore(s.pingId);
    } else if step.QueueReply? && s.loop.Replying? {
      PushFrom(s.queue, ByLoop, s.loop.msg);
      OfKindSnoc(From(s.queue, ByLoop), s.loop.msg, PING);
      OfKindSnoc(From(s.queue, ByLoop), s.loop.msg, ERROR);
      NoneAppended(OfKind(From(s.queue, ByLoop), ERROR) + [s.loop.msg]);
    }
  }

  lemma {:induction false} CallStep(c: Config, s: State, h: Past, step: Step, h': Past)
    requires LoopInv(c, s, h)
    requires h' == match step
      case SendPing => if s.loop == Idle then h.(pings := h.pings + 1) else h
      case Handle(msg) => if s.loop == Idle then Meets(c, h.(arrived := h.arrived + [msg]), msg) else h
      case SendReturns(error) =>
        if s.loop == Sending then Complain(h.(sends := h.sends + [error]), error) else h
      case CloseSendReturns(error) =>
        if s.loop == Closing then Complain(h.(closes := h.closes + [error]), error) else h
      case _ => h
    requires step.SendPing? || step.Handle? || step.SendReturns? || step.CloseSendReturns?
    ensures LoopInv(c, Next(c, s, step), h')
  {
    hide From, OfKind, Decodable, HalfCloses, Successes, Pings, ErrorsOf;
    NoneAppended(OfKind(From(s.queue, ByLoop), ERROR));
    if step.Handle? && s.loop == Idle {
      HandleStep(c, s, h, step.msg);
    } else if step.SendReturns? && s.loop == Sending {
      SendsOneMore(h.sends, step.error);
      ErrorsOneMore(h.complaints, if step.error.Some? then step.error.value else "");
    } else if step.CloseSendReturns? && s.loop == Closing {
      ErrorsOneMore(h.complaints, if step.error.Some? then step.error.value else "");
    }
  }

  lemma {:induction false} HandleStep(c: Config, s: State, h: Past, msg: ControlMessage)
    requires LoopInv(c, s, h) && s.loop == Idle
    ensures LoopInv(c, HandleEffect(c, s, msg), Meets(c, h.(arrived := h.arrived + [msg]), msg))
  {
    hide From, OfKind, Decodable, HalfCloses, Successes, Pings, ErrorsOf;
    NoneAppended(OfKind(From(s.queue, ByLoop), ERROR));
    NoneAppended(s.requests);
    ArrivedOneMore(c, h.arrived, msg);
    if c.kind.Bidi? && msg.kind == DATA && c.decode(msg.data).Undecodable? {
      ErrorsOneMore(h.complaints, c.decode(msg.data).error);
    } else {
      ErrorsOneMore(h.complaints, "");
    }
  }

  lemma {:induction false} QueueStep(c: Config, s: State, h: Past, step: Step)
    requires ForwarderInv(s, h) && LoopInv(c, s, h) && QueueOk(c, s.queue)
    ensures QueueOk(c, Next(c, s, step).queue)
  {
    hide From, OfKind, Decodable, Pings, DataOf, Successes, HalfCloses, ErrorsOf, Front, HandleEffect;
    HandlingQueuesNothing(c, s, step);
    if s.forwarder.Counted? {
      assert DataOf([h.results[|h.results| - 1]])[0].kind == DATA by {
        OneResponse([], h.results[|h.results| - 1]);
      }
    }
  }

  lemma {:induction false} HandlingQueuesNothing(c: Config, s: State, step: Step)
    ensures step.Handle? ==> HandleEffect(c, s, step.msg).queue == s.queue
  {
  }

  lemma {:induction false} RunKeeps(c: Config, steps: seq<Step>)
    ensures Inv(c, Run(c, steps), Witnessed(c, steps))
  {
    hide Next, ForwarderInv, LoopInv, QueueOk, Meets;
    if steps == [] {
      NothingYet(c);
    } else {
      var before, step := steps[..|steps| - 1], steps[|steps| - 1];
      var s, h, h' := Run(c, before), Witnessed(c, before), Witnessed(c, steps);
      RunKeeps(c, before);
      QueueStep(c, s, h, step);
      if IsForwarderStep(step) {
        ForwarderStep(c, s, h, step, h');
      } else {
        OnlyCancels(c, steps);
        OtherStep(c, s, h, step, h');
      }
      if step.SendPing? || step.Handle? || step.SendReturns? || step.CloseSendReturns? {
        CallStep(c, s, h, step, h');
      } else {
        LoopStep(c, s, h, step, h');
      }
    }
  }

  lemma {:induction false} NothingYet(c: Config)
    ensures Inv(c, INITIAL, Witnessed(c, []))
  {
  }

  lemma {:induction false} OnlyCancels(c: Config, steps: seq<Step>)
    requires steps != [] && !IsForwarderStep(steps[|steps| - 1])
    ensures var before, step := steps[..|steps| - 1], steps[|steps| - 1];
            var h, h' := Witnessed(c, before), Witnessed(c, steps);
            && h'.results == h.results && h'.looked == h.looked
            && h'.cancelled ==
               (h.cancelled || step.Cancel? || (step.Handle? && Run(c, before).loop.Idle? && step.msg.kind == CANCEL))
  {
    hide Run, Next;
  }

  // ------------------------------------------------------------------- theorems

  /**
   What the forwarder puts into the queue, in every run, by what Recv has returned to it: a data
   envelope for every response, in order (the last one may still be in hand); after that, once
   it has stopped, a stream_end after an EOF, an error envelope after an error of encoding, and
   after a failure one exactly if the stream was not cancelled when the context was looked at.
   `MsgsSent` is the number of its data envelopes, or one more while one is in hand.
   */
  lemma {:induction false} ForwarderTrace(c: Config, steps: seq<Step>)
    ensures var s, h := Run(c, steps), Witnessed(c, steps);
            var out, rs := From(s.queue, ByForwarder), h.results;
            var n := |rs|;
            && (forall k :: 0 <= k < n - 1 ==> rs[k].Response?)
            && (n == 0 || rs[n - 1].Response? ==>
                 && |out| <= n <= |out| + 1 && (s.forwarder == Receiving ==> |out| == n)
                 && |out| <= s.msgsSent <= |out| + 1 && (s.forwarder == Receiving ==> s.msgsSent == n)
                 && forall k :: 0 <= k < |out| ==> out[k] == ControlMessage("data", rs[k].payload, "", 0))
            && (n > 0 && !rs[n - 1].Response? ==>
                 && |out| >= n - 1 && s.msgsSent == n - 1 && (s.forwarder != Stopped ==> |out| == n - 1)
                 && (forall k :: 0 <= k < n - 1 ==> out[k] == ControlMessage("data", rs[k].payload, "", 0))
                 && (s.forwarder == Stopped ==>
                      && (rs[n - 1].Eof? ==> out[n - 1..] == [ControlMessage("stream_end", Null, "", 0)])
                      && (rs[n - 1].Unencodable? ==> out[n - 1..] == [ControlMessage("error", Null, rs[n - 1].error, 0)])
                      && (rs[n - 1].Failed? ==>
                           && h.looked.Some?
                           && out[n - 1..] == if h.looked.value then []
                                              else [ControlMessage("error", Null, rs[n - 1].error, 0)])))
  {
    RunKeeps(c, steps);
    var s, h := Run(c, steps), Witnessed(c, steps);
    hide From, Run, Witnessed, LoopInv;
    var rs := h.results;
    assert rs != [] ==> forall k :: 0 <= k < |rs| - 1 ==> Front(rs)[k] == rs[k];
  }

  /** What has happened stays so. */
  lemma {:induction false} PastGrows(c: Config, steps: seq<Step>, k: nat)
    requires k <= |steps|
    ensures var h, h' := Witnessed(c, steps[..k]), Witnessed(c, steps);
            && h.results <= h'.results && (h.cancelled ==> h'.cancelled)
            && (h'.looked == Some(false) ==> h.looked == Some(false) || !h.cancelled)
  {
    hide Run, Next;
    if k == |steps| {
      assert steps[..k] == steps;
    } else {
      PastGrows(c, steps[..|steps| - 1], k);
      assert steps[..|steps| - 1][..k] == steps[..k];
    }
  }

  /** A failure of Recv after a cancel is not reported: the queue holds the responses before it and no more. */
  lemma {:induction false} CancelIsSilent(c: Config, steps: seq<Step>, k: nat)
    requires k < |steps| && steps[k].Recv? && steps[k].result.Failed?
    requires Run(c, steps[..k]).forwarder == Receiving && Witnessed(c, steps[..k]).cancelled
    ensures var rs := Witnessed(c, steps[..k]).results;
            var out := From(Run(c, steps).queue, ByForwarder);
            |out| == |rs| && forall j :: 0 <= j < |rs| ==>
              rs[j].Response? && out[j] == ControlMessage("data", rs[j].payload, "", 0)
  {
    RunKeeps(c, steps[..k]);
    RunKeeps(c, steps);
    PastGrows(c, steps, k + 1);
    var h, h' := Witnessed(c, steps[..k]), Witnessed(c, steps);
    assert steps[..k + 1][..k] == steps[..k];
    assert Witnessed(c, steps[..k + 1]) == h.(results := h.results + [steps[k].result]);
    hide From, Run, Witnessed, LoopInv;
    FailureIsLast(h, h', steps[k].result);
    SilentEnd(Run(c, steps), h', h.results);
  }

  lemma {:induction false} FailureIsLast(h: Past, h': Past, r: Received)
    requires AllResponses(Front(h'.results)) && h.results + [r] <= h'.results && r.Failed?
    ensures h'.results == h.results + [r] && AllResponses(h.results)
  {
    var n := |h.results|;
    assert h'.results[n] == r;
    assert forall k :: 0 <= k < |h'.results| - 1 ==> Front(h'.results)[k] == h'.results[k];
    assert h'.results[..n + 1] == h.results + [r];
    FrontOneMore(h.results, r);
  }

  lemma {:induction false} SilentEnd(s: State, h: Past, rs: seq<Received>)
    requires ForwarderInv(s, h) && rs < h.results && AllResponses(rs) && |rs| == |h.results| - 1
    requires h.results[|rs|].Failed? && h.looked != Some(false)
    ensures From(s.queue, ByForwarder) == DataOf(rs)
  {
    hide From;
    assert Front(h.results) == rs;
    NoneAppended(DataOf(rs));
    var last := h.results[|h.results| - 1];
    assert last.Failed?;
    assert h.looked.Some? ==> h.looked == Some(h.looked.value);
    assert h.looked.Some? ==> h.looked.value;
    assert h.looked.Some? ==> LastWords(last, h.looked) == [];
  }

  /** In a server stream only pings come from anyone else, so without them the queue is the forwarder's trace. */
  lemma {:induction false} ServerStreamTrace(c: Config, steps: seq<Step>)
    requires c.kind.ServerStream?
    ensures var s, h := Run(c, steps), Witnessed(c, steps);
            From(s.queue, ByLoop) == Pings(h.pings - One(s.loop.Pinging? && h.pings > 0))
    ensures Run(c, steps).requests == []
  {
    hide Run, Witnessed, From, OfKind, DataOf, LastWords, Decodable, HalfCloses, Successes, Pings, ErrorsOf;
    RunKeeps(c, steps);
    OnlyPings(c, Run(c, steps).queue);
    NoRequests(c, Witnessed(c, steps).arrived);
  }

  lemma {:induction false} OnlyOfKind(msgs: seq<ControlMessage>, kind: string)
    requires forall k :: 0 <= k < |msgs| ==> msgs[k].kind == kind
    ensures OfKind(msgs, kind) == msgs
  {
    if msgs != [] {
      OnlyOfKind(msgs[..|msgs| - 1], kind);
    }
  }

  lemma {:induction false} OnlyPings(c: Config, queue: seq<Queued>)
    requires c.kind.ServerStream? && QueueOk(c, queue)
    ensures OfKind(From(queue, ByLoop), PING) == From(queue, ByLoop)
  {
    if queue != [] {
      var before, q := queue[..|queue| - 1], queue[|queue| - 1];
      OnlyPings(c, before);
      FromLast(queue, ByLoop);
      if q.source == ByLoop {
        OfKindSnoc(From(before, ByLoop), q.msg, PING);
      }
    }
  }

  lemma {:induction false} NoRequests(c: Config, arrived: seq<ControlMessage>)
    requires c.kind.ServerStream?
    ensures Decodable(c, arrived) == []
  {
    if arrived != [] {
      NoRequests(c, arrived[..|arrived| - 1]);
    }
  }

  /**
   The message handler and the ping timer, in every run, by what has happened: the requests
   passed to Send are those the data messages decode to, in arrival order, one call for each;
   CloseSend is called once for each end_send; the error envelopes queued are the complaints of
   decoding, Send and CloseSend, in order; an idle handler has counted exactly the Sends that
   succeeded; the pings carry the numbers 1, 2, 3, and so on; the stream is cancelled exactly if
   somebody has cancelled it.
   */
  lemma {:induction false} HandlerTrace(c: Config, steps: seq<Step>)
    ensures var s, h := Run(c, steps), Witnessed(c, steps);
            && s.requests == Decodable(c, h.arrived) && |s.requests| == |h.sends| + One(s.loop.Sending?)
            && HalfCloses(c, h.arrived) == |h.closes| + One(s.loop.Closing?)
            && OfKind(From(s.queue, ByLoop), "error") + (if s.loop.Replying? then [s.loop.msg] else []) ==
               ErrorsOf(h.complaints)
            && (s.loop == Idle ==> s.msgsReceived == Successes(h.sends))
            && OfKind(All(s.queue), "ping") == Pings(h.pings - One(s.loop.Pinging? && h.pings > 0))
            && s.cancelled == h.cancelled
  {
    hide Run, Witnessed, From, OfKind, DataOf, LastWords, Decodable, HalfCloses, Successes, Pings, ErrorsOf;
    RunKeeps(c, steps);
    KindsOfQueue(c, Run(c, steps).queue);
  }

  /** The data envelopes in the queue are those of the responses received, as far as they have come. */
  lemma {:induction false} DataTrace(c: Config, steps: seq<Step>)
    ensures var s, h := Run(c, steps), Witnessed(c, steps);
            var n := s.msgsSent - One(s.forwarder.Counted?);
            && 0 <= n <= |h.results| && AllResponses(h.results[..n])
            && OfKind(All(s.queue), "data") == DataOf(h.results[..n])
            && (s.forwarder == Stopped ==> n == |h.results| - 1)
  {
    RunKeeps(c, steps);
    KindsOfQueue(c, Run(c, steps).queue);
    ForwarderData(Run(c, steps), Witnessed(c, steps));
  }

  lemma {:induction false} ForwarderData(s: State, h: Past)
    requires ForwarderInv(s, h)
    ensures var n := s.msgsSent - One(s.forwarder.Counted?);
            && 0 <= n <= |h.results| && AllResponses(h.results[..n])
            && OfKind(From(s.queue, ByForwarder), DATA) == DataOf(h.results[..n])
            && (s.forwarder == Stopped ==> n == |h.results| - 1)
  {
    hide From, OfKind;
    var rs := h.results;
    if s.forwarder == Receiving {
      assert rs[..|rs|] == rs;
      OnlyOfKind(DataOf(rs), DATA);
    } else {
      assert Front(rs) == rs[..|rs| - 1];
      NoDataLast(Front(rs), []);
      NoneAppended(DataOf(Front(rs)));
      if s.forwarder == Stopped {
        NoDataLast(Front(rs), LastWords(rs[|rs| - 1], h.looked));
      }
    }
  }

  lemma {:induction false} NoDataLast(rs: seq<Received>, last: seq<ControlMessage>)
    requires AllResponses(rs) && |last| <= 1 && (last != [] ==> last[0].kind != DATA)
    ensures OfKind(DataOf(rs) + last, DATA) == DataOf(rs)
  {
    OnlyOfKind(DataOf(rs), DATA);
    if last == [] {
      NoneAppended(DataOf(rs));
    } else {
      OfKindSnoc(DataOf(rs), last[0], DATA);
    }
  }

  lemma {:induction false} NothingInQueue()
    ensures All([]) == [] && forall source, kind :: OfKind([], kind) == From([], source) == []
  {
  }

  lemma {:induction false} KindsOfQueue(c: Config, queue: seq<Queued>)
    requires QueueOk(c, queue)
    ensures OfKind(All(queue), PING) == OfKind(From(queue, ByLoop), PING)
    ensures OfKind(All(queue), DATA) == OfKind(From(queue, ByForwarder), DATA)
  {
    hide OfKind, From;
    if queue != [] {
      var before, q := queue[..|queue| - 1], queue[|queue| - 1];
      KindsOfQueue(c, before);
      assert All(queue) == All(before) + [q.msg];
      FromLast(queue, ByLoop);
      FromLast(queue, ByForwarder);
      OfKindSnoc(All(before), q.msg, PING);
      OfKindSnoc(From(before, q.source), q.msg, PING);
      OfKindSnoc(All(before), q.msg, DATA);
      OfKindSnoc(From(before, q.source), q.msg, DATA);
    } else {
      NothingInQueue();
    }
  }

  /** After a stream_end nothing from the stream is queued. */
  predicate EndClosesQueue(s: State) {
    forall k :: 0 <= k < |s.queue| && s.queue[k].msg.kind == "stream_end" ==>
      s.forwarder.Stopped? && forall j :: k < j < |s.queue| ==> s.queue[j].msg.kind in ["ping", "error"]
  }

  lemma {:induction false} EndStep(c: Config, s: State, h: Past, step: Step)
    requires Inv(c, s, h) && EndClosesQueue(s)
    ensures EndClosesQueue(Next(c, s, step))
  {
    var hand := if s.forwarder.Counted? then s.forwarder.msg.kind else DATA;
    if s.forwarder.Counted? {
      OneResponse([], h.results[|h.results| - 1]);
    }
    assert hand == DATA && (s.loop.Replying? ==> s.loop.msg.kind == ERROR);
    hide Inv, ForwarderInv, LoopInv;
    MovesForward(c, s, step);
    hide Next;
    assert forall k :: 0 <= k < |s.queue| && s.queue[k].msg.kind == STREAM_END ==> s.forwarder.Stopped?;
  }

  /** A step queues at most one message, and a stopped forwarder stays so and queues nothing. */
  lemma {:induction false} MovesForward(c: Config, s: State, step: Step)
    requires s.forwarder.Counted? ==> s.forwarder.msg.kind == DATA
    requires s.loop.Replying? ==> s.loop.msg.kind == ERROR
    ensures var s' := Next(c, s, step);
            && (s.forwarder.Stopped? ==> s'.forwarder.Stopped?)
            && (s'.queue == s.queue ||
                 (exists q ::
                   && s'.queue == s.queue + [q]
                   && (q.msg.kind in [PING, ERROR] || !s.forwarder.Stopped?)
                   && (q.msg.kind == STREAM_END ==> s'.forwarder.Stopped?)))
  {
    HandlingQueuesNothing(c, s, step);
    HandlingLeavesForwarder(c, s, step);
    hide HandleEffect;
    if step.QueuePing? && s.loop.Pinging? {
      assert Next(c, s, step).queue == s.queue + [Queued(ByLoop, PingMessage(s.pingId))];
    } else if step.QueueReply? && s.loop.Replying? {
      assert Next(c, s, step).queue == s.queue + [Queued(ByLoop, s.loop.msg)];
    } else if (step.QueueData? && s.forwarder.Counted?) || (step.QueueLast? && s.forwarder.Ending?) {
      assert Next(c, s, step).queue == s.queue + [Queued(ByForwarder, s.forwarder.msg)];
    }
  }

  lemma {:induction false} HandlingLeavesForwarder(c: Config, s: State, step: Step)
    ensures step.Handle? ==> HandleEffect(c, s, step.msg).forwarder == s.forwarder
  {
  }

  /** At most one stream_end is queued, and no data after it. */
  lemma {:induction false} EndIsLast(c: Config, steps: seq<Step>)
    ensures EndClosesQueue(Run(c, steps))
  {
    hide Next, Inv, EndClosesQueue;
    if steps != [] {
      var before := steps[..|steps| - 1];
      EndIsLast(c, before);
      RunKeeps(c, before);
      EndStep(c, Run(c, before), Witnessed(c, before), steps[|steps| - 1]);
    } else {
      NothingQueued();
    }
  }

  lemma {:induction false} NothingQueued()
    ensures EndClosesQueue(INITIAL)
  {
  }

  // ------------------------------------------------------------------- the class

  /** The steps of one call of `HandleMessage`; a step whose turn it is not does nothing. */
  function HandlingSteps(msg: ControlMessage, error: Option<string>): seq<Step> {
    [Handle(msg), SendReturns(error), CountReceived, CloseSendReturns(error), QueueReply]
  }

  /** The steps of one round of the forwarder's loop, and of several. */
  function RoundSteps(result: Received): seq<Step> {
    [Recv(result), CountSent, QueueData, LookAtContext, QueueLast]
  }

  function RoundsSteps(results: seq<Received>): seq<Step> {
    if results == [] then [] else RoundsSteps(results[..|results| - 1]) + RoundSteps(results[|results| - 1])
  }

  lemma {:induction false} FiveMore(c: Config, steps: seq<Step>, a: Step, b: Step, d: Step, e: Step, f: Step)
    ensures Run(c, steps + [a, b, d, e, f]) == Next(c, Next(c, Next(c, Next(c, Next(c, Run(c, steps), a), b), d), e), f)
  {
    hide Run, Next;
    RunOneMore(c, steps, a);
    RunOneMore(c, steps + [a], b);
    RunOneMore(c, steps + [a] + [b], d);
    RunOneMore(c, steps + [a] + [b] + [d], e);
    RunOneMore(c, steps + [a] + [b] + [d] + [e], f);
    assert steps + [a] + [b] + [d] + [e] + [f] == steps + [a, b, d, e, f];
  }

  /** What the steps of a ping amount to. */
  lemma {:induction false} PingIs(c: Config, steps: seq<Step>)
    requires Run(c, steps).loop.Idle?
    ensures var s := Run(c, steps);
            Run(c, steps + [SendPing, QueuePing]) ==
            Push(s.(pingId := s.pingId + 1), ByLoop, PingMessage(s.pingId + 1))
  {
    RunOneMore(c, steps, SendPing);
    RunOneMore(c, steps + [SendPing], QueuePing);
    assert steps + [SendPing] + [QueuePing] == steps + [SendPing, QueuePing];
  }

  lemma {:induction false} HandlingIs(c: Config, steps: seq<Step>, msg: ControlMessage, error: Option<string>)
    requires Run(c, steps).loop.Idle?
    ensures var s := Run(c, steps);
            Run(c, steps + HandlingSteps(msg, error)) ==
            if msg.kind == CANCEL then s.(cancelled := true)
            else if c.kind.Bidi? && msg.kind == DATA then
              (match c.decode(msg.data)
               case Undecodable(e) => Push(s, ByLoop, ErrorMessage(e))
               case Request(r) =>
                 var sent := s.(requests := s.requests + [r]);
                 if error.Some? then Push(sent, ByLoop, ErrorMessage(error.value))
                 else sent.(msgsReceived := s.msgsReceived + 1))
            else if c.kind.Bidi? && msg.kind == END_SEND && error.Some? then
              Push(s, ByLoop, ErrorMessage(error.value))
            else s
  {
    hide Run;
    FiveMore(c, steps, Handle(msg), SendReturns(error), CountReceived, CloseSendReturns(error), QueueReply);
  }

  lemma {:induction false} RoundIs(c: Config, steps: seq<Step>, result: Received)
    requires Run(c, steps).forwarder.Receiving?
    ensures var s := Run(c, steps);
            Run(c, steps + RoundSteps(result)) ==
            match result
            case Response(p) => Push(s.(msgsSent := s.msgsSent + 1), ByForwarder, DataMessage(p))
            case Eof => Push(s.(forwarder := Stopped), ByForwarder, EndMessage())
            case Unencodable(e) => Push(s.(forwarder := Stopped), ByForwarder, ErrorMessage(e))
            case Failed(e) =>
              if s.cancelled then s.(forwarder := Stopped)
              else Push(s.(forwarder := Stopped), ByForwarder, ErrorMessage(e))
  {
    hide Run;
    FiveMore(c, steps, Recv(result), CountSent, QueueData, LookAtContext, QueueLast);
  }

  /**
   The connection object. Each method, run without interruption, is a run of its steps, so an
   object is always in a state the theorems above speak of.
   */
  class StreamConn {
    const config: Config
    var queue: seq<Queued>
    var cancelled: bool
    var msgsSent: nat
    var msgsReceived: nat
    var pingId: nat
    var requests: seq<Json>
    ghost var steps: seq<Step>

    ghost function State(): State
      reads this
    {
      Run(config, steps)
    }

    ghost predicate Valid()
      reads this
    {
      && queue == State().queue && cancelled == State().cancelled && requests == State().requests
      && msgsSent == State().msgsSent && msgsReceived == State().msgsReceived && pingId == State().pingId
    }

    constructor (config: Config)
      ensures Valid() && steps == [] && this.config == config
    {
      this.config, queue, cancelled, requests := config, [], false, [];
      msgsSent, msgsReceived, pingId, steps := 0, 0, 0, [];
    }

    method SendOutput(source: Source, msg: ControlMessage)
      modifies `queue
      ensures queue == old(queue) + [Queued(source, msg)]
    {
      queue := queue + [Queued(source, msg)];
    }

    method SendPing()
      requires Valid() && State().loop.Idle?
      modifies this
      ensures Valid() && State().loop.Idle? && steps == old(steps) + [Step.SendPing, QueuePing]
      ensures queue == old(queue) + [Queued(ByLoop, ControlMessage("ping", Null, "", pingId))]
      ensures pingId == old(pingId) + 1
    {
      PingIs(config, steps);
      steps := steps + [Step.SendPing, QueuePing];
      pingId := pingId + 1;
      SendOutput(ByLoop, PingMessage(pingId));
    }

    /** `error` is what `stream.Send` or `stream.CloseSend` returns, if one is called. */
    method HandleMessage(msg: ControlMessage, error: Option<string>) returns (err: Option<string>)
      requires Valid() && State().loop.Idle?
      modifies this
      ensures Valid() && State().loop.Idle? && steps == old(steps) + HandlingSteps(msg, error)
      ensures cancelled == (old(cancelled) || msg.kind == "cancel")
      ensures var decoded := config.decode(msg.data);
              var handled := config.kind.Bidi? && msg.kind == "data";
              var called := (handled && decoded.Request?) || (config.kind.Bidi? && msg.kind == "end_send");
              && requests == old(requests) + (if handled && decoded.Request? then [decoded.json] else [])
              && err == (if called then error else None)
              && queue == old(queue) +
                 (if handled && decoded.Undecodable?
                  then [Queued(ByLoop, ControlMessage("error", Null, decoded.error, 0))]
                  else if called && error.Some? then [Queued(ByLoop, ControlMessage("error", Null, error.value, 0))]
                  else [])
              && msgsReceived == old(msgsReceived) + One(handled && decoded.Request? && error.None?)
    {
      HandlingIs(config, steps, msg, error);
      steps := steps + HandlingSteps(msg, error);
      hide Run, HandlingSteps;
      err := None;
      if msg.kind == CANCEL {
        cancelled := true;
      } else if config.kind.Bidi? && msg.kind == DATA {
        match config.decode(msg.data)
        case Undecodable(e) =>
          SendOutput(ByLoop, ErrorMessage(e));
        case Request(req) =>
          requests := requests + [req];
          if error.Some? {
            SendOutput(ByLoop, ErrorMessage(error.value));
            return error;
          }
          msgsReceived := msgsReceived + 1;
      } else if config.kind.Bidi? && msg.kind == END_SEND {
        if error.Some? {
          SendOutput(ByLoop, ErrorMessage(error.value));
          return error;
        }
      }
    }

    /**
     The loop, until it is left or Recv has nothing more to return: a data envelope for each
     response, then, if it is left, what the last result calls for.
     */
    method ForwardResponses(results: seq<Received>) returns (stopped: bool, responses: nat)
      requires Valid() && State().forwarder.Receiving?
      modifies this
      ensures Valid() && (stopped <==> State().forwarder.Stopped?)
      ensures var taken := if stopped && responses < |results| then responses + 1 else |results|;
              steps == old(steps) + RoundsSteps(results[..taken])
      ensures responses <= |results| && forall k :: 0 <= k < responses ==> results[k].Response?
      ensures stopped <==> responses < |results|
      ensures stopped ==> !results[responses].Response?
      ensures msgsSent == old(msgsSent) + responses
      ensures |queue| >= |old(queue)| + responses && queue[..|old(queue)|] == old(queue)
      ensures forall k :: 0 <= k < responses ==>
                queue[|old(queue)| + k] == Queued(ByForwarder, ControlMessage("data", results[k].payload, "", 0))
      ensures var last := queue[|old(queue)| + responses..];
              && (!stopped ==> last == [])
              && (stopped ==>
                   match results[responses]
                   case Eof => last == [Queued(ByForwarder, ControlMessage("stream_end", Null, "", 0))]
                   case Unencodable(e) => last == [Queued(ByForwarder, ControlMessage("error", Null, e, 0))]
                   case Failed(e) =>
                     last == if old(cancelled) then [] else [Queued(ByForwarder, ControlMessage("error", Null, e, 0))]
                   case Response(_) => true)
    {
      hide Run, RoundSteps;
      responses := 0;
      assert results[..0] == [] && old(steps) + [] == old(steps);
      while responses < |results|
        invariant Valid() && State().forwarder.Receiving? && cancelled == old(cancelled)
        invariant responses <= |results| && steps == old(steps) + RoundsSteps(results[..responses])
        invariant forall k :: 0 <= k < responses ==> results[k].Response?
        invariant msgsSent == old(msgsSent) + responses
        invariant |queue| == |old(queue)| + responses && queue[..|old(queue)|] == old(queue)
        invariant forall k :: 0 <= k < responses ==>
                    queue[|old(queue)| + k] == Queued(ByForwarder, ControlMessage("data", results[k].payload, "", 0))
      {
        assert results[..responses + 1][..responses] == results[..responses];
        AppendAssociates(old(steps), RoundsSteps(results[..responses]), RoundSteps(results[responses]));
        ghost var before := queue;
        stopped := ForwardOne(results[responses]);
        assert queue[..|before|] == before;
        if stopped {
          return;
        }
        responses := responses + 1;
      }
      assert results[..responses] == results[..|results|];
      return false, responses;
    }

    method ForwardOne(result: Received) returns (stopped: bool)
      requires Valid() && State().forwarder.Receiving?
      modifies this
      ensures Valid() && steps == old(steps) + RoundSteps(result) && cancelled == old(cancelled)
      ensures State().forwarder == if stopped then Stopped else Receiving
      ensures stopped <==> !result.Response?
      ensures msgsSent == old(msgsSent) + One(result.Response?)
      ensures queue == old(queue) +
              match result
              case Response(p) => [Queued(ByForwarder, ControlMessage("data", p, "", 0))]
              case Eof => [Queued(ByForwarder, ControlMessage("stream_end", Null, "", 0))]
              case Unencodable(e) => [Queued(ByForwarder, ControlMessage("error", Null, e, 0))]
              case Failed(e) =>
                if cancelled then [] else [Queued(ByForwarder, ControlMessage("error", Null, e, 0))]
    {
      RoundIs(config, steps, result);
      steps := steps + RoundSteps(result);
      hide Run, RoundSteps;
      match result
      case Eof =>
        SendOutput(ByForwarder, EndMessage());
        return true;
      case Failed(e) =>
        if !cancelled {
          SendOutput(ByForwarder, ErrorMessage(e));
        }
        return true;
      case Unencodable(e) =>
        SendOutput(ByForwarder, ErrorMessage(e));
        return true;
      case Response(p) =>
        msgsSent := msgsSent + 1;
        SendOutput(ByForwarder, DataMessage(p));
        return false;
    }
  }
}
