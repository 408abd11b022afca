/**
 The event loop of a WebSocket connection (http/ws.go, `WSHandleConn`): a select over the
 ping ticker, the pong checker and the reader, with deferred cleanup. Its inputs are the
 events in the order the select takes them, each with its time and the answer of the hook
 it may call; times are seconds.
 */
module WsLoop {
  import opened Wrappers
  import opened Text

  // Close codes (RFC 6455, section 7.4.1).
  const CLOSE_GOING_AWAY: int := 1001
  const CLOSE_NO_STATUS: int := 1005
  const CLOSE_ABNORMAL: int := 1006

  /** What reading a message gives; `NetClosed` is `net.ErrClosed`. */
  datatype ReadResult =
    | Message(text: string)
    | ReadEof
    | CloseFrame(code: int)
    | NetClosed
    | ReadFailed(error: string)

  /** What the reader hands over: an unexpected close frame becomes `net.ErrClosed`. */
  function HandedOver(result: ReadResult): ReadResult {
    if result.CloseFrame? && result.code !in {CLOSE_GOING_AWAY, CLOSE_NO_STATUS, CLOSE_ABNORMAL} then NetClosed
    else result
  }

  /** `closes` is what `OnTimeout` returns, or whether `OnError` returns an error. */
  datatype Event =
    | PingTick(at: real)
    | PongTick(at: real, closes: bool)
    | ReadDone(at: real, result: ReadResult, closes: bool)

  datatype Hook =
    | OnStart
    | SendPing
    | OnTimeout
    | HandleMessage(text: string)
    | OnError(result: ReadResult)
    | OnClose

  datatype Reason = NotStarted | HeartbeatLost | WentAway | Failed

  datatype Exit = Exit(at: real, reason: Reason)

  /** What one event does: the hooks called, the time of the last read, and perhaps the end. */
  datatype Reaction = Reaction(hooks: seq<Hook>, lastReadAt: real, exit: Option<Reason>)

  function React(period: real, lastReadAt: real, e: Event): Reaction {
    match e
    case PingTick(_) => Reaction([SendPing], lastReadAt, None)
    case PongTick(at, closes) =>
      if at - lastReadAt > period
      then Reaction([OnTimeout], lastReadAt, if closes then Some(HeartbeatLost) else None)
      else Reaction([], lastReadAt, None)
    case ReadDone(at, read, closes) =>
      var result := HandedOver(read);
      match result
      case Message(text) => Reaction([HandleMessage(text)], at, None)
      case ReadEof => Reaction([], at, None)
      case _ =>
        if result == CloseFrame(CLOSE_GOING_AWAY) then Reaction([], at, Some(WentAway))
        else Reaction([OnError(result)], at, if closes then Some(Failed) else None)
  }

  /** The hooks called on the way through the events, how many were taken, and the end if it came. */
  datatype Trace = Trace(hooks: seq<Hook>, used: nat, exit: Option<Exit>)

  function Loop(period: real, lastReadAt: real, events: seq<Event>): (t: Trace)
    ensures t.used <= |events| && (t.exit.None? ==> t.used == |events|)
    decreases |events|
  {
    if events == [] then Trace([], 0, None)
    else
      var r := React(period, lastReadAt, events[0]);
      if r.exit.Some? then Trace(r.hooks, 1, Some(Exit(events[0].at, r.exit.value)))
      else
        var later := Loop(period, r.lastReadAt, events[1..]);
        Trace(r.hooks + later.hooks, later.used + 1, later.exit)
  }

  /** With the deferred `OnClose`, which runs when the loop is left. */
  function Handled(started: bool, start: real, period: real, events: seq<Event>): Trace {
    if !started then Trace([OnStart, OnClose], 0, Some(Exit(start, NotStarted)))
    else
      var t := Loop(period, start, events);
      Trace([OnStart] + t.hooks + (if t.exit.Some? then [OnClose] else []), t.used, t.exit)
  }

  /** The select: what is done for one event, and whether the loop is left. */
  method Select(period: real, lastReadAt: real, e: Event) returns (r: Reaction)
    ensures r == React(period, lastReadAt, e)
  {
    r := Reaction([], lastReadAt, None);
    match e
    case PingTick(_) =>
      r := r.(hooks := [SendPing]);
    case PongTick(at, closes) =>
      var hbDelta := at - lastReadAt;
      if hbDelta > period {
        r := r.(hooks := [OnTimeout]);
        if closes {
          r := r.(exit := Some(HeartbeatLost));
        }
      }
    case ReadDone(at, read, closes) =>
      var result := HandedOver(read);
      r := r.(lastReadAt := at);
      if result.Message? {
        r := r.(hooks := [HandleMessage(result.text)]);
      } else if !result.ReadEof? {
        if result.CloseFrame? && result.code == CLOSE_GOING_AWAY {
          r := r.(exit := Some(WentAway));
          return;
        }
        r := r.(hooks := [OnError(result)]);
        if closes {
          r := r.(exit := Some(Failed));
        }
      }
  }

  method WSHandleConn(started: bool, start: real, period: real, events: seq<Event>)
    returns (hooks: seq<Hook>, exit: Option<Exit>)
    ensures var t := Handled(started, start, period, events); hooks == t.hooks && exit == t.exit
  {
    hide React;
    var lastReadAt := start;
    hooks, exit := [OnStart], None;
    if !started {
      hooks, exit := hooks + [OnClose], Some(Exit(start, NotStarted));
      return;
    }
    ghost var all := Loop(period, start, events);
    ghost var called: seq<Hook> := [];
    var i := 0;
    while i < |events|
      invariant i <= |events| && exit == None && hooks == [OnStart] + called
      invariant var later := Loop(period, lastReadAt, events[i..]);
                all == Trace(called + later.hooks, i + later.used, later.exit)
    {
      var r := Select(period, lastReadAt, events[i]);
      ghost var later := Loop(period, r.lastReadAt, events[i + 1..]);
      assert events[i..][1..] == events[i + 1..];
      AppendAssociates([OnStart], called, r.hooks);
      AppendAssociates(called, r.hooks, later.hooks);
      hooks, called, lastReadAt := hooks + r.hooks, called + r.hooks, r.lastReadAt;
      if r.exit.Some? {
        exit := Some(Exit(events[i].at, r.exit.value));
        break;
      }
      i := i + 1;
    }
    if exit.Some? {
      hooks := hooks + [OnClose];
    } else {
      assert events[i..] == [] && called + [] == called;
    }
  }

  // --------------------------------------------------------------- the hooks

  /** The last read result before event `i` is event `k`. */
  predicate LastRead(events: seq<Event>, i: nat, k: int)
    requires i <= |events|
  {
    0 <= k < i && events[k].ReadDone? && forall j :: k < j < i ==> !events[j].ReadDone?
  }

  /** The pong checker finds more than a period since the last read result, or since the start if there was none. */
  predicate Late(period: real, since: real, events: seq<Event>, i: nat)
    requires i < |events|
  {
    && events[i].PongTick?
    && (forall k :: 0 <= k < i && LastRead(events, i, k) ==> events[i].at - events[k].at > period)
    && ((forall k :: 0 <= k < i ==> !events[k].ReadDone?) ==> events[i].at - since > period)
  }

  /**
   The hook an event calls for: a ping for a ping tick; OnTimeout for a late pong tick; for a
   read result HandleMessage with a message, OnError with an error, and nothing at the end of the
   stream or when the peer goes away.
   */
  function HookFor(period: real, since: real, events: seq<Event>, i: nat): seq<Hook>
    requires i < |events|
  {
    match events[i]
    case PingTick(_) => [SendPing]
    case PongTick(_, _) => if Late(period, since, events, i) then [OnTimeout] else []
    case ReadDone(_, result, _) =>
      match result
      case Message(text) => [HandleMessage(text)]
      case ReadEof => []
      case CloseFrame(code) =>
        if code == 1001 then [] else [OnError(if code == 1005 || code == 1006 then result else NetClosed)]
      case _ => [OnError(result)]
  }

  /** The hooks of the events from `i` up to `n`. */
  function HooksFor(period: real, since: real, events: seq<Event>, i: nat, n: nat): seq<Hook>
    requires i <= n <= |events|
    decreases n - i
  {
    if i == n then [] else HookFor(period, since, events, i) + HooksFor(period, since, events, i + 1, n)
  }

  /** After the first event, the same with that event taken off. */
  lemma {:induction false} LateLater(period: real, since: real, events: seq<Event>, i: nat)
    requires 1 <= i < |events|
    ensures Late(period, since, events, i) <==>
            Late(period, React(period, since, events[0]).lastReadAt, events[1..], i - 1)
  {
    hide HandedOver;
    var rest := events[1..];
    var last := React(period, since, events[0]).lastReadAt;
    assert rest[i - 1] == events[i];
    assert forall k :: 0 <= k < |rest| ==> rest[k] == events[k + 1];
    assert forall k :: 1 <= k < |events| ==> events[k] == rest[k - 1];
    forall k | LastRead(events, i, k) && k >= 1
      ensures LastRead(rest, i - 1, k - 1)
    {
      LastReadLater(events, i, k);
    }
    forall k {:trigger LastRead(rest, i - 1, k)} | LastRead(rest, i - 1, k)
      ensures LastRead(events, i, k + 1)
    {
      LastReadLater(events, i, k + 1);
    }
    assert LastRead(events, i, 0) <==> events[0].ReadDone? && forall k :: 0 <= k < i - 1 ==> !rest[k].ReadDone?;
    assert last == if events[0].ReadDone? then events[0].at else since;
  }

  lemma {:induction false} LastReadLater(events: seq<Event>, i: nat, k: int)
    requires 1 <= i < |events|
    ensures k >= 1 ==> (LastRead(events, i, k) <==> LastRead(events[1..], i - 1, k - 1))
    ensures LastRead(events[1..], i - 1, k) ==> k >= 0
  {
    var rest := events[1..];
    assert forall j :: 0 <= j < |rest| ==> rest[j] == events[j + 1];
    assert forall j :: 1 <= j < |events| ==> events[j] == rest[j - 1];
  }

  lemma {:induction false} HooksLater(period: real, since: real, events: seq<Event>, i: nat, n: nat)
    requires 1 <= i <= n <= |events|
    ensures HooksFor(period, since, events, i, n) ==
            HooksFor(period, React(period, since, events[0]).lastReadAt, events[1..], i - 1, n - 1)
    decreases n - i
  {
    hide React, Late, HookFor;
    if i < n {
      HookLater(period, since, events, i);
      HooksLater(period, since, events, i + 1, n);
    }
  }

  lemma {:induction false} HookLater(period: real, since: real, events: seq<Event>, i: nat)
    requires 1 <= i < |events|
    ensures HookFor(period, since, events, i) ==
            HookFor(period, React(period, since, events[0]).lastReadAt, events[1..], i - 1)
  {
    LateLater(period, since, events, i);
    hide React, Late;
    assert events[1..][i - 1] == events[i];
  }

  lemma {:induction false} LoopHooks(period: real, since: real, events: seq<Event>)
    ensures var t := Loop(period, since, events);
            t.hooks == HooksFor(period, since, events, 0, t.used)
    decreases |events|
  {
    hide HandedOver;
    if events != [] {
      var r := React(period, since, events[0]);
      FirstHook(period, since, events);
      hide React, HookFor;
      var n := Loop(period, since, events).used;
      HooksLater(period, since, events, 1, n);
      if r.exit.None? {
        LoopHooks(period, r.lastReadAt, events[1..]);
      } else {
        NoneAppended(r.hooks);
      }
    }
  }

  lemma {:induction false} FirstHook(period: real, since: real, events: seq<Event>)
    requires events != []
    ensures React(period, since, events[0]).hooks == HookFor(period, since, events, 0)
  {
  }

  /**
   On every run: OnStart comes first; then exactly the hooks the events taken call for, in their
   order; and if the connection is left, OnClose, once. If OnStart fails there is nothing between
   the two, and the connection is left at once; otherwise it is left only from the loop.
   */
  lemma {:induction false} HookProtocol(started: bool, start: real, period: real, events: seq<Event>)
    ensures var t := Handled(started, start, period, events);
            && (!started ==> t.hooks == [OnStart, OnClose] && t.exit == Some(Exit(start, NotStarted)))
            && (started ==>
                 && t.used <= |events|
                 && t.hooks == [OnStart] + HooksFor(period, start, events, 0, t.used) +
                               (if t.exit.Some? then [OnClose] else [])
                 && (t.exit.None? ==> t.used == |events|)
                 && (t.exit.Some? ==> t.exit.value.reason != NotStarted))
  {
    LoopHooks(period, start, events);
    ExitsExactly(period, start, events);
  }

  // ------------------------------------------------------------ the heartbeat

  predicate InOrder(events: seq<Event>, start: real) {
    && (forall i :: 0 <= i < |events| ==> start <= events[i].at)
    && (forall i, j :: 0 <= i < j < |events| ==> events[i].at <= events[j].at)
  }

  predicate QuietAfter(events: seq<Event>, time: real) {
    forall i :: 0 <= i < |events| && events[i].ReadDone? ==> events[i].at <= time
  }

  /** Why an event should end the connection, if it should. */
  function Ending(period: real, since: real, events: seq<Event>, i: nat): Option<Reason>
    requires i < |events|
  {
    match events[i]
    case PingTick(_) => None
    case PongTick(_, closes) => if closes && Late(period, since, events, i) then Some(HeartbeatLost) else None
    case ReadDone(_, result, closes) =>
      if result == CloseFrame(1001) then Some(WentAway)
      else if closes && !result.Message? && !result.ReadEof? then Some(Failed)
      else None
  }

  predicate EndsAt(period: real, since: real, events: seq<Event>, t: Trace) {
    && t.used <= |events|
    && (t.exit.None? ==> t.used == |events|)
    && (t.exit.Some? ==>
         t.used > 0 && Some(t.exit.value.reason) == Ending(period, since, events, t.used - 1)
         && t.exit.value.at == events[t.used - 1].at)
    && forall i :: 0 <= i < t.used ==>
         (Ending(period, since, events, i).Some? <==> t.exit.Some? && i == t.used - 1)
  }

  /**
   The loop is left at the first event that should end the connection, and at no other: the peer
   goes away, a failure is not ignored, or a late pong tick is not overruled.
   */
  lemma {:induction false} ExitsExactly(period: real, since: real, events: seq<Event>)
    ensures EndsAt(period, since, events, Loop(period, since, events))
    decreases |events|
  {
    if events != [] {
      var r := React(period, since, events[0]);
      var rest := events[1..];
      FirstEnding(period, since, events);
      hide HandedOver;
      if r.exit.None? {
        ExitsExactly(period, r.lastReadAt, rest);
        hide React, Late;
        forall i | 1 <= i < |events|
          ensures Ending(period, since, events, i) == Ending(period, r.lastReadAt, rest, i - 1)
        {
          LateLater(period, since, events, i);
        }
      }
    }
  }

  lemma {:induction false} FirstEnding(period: real, since: real, events: seq<Event>)
    requires events != []
    ensures React(period, since, events[0]).exit == Ending(period, since, events, 0)
  {
  }

  /** An ideal ticker: all ticks at multiples of the period up to the horizon, all of them final. */
  ghost predicate Ticks(events: seq<Event>, start: real, period: real, horizon: real) {
    forall k: int {:trigger TickAt(start, period, k)} :: k >= 1 && TickAt(start, period, k) <= horizon ==>
      exists j :: 0 <= j < |events| && events[j] == PongTick(TickAt(start, period, k), true)
  }

  function TickAt(start: real, period: real, k: int): real {
    start + k as real * period
  }

  lemma {:induction false} NextTick(start: real, period: real, time: real) returns (k: int)
    requires period > 0.0 && start <= time
    ensures k >= 1 && time < TickAt(start, period, k) <= time + period
  {
    var x := (time - start) / period;
    var f := x.Floor as real;
    k := x.Floor + 1;
    assert k as real == f + 1.0 && f <= x < f + 1.0;
    Quotient(time - start, period);
    Scale(f, x, period);
    Scale(x, k as real, period);
    OneMore(f, period);
  }

  lemma {:induction false} Quotient(a: real, p: real)
    requires p > 0.0
    ensures (a / p) * p == a
  {
  }

  lemma {:induction false} OneMore(f: real, p: real)
    ensures (f + 1.0) * p == f * p + p
  {
  }

  lemma {:induction false} Scale(a: real, b: real, p: real)
    requires p > 0.0
    ensures a <= b ==> a * p <= b * p
    ensures a < b ==> a * p < b * p
  {
  }

  /** No read result after `time`: the loop is over two periods later. */
  lemma {:induction false} DeadPeerIsDropped(start: real, period: real, events: seq<Event>, time: real)
    requires period > 0.0 && start <= time
    requires InOrder(events, start) && QuietAfter(events, time)
    requires Ticks(events, start, period, time + 2.0 * period)
    ensures var t := Handled(true, start, period, events);
            t.exit.Some? && t.exit.value.at <= time + 2.0 * period
  {
    var k := NextTick(start, period, time + period);
    var at := TickAt(start, period, k);
    var j :| 0 <= j < |events| && events[j] == PongTick(at, true);
    ExitsExactly(period, start, events);
    QuietIsLate(start, period, events, time, j);
    hide Ending;
    var t := Loop(period, start, events);
    assert j >= t.used - 1;
  }

  lemma {:induction false} QuietIsLate(start: real, period: real, events: seq<Event>, time: real, j: nat)
    requires start <= time && QuietAfter(events, time) && j < |events|
    requires events[j].PongTick? && events[j].closes && events[j].at > time + period
    ensures Ending(period, start, events, j) == Some(HeartbeatLost)
  {
    assert Late(period, start, events, j);
  }

  /** The heartbeat ends a connection only after more than a period without any read result. */
  lemma {:induction false} SilenceBeforeTimeout(period: real, start: real, events: seq<Event>)
    requires InOrder(events, start)
    ensures var t := Handled(true, start, period, events);
            t.exit.Some? && t.exit.value.reason == HeartbeatLost ==>
              && t.exit.value.at - start > period && t.used <= |events|
              && forall i :: 0 <= i < t.used && events[i].ReadDone? ==> t.exit.value.at - events[i].at > period
  {
    ExitsExactly(period, start, events);
    var t := Loop(period, start, events);
    if t.exit.Some? && t.exit.value.reason == HeartbeatLost {
      LateIsSilent(period, start, events, t.used - 1);
    }
  }

  lemma {:induction false} LateIsSilent(period: real, start: real, events: seq<Event>, i: nat)
    requires InOrder(events, start) && i < |events| && Late(period, start, events, i)
    ensures events[i].at - start > period
    ensures forall k :: 0 <= k < i && events[k].ReadDone? ==> events[i].at - events[k].at > period
  {
    var n := i;
    while n > 0 && !events[n - 1].ReadDone?
      invariant 0 <= n <= i && forall k :: n <= k < i ==> !events[k].ReadDone?
    {
      n := n - 1;
    }
    assert n > 0 ==> LastRead(events, i, n - 1);
  }
}
