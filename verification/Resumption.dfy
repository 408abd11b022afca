/**
 Stream resumption end to end, byte by byte: one publisher with generated ids and a
 bounded store, the printed stream, a connection that may break after any byte, the
 push parser at the far end, and a client that reconnects with its last event id.
 The server's part is the composition the store's contract asks for: on a request with a
 Last-Event-ID header it replays from the store, then goes on live.
 */
module Resumption {
  import opened Wrappers
  import opened Text
  import opened SsePrinter
  import opened SseParser
  import opened SseChunks
  import opened SseTsRoundTrip
  import opened SseClient
  import opened EventStore
  import Go = SseGoRoundTrip
  import Decimal

  /**
   `max` events are kept; the flag says whether a request without the header is replayed to.
   The run starts when `published` has been published, with a client that has saved the id of
   the `known`-th of those events, or none if that is zero.
   */
  datatype Config = Config(max: nat, replayWithoutHeader: bool, published: seq<StoredEvent>, known: nat)

  /**
   An open connection carries the events from position `first` on. `consumed`, `first`
   and `before` (what had been heard when it opened) only record what happened.
   */
  datatype Connection =
    | Closed
    | Open(first: nat, consumed: string, unread: string, parser: SseParser.State, before: seq<Callback>)

  datatype System = System(
    history: seq<StoredEvent>, stored: seq<StoredEvent>, counter: nat,
    connection: Connection, lastEventId: Option<string>, received: seq<Callback>)

  /** The id the client starts with. */
  function SavedId(c: Config): Option<string> {
    if 0 < c.known <= |c.published| then Some(c.published[c.known - 1].id) else None
  }

  function Start(c: Config): System {
    System(c.published, Last(c.published, c.max), |c.published|, Closed, SavedId(c), [])
  }

  datatype Step =
    | Publish(event: string, data: string)
    | Receive(bytes: nat)
    | Disconnect
    | Connect

  function Message(e: StoredEvent): OutgoingMessage {
    OutgoingMessage(Encoded(e.data), e.event, e.id, 0, "")
  }

  function Messages(es: seq<StoredEvent>): seq<OutgoingMessage> {
    seq(|es|, k requires 0 <= k < |es| => Message(es[k]))
  }

  /** The replay a request with this header is answered with. */
  function ReplayFor(c: Config, stored: seq<StoredEvent>, header: Option<string>): seq<StoredEvent> {
    match header
    case Some(id) => AfterAnchor(stored, id)
    case None => if c.replayWithoutHeader then AfterAnchor(stored, "") else []
  }

  function Next(c: Config, s: System, step: Step): System {
    match step
    case Publish(event, data) =>
      var e := StoredEvent(Decimal.Print(s.counter + 1), event, data);
      var s' := s.(history := s.history + [e], stored := Last(s.stored + [e], c.max), counter := s.counter + 1);
      if s.connection.Closed? then s'
      else s'.(connection := s.connection.(unread := s.connection.unread + MessageText(Message(e))))
    case Receive(bytes) =>
      if s.connection.Closed? then s
      else
        var n := if bytes <= |s.connection.unread| then bytes else |s.connection.unread|;
        var chunk := s.connection.unread[..n];
        var o := FeedEffect(s.connection.parser, chunk);
        s.(connection := s.connection.(consumed := s.connection.consumed + chunk,
                                       unread := s.connection.unread[n..],
                                       parser := o.state),
           lastEventId := TrackAll(s.lastEventId, o.calls),
           received := s.received + o.calls)
    case Disconnect => s.(connection := Closed)
    case Connect =>
      if s.connection.Open? then s
      else
        var replay := ReplayFor(c, s.stored, Header(s.lastEventId));
        var first := if |replay| <= |s.history| then |s.history| - |replay| else 0;
        s.(connection := Open(first, "", PrintAll(Messages(replay)), FRESH, s.received))
  }

  function Run(c: Config, steps: seq<Step>): System {
    if steps == [] then Start(c) else Next(c, Run(c, steps[..|steps| - 1]), steps[|steps| - 1])
  }

  /** Event types without line ends and data without CR, as the push parser needs them. */
  predicate Sendable(steps: seq<Step>) {
    forall k :: 0 <= k < |steps| && steps[k].Publish? ==> EolFree(steps[k].event) && CR !in steps[k].data
  }

  // -------------------------------------------------- what the client has heard

  function Call(e: StoredEvent): Callback {
    OnEvent(Some(e.id), NonEmpty(e.event), e.data)
  }

  function Calls(es: seq<StoredEvent>): seq<Callback> {
    seq(|es|, k requires 0 <= k < |es| => Call(es[k]))
  }

  /** The position in the history that a callback's id names. */
  function Position(call: Callback): int {
    if call.OnEvent? && call.id.Some? && Decimal.AllDigits(call.id.value)
    then Decimal.Value(call.id.value) - 1 else -1
  }

  /** A strictly increasing sublist of the history after the first `known`: nothing twice, nothing out of order. */
  predicate Heard(known: nat, received: seq<Callback>, history: seq<StoredEvent>) {
    && (forall k :: 0 <= k < |received| ==>
         known <= Position(received[k]) < |history| && received[k] == Call(history[Position(received[k])]))
    && (forall i, j :: 0 <= i < j < |received| ==> Position(received[i]) < Position(received[j]))
  }

  /** The position of the first event the client cannot have heard of. */
  function Expecting(known: nat, received: seq<Callback>): int {
    if received == [] then known else Position(received[|received| - 1]) + 1
  }

  predicate Numbered(history: seq<StoredEvent>) {
    forall k :: 0 <= k < |history| ==>
      history[k].id == Decimal.Print(k + 1) && EolFree(history[k].event) && CR !in history[k].data
  }

  predicate ValidConfig(c: Config) {
    c.max > 0 && Numbered(c.published) && c.known <= |c.published|
  }

  lemma {:induction false} NumberedPosition(history: seq<StoredEvent>, k: nat)
    requires Numbered(history) && k < |history|
    ensures Position(Call(history[k])) == k && history[k].id != ""
  {
    Decimal.ValuePrint(k + 1);
  }

  lemma {:induction false} NumberedDistinct(history: seq<StoredEvent>)
    requires Numbered(history)
    ensures DistinctIds(history) && Absent(history, "")
  {
    forall i, j | 0 <= i < j < |history|
      ensures history[i].id != history[j].id
    {
      if history[i].id == history[j].id {
        Decimal.PrintInjective(i + 1, j + 1);
      }
    }
  }

  /** Hearing events from a position past the last one heard keeps the list increasing. */
  lemma {:induction false} HeardMore(known: nat, before: seq<Callback>, history: seq<StoredEvent>, first: nat, n: nat)
    requires Numbered(history) && Heard(known, before, history)
    requires Expecting(known, before) <= first && first + n <= |history|
    ensures Heard(known, before + Calls(history[first..first + n]), history)
    ensures n > 0 ==> Expecting(known, before + Calls(history[first..first + n])) == first + n
  {
    hide Position, Numbered, Call, Heard, Expecting;
    var more := Calls(history[first..first + n]);
    forall k | 0 <= k < n
      ensures more[k] == Call(history[first + k]) && Position(more[k]) == first + k
    {
      NumberedPosition(history, first + k);
    }
    HeardTogether(known, before, more, history, first);
  }

  lemma {:induction false} HeardTogether(
    known: nat, before: seq<Callback>, more: seq<Callback>, history: seq<StoredEvent>, first: nat)
    requires Heard(known, before, history) && Expecting(known, before) <= first && first + |more| <= |history|
    requires forall k :: 0 <= k < |more| ==> more[k] == Call(history[first + k]) && Position(more[k]) == first + k
    ensures Heard(known, before + more, history)
    ensures more != [] ==> Expecting(known, before + more) == first + |more|
  {
    hide Position, Call;
    var all := before + more;
    assert forall k :: 0 <= k < |before| ==> all[k] == before[k] && Position(before[k]) < first;
    assert forall k :: |before| <= k < |all| ==> all[k] == more[k - |before|];
  }

  lemma {:induction false} ExpectedCall(e: StoredEvent)
    requires e.id != ""
    ensures Expected(Message(e)) == [Call(e)]
  {
  }

  lemma {:induction false} ExpectedCalls(es: seq<StoredEvent>)
    requires forall k :: 0 <= k < |es| ==> es[k].id != ""
    ensures ExpectedAll(Messages(es)) == Calls(es)
  {
    if es != [] {
      ExpectedCalls(es[1..]);
      ExpectedCall(es[0]);
      hide Expected, Call, Message;
      assert Messages(es)[1..] == Messages(es[1..]) && Messages(es)[0] == Message(es[0]);
      assert Calls(es) == [Call(es[0])] + Calls(es[1..]);
    }
  }

  // ------------------------------------------------------------ the invariant

  predicate ParserAgrees(k: Connection)
    requires k.Open?
  {
    k.parser == FeedEffect(FRESH, k.consumed).state || (k.parser == FRESH && k.consumed == "")
  }

  predicate ConnectionInv(c: Config, s: System)
    requires s.connection.Open?
  {
    var k := s.connection;
    && k.first <= |s.history|
    && Heard(c.known, k.before, s.history) && Expecting(c.known, k.before) <= k.first
    && k.consumed + k.unread == PrintAll(Messages(s.history[k.first..]))
    && ParserAgrees(k)
    && s.received == k.before + FeedEffect(FRESH, k.consumed).calls
  }

  predicate Inv(c: Config, s: System) {
    && Numbered(s.history) && s.counter == |s.history|
    && c.known <= |c.published| && c.published <= s.history
    && s.stored == Last(s.history, c.max)
    && Heard(c.known, s.received, s.history)
    && s.lastEventId == (if s.received == [] then SavedId(c) else s.received[|s.received| - 1].id)
    && (s.connection.Open? ==> ConnectionInv(c, s))
  }

  lemma {:induction false} PrintAllAppend(a: seq<OutgoingMessage>, b: seq<OutgoingMessage>)
    ensures PrintAll(a + b) == PrintAll(a) + PrintAll(b)
  {
    hide MessageText;
    if a == [] {
      assert a + b == b;
    } else {
      PrintAllAppend(a[1..], b);
      assert (a + b)[0] == a[0] && (a + b)[1..] == a[1..] + b;
      AppendAssociates(MessageText(a[0]), PrintAll(a[1..]), PrintAll(b));
    }
  }

  /** What has been heard on a connection is a prefix of what was sent on it. */
  lemma {:induction false} HeardOnConnection(history: seq<StoredEvent>, first: nat, consumed: string, unread: string)
    requires Numbered(history) && first <= |history|
    requires consumed + unread == PrintAll(Messages(history[first..]))
    ensures FeedEffect(FRESH, consumed).calls <= Calls(history[first..])
    ensures unread == "" ==> FeedEffect(FRESH, consumed).calls == Calls(history[first..])
  {
    var sent := Messages(history[first..]);
    forall m | m in sent
      ensures Dispatchable(m)
    {
      var k :| 0 <= k < |sent| && sent[k] == m;
      assert EolFree(Decimal.Print(first + k + 1)) && NUL !in Decimal.Print(first + k + 1);
    }
    ExpectedCalls(history[first..]);
    assert [consumed][1..] == [] && Concat([consumed]) == consumed + "" == consumed;
    CutConnection(sent, consumed, unread, [consumed]);
    Go.NeverMarked(sent);
    PrefixOfUnmarked(consumed, unread);
    ChunkInvariance(FRESH, [consumed]);
    if unread == "" {
      assert consumed + "" == consumed;
      DispatchableArrive(sent, [consumed]);
    }
  }

  lemma {:induction false} TrackCalls(last: Option<string>, calls: seq<Callback>)
    requires forall k :: 0 <= k < |calls| ==> calls[k].OnEvent? && calls[k].id.Some?
    ensures TrackAll(last, calls) == if calls == [] then last else calls[|calls| - 1].id
  {
  }

  lemma {:induction false} HeardGrows(known: nat, received: seq<Callback>, history: seq<StoredEvent>, e: StoredEvent)
    requires Heard(known, received, history)
    ensures Heard(known, received, history + [e])
  {
    hide Position;
    forall k | 0 <= k < |received|
      ensures Call((history + [e])[Position(received[k])]) == received[k]
    {
      assert (history + [e])[Position(received[k])] == history[Position(received[k])];
    }
  }

  lemma {:induction false} SentGrows(history: seq<StoredEvent>, first: nat, text: string, e: StoredEvent)
    requires first <= |history| && text == PrintAll(Messages(history[first..]))
    ensures text + MessageText(Message(e)) == PrintAll(Messages((history + [e])[first..]))
  {
    hide PrintAll, MessageText;
    var tail := history[first..];
    assert (history + [e])[first..] == tail + [e];
    assert Messages(tail + [e]) == Messages(tail) + [Message(e)];
    PrintAllAppend(Messages(tail), [Message(e)]);
    PrintOne(Message(e));
  }

  lemma {:induction false} PublishKeeps(c: Config, s: System, event: string, data: string)
    requires ValidConfig(c) && Inv(c, s) && EolFree(event) && CR !in data
    ensures Inv(c, Next(c, s, Publish(event, data)))
  {
    hide MessageText, FeedEffect, Heard, PrintAll, Expecting, Last;
    var e := StoredEvent(Decimal.Print(s.counter + 1), event, data);
    LastOfLast(s.history, e, c.max);
    HeardGrows(c.known, s.received, s.history, e);
    if s.connection.Open? {
      var k := s.connection;
      HeardGrows(c.known, k.before, s.history, e);
      SentGrows(s.history, k.first, k.consumed + k.unread, e);
      AppendAssociates(k.consumed, k.unread, MessageText(Message(e)));
    }
  }

  lemma {:induction false} PrintOne(m: OutgoingMessage)
    ensures PrintAll([m]) == MessageText(m)
  {
    assert [m][1..] == [];
    NoneAppended(MessageText(m));
  }

  lemma {:induction false} NothingFed()
    ensures FeedEffect(FRESH, "").calls == []
  {
    assert LinesOf("") == Lines([], "") && "" + "" == "";
  }

  lemma {:induction false} FeedMore(sent: seq<OutgoingMessage>, k: Connection, n: nat)
    requires k.Open? && ParserAgrees(k) && n <= |k.unread|
    requires k.consumed + k.unread == PrintAll(sent)
    ensures var o := FeedEffect(k.parser, k.unread[..n]);
            var whole := FeedEffect(FRESH, k.consumed + k.unread[..n]);
            o.state == whole.state && FeedEffect(FRESH, k.consumed).calls + o.calls == whole.calls
  {
    hide FeedEffect, PrintAll, StartsWith;
    var chunk := k.unread[..n];
    Go.NeverMarked(sent);
    assert k.consumed + chunk + k.unread[n..] == PrintAll(sent);
    PrefixOfUnmarked(k.consumed + chunk, k.unread[n..]);
    if k.parser == FRESH && k.consumed == "" {
      assert "" + chunk == chunk;
      NothingFed();
      NoneAppended(FeedEffect(FRESH, chunk).calls);
    } else {
      FirstTwoFeeds(FRESH, k.consumed, chunk);
    }
  }

  /** The id of the last callback, after some more of a connection's callbacks. */
  lemma {:induction false} TrackMore(
    history: seq<StoredEvent>, heard: seq<Callback>, before: seq<Callback>, more: seq<Callback>)
    requires before + more == heard && heard <= Calls(history)
    ensures forall k :: 0 <= k < |more| ==> more[k].OnEvent? && more[k].id.Some?
    ensures forall last :: TrackAll(last, more) == if more == [] then last else more[|more| - 1].id
  {
    hide TrackAll;
    forall k | 0 <= k < |more|
      ensures more[k].OnEvent? && more[k].id.Some?
    {
      assert more[k] == heard[|before| + k] == Calls(history)[|before| + k];
    }
    forall last: Option<string>
      ensures TrackAll(last, more) == if more == [] then last else more[|more| - 1].id
    {
      TrackCalls(last, more);
    }
  }

  lemma {:induction false} ReceiveKeeps(c: Config, s: System, bytes: nat)
    requires Inv(c, s) && s.connection.Open?
    ensures Inv(c, Next(c, s, Receive(bytes)))
  {
    hide FeedEffect, PrintAll, Numbered, Heard, TrackAll, Calls, Messages;
    var k := s.connection;
    var n := if bytes <= |k.unread| then bytes else |k.unread|;
    var chunk := k.unread[..n];
    var calls := FeedEffect(k.parser, chunk).calls;
    var heard := FeedEffect(FRESH, k.consumed + chunk).calls;
    assert k.consumed + chunk + k.unread[n..] == k.consumed + k.unread;
    FeedMore(Messages(s.history[k.first..]), k, n);
    AppendAssociates(k.before, FeedEffect(FRESH, k.consumed).calls, calls);
    HeardOnConnection(s.history, k.first, k.consumed + chunk, k.unread[n..]);
    CallsPrefix(s.history, k.first, heard);
    HeardMore(c.known, k.before, s.history, k.first, |heard|);
    TrackMore(s.history[k.first..], heard, FeedEffect(FRESH, k.consumed).calls, calls);
  }

  lemma {:induction false} CallsPrefix(history: seq<StoredEvent>, first: nat, heard: seq<Callback>)
    requires first <= |history| && heard <= Calls(history[first..])
    ensures first + |heard| <= |history| && heard == Calls(history[first..first + |heard|])
  {
  }

  /** Where a new connection's stream starts. */
  function StartOf(c: Config, s: System): int {
    var n, next := |s.history|, Expecting(c.known, s.received);
    if Header(s.lastEventId).None? && !c.replayWithoutHeader then n
    else if n - c.max <= next then next else n - c.max
  }

  lemma {:induction false} ConnectStart(c: Config, s: System)
    requires Inv(c, s)
    ensures var replay := ReplayFor(c, s.stored, Header(s.lastEventId));
            && Expecting(c.known, s.received) <= StartOf(c, s) <= |s.history|
            && replay == s.history[StartOf(c, s)..]
    ensures Header(s.lastEventId).Some? <==> Expecting(c.known, s.received) > 0
  {
    hide Inv, DistinctIds, Absent, AfterAnchor, Last, Expecting, SavedId;
    HeaderOfHeard(c, s);
    NumberedDistinct(s.history);
    if Expecting(c.known, s.received) > 0 {
      ReplayFromHistory(s.history, c.max, Expecting(c.known, s.received) - 1);
    } else {
      ReplayUnknown(s.history, c.max, "");
      LastIs(s.history, c.max);
    }
  }

  lemma {:induction false} LastIs<T>(s: seq<T>, n: nat)
    ensures Last(s, n) == s[if |s| <= n then 0 else |s| - n..]
  {
  }

  /** The header of the next request names the last event heard. */
  lemma {:induction false} HeaderOfHeard(c: Config, s: System)
    requires Inv(c, s)
    ensures Numbered(s.history) && s.stored == Last(s.history, c.max)
    ensures 0 <= Expecting(c.known, s.received) <= |s.history|
    ensures Header(s.lastEventId) ==
            if Expecting(c.known, s.received) == 0 then None else Some(s.history[Expecting(c.known, s.received) - 1].id)
  {
    hide Position, Numbered, Last, ConnectionInv;
    if Expecting(c.known, s.received) > 0 {
      NumberedPosition(s.history, Expecting(c.known, s.received) - 1);
    }
  }

  lemma {:induction false} ConnectKeeps(c: Config, s: System)
    requires Inv(c, s) && s.connection.Closed?
    ensures Inv(c, Next(c, s, Connect))
    ensures Next(c, s, Connect).connection.first == StartOf(c, s)
  {
    hide ReplayFor, Header, StartOf, Next, ConnectionInv, Numbered, Heard, Expecting, Last, SavedId;
    HeaderOfHeard(c, s);
    ConnectStart(c, s);
    ConnectOpens(c, s);
    OpenOk(c, s, StartOf(c, s));
  }

  lemma {:induction false} OpenOk(c: Config, s: System, first: nat)
    requires Heard(c.known, s.received, s.history) && Expecting(c.known, s.received) <= first <= |s.history|
    ensures ConnectionInv(c, s.(connection := Open(first, "", PrintAll(Messages(s.history[first..])), FRESH, s.received)))
  {
    hide Heard, Expecting, FeedEffect, PrintAll, Messages;
    NothingFed();
    NoneAppended(s.received);
    NoneAppended(PrintAll(Messages(s.history[first..])));
  }

  /** A new connection carries what was replayed to it. */
  lemma {:induction false} ConnectOpens(c: Config, s: System)
    requires s.connection.Closed? && 0 <= StartOf(c, s) <= |s.history|
    requires ReplayFor(c, s.stored, Header(s.lastEventId)) == s.history[StartOf(c, s)..]
    ensures Next(c, s, Connect) ==
            s.(connection :=
                 Open(StartOf(c, s), "", PrintAll(Messages(s.history[StartOf(c, s)..])), FRESH, s.received))
  {
    hide ReplayFor, StartOf, PrintAll, Messages;
  }

  lemma {:induction false} StepKeeps(c: Config, s: System, step: Step)
    requires ValidConfig(c) && Inv(c, s) && Sendable([step])
    ensures Inv(c, Next(c, s, step))
  {
    hide FeedEffect, PrintAll, Numbered, Heard, MessageText, ReplayFor, Expecting, Last;
    assert [step][0] == step;
    match step
    case Publish(event, data) => PublishKeeps(c, s, event, data);
    case Receive(bytes) => if s.connection.Open? { ReceiveKeeps(c, s, bytes); }
    case Disconnect =>
    case Connect => if s.connection.Closed? { ConnectKeeps(c, s); }
  }

  lemma {:induction false} RunKeeps(c: Config, steps: seq<Step>)
    requires ValidConfig(c) && Sendable(steps)
    ensures Inv(c, Run(c, steps))
  {
    hide Inv, Next;
    if steps != [] {
      RunKeeps(c, steps[..|steps| - 1]);
      StepKeeps(c, Run(c, steps[..|steps| - 1]), steps[|steps| - 1]);
    } else {
      StartOk(c);
    }
  }

  lemma {:induction false} StartOk(c: Config)
    requires ValidConfig(c)
    ensures Inv(c, Start(c))
  {
  }

  /**
   In every run, wherever connections break, the client has heard a strictly increasing
   sublist of the events after its saved id: none twice, none out of order, none altered.
   */
  lemma {:induction false} NothingTwice(c: Config, steps: seq<Step>)
    requires ValidConfig(c) && Sendable(steps)
    ensures var s := Run(c, steps);
            && (forall k :: 0 <= k < |s.received| ==>
                 var p := Position(s.received[k]);
                 && c.known <= p < |s.history|
                 && s.received[k] == OnEvent(Some(s.history[p].id),
                                             if s.history[p].event == "" then None else Some(s.history[p].event),
                                             s.history[p].data))
            && (forall i, j :: 0 <= i < j < |s.received| ==>
                 Position(s.received[i]) < Position(s.received[j]) && s.received[i] != s.received[j])
  {
    RunKeeps(c, steps);
  }

  /** What has been published by then, with the ids the generator gives it. */
  function Published(c: Config, steps: seq<Step>): seq<StoredEvent> {
    if steps == [] then c.published
    else
      var before, last := Published(c, steps[..|steps| - 1]), steps[|steps| - 1];
      if last.Publish? then before + [StoredEvent(Decimal.Print(|before| + 1), last.event, last.data)] else before
  }

  /** The history is what has been published, and its ids are its positions. */
  lemma {:induction false} HistoryIs(c: Config, steps: seq<Step>)
    requires ValidConfig(c) && Sendable(steps)
    ensures var h := Run(c, steps).history;
            h == Published(c, steps) && forall k :: 0 <= k < |h| ==> h[k].id == Decimal.Print(k + 1)
  {
    hide Next, Inv;
    RunKeeps(c, steps);
    IdsArePositions(c, Run(c, steps));
    if steps != [] {
      var before := steps[..|steps| - 1];
      HistoryIs(c, before);
      RunKeeps(c, before);
      IdsArePositions(c, Run(c, before));
      NextHistory(c, Run(c, before), steps[|steps| - 1]);
    }
  }

  lemma {:induction false} IdsArePositions(c: Config, s: System)
    requires Inv(c, s)
    ensures s.counter == |s.history| && forall k :: 0 <= k < |s.history| ==> s.history[k].id == Decimal.Print(k + 1)
  {
  }

  lemma {:induction false} NextHistory(c: Config, s: System, step: Step)
    ensures Next(c, s, step).history ==
            if step.Publish? then s.history + [StoredEvent(Decimal.Print(s.counter + 1), step.event, step.data)]
            else s.history
  {
    hide FeedEffect, PrintAll, MessageText, ReplayFor, TrackAll;
  }

  /** A step does what it is named for: bytes arrive in order, connections open and close. */
  lemma {:induction false} StepsMove(c: Config, s: System)
    ensures Next(c, s, Disconnect).connection == Closed && Next(c, s, Connect).connection.Open?
    ensures forall bytes: nat :: s.connection.Open? ==>
              var k, k' := s.connection, Next(c, s, Receive(bytes)).connection;
              && k'.Open? && k'.first == k.first && k'.consumed + k'.unread == k.consumed + k.unread
              && |k'.unread| == if bytes <= |k.unread| then |k.unread| - bytes else 0
  {
    hide FeedEffect, PrintAll, ReplayFor, TrackAll;
    if s.connection.Open? {
      var k := s.connection;
      assert forall n :: 0 <= n <= |k.unread| ==> k.consumed + k.unread[..n] + k.unread[n..] == k.consumed + k.unread;
    }
  }

  // ----------------------------------------------------------------- no gaps

  /** How many events a new connection can make up for. */
  function Capacity(c: Config, s: System): nat {
    if Header(s.lastEventId).None? && !c.replayWithoutHeader then 0 else c.max
  }

  /** The events published since the last one heard can all be replayed. */
  predicate Covered(c: Config, s: System) {
    |s.history| - Expecting(c.known, s.received) <= Capacity(c, s)
  }

  /** A new connection resumes right after the last event heard exactly when it missed few enough. */
  lemma {:induction false} ResumesExactly(c: Config, s: System)
    requires Inv(c, s) && s.connection.Closed?
    ensures Next(c, s, Connect).connection.first == Expecting(c.known, s.received) <==> Covered(c, s)
  {
    ConnectKeeps(c, s);
    ConnectStart(c, s);
  }

  predicate CoveredRun(c: Config, steps: seq<Step>) {
    forall k :: 0 <= k < |steps| && steps[k].Connect? && Run(c, steps[..k]).connection.Closed? ==>
      Covered(c, Run(c, steps[..k]))
  }

  /** What follows the first `known` events of the history, up to some point, without a gap. */
  predicate GapFree(known: nat, received: seq<Callback>, history: seq<StoredEvent>) {
    known + |received| <= |history| && received == Calls(history[known..known + |received|])
  }

  predicate NoGap(c: Config, s: System) {
    && GapFree(c.known, s.received, s.history)
    && (s.connection.Open? ==>
         GapFree(c.known, s.connection.before, s.history) && s.connection.first == c.known + |s.connection.before|)
  }

  lemma {:induction false} GapFreeExpecting(known: nat, received: seq<Callback>, history: seq<StoredEvent>)
    requires Numbered(history) && GapFree(known, received, history)
    ensures Expecting(known, received) == known + |received|
  {
    if received != [] {
      NumberedPosition(history, known + |received| - 1);
    }
  }

  lemma {:induction false} PublishLeavesNoGap(c: Config, s: System, event: string, data: string)
    requires NoGap(c, s)
    ensures NoGap(c, Next(c, s, Publish(event, data)))
  {
    hide MessageText;
    var history := Next(c, s, Publish(event, data)).history;
    assert history[c.known..c.known + |s.received|] == s.history[c.known..c.known + |s.received|];
    if s.connection.Open? {
      assert history[c.known..s.connection.first] == s.history[c.known..s.connection.first];
    }
  }

  lemma {:induction false} ReceiveLeavesNoGap(c: Config, s: System)
    requires Numbered(s.history) && s.connection.Open? && ConnectionInv(c, s)
    requires GapFree(c.known, s.connection.before, s.history) && s.connection.first == c.known + |s.connection.before|
    ensures NoGap(c, s)
  {
    hide FeedEffect, PrintAll, Numbered, Heard;
    var k := s.connection;
    var heard := FeedEffect(FRESH, k.consumed).calls;
    HeardOnConnection(s.history, k.first, k.consumed, k.unread);
    CallsPrefix(s.history, k.first, heard);
    assert s.history[c.known..k.first] + s.history[k.first..k.first + |heard|] == s.history[c.known..k.first + |heard|];
  }

  lemma {:induction false} StepLeavesNoGap(c: Config, s: System, step: Step)
    requires ValidConfig(c) && Inv(c, s) && NoGap(c, s) && Sendable([step])
    requires step.Connect? && s.connection.Closed? ==> Covered(c, s)
    ensures NoGap(c, Next(c, s, step))
  {
    hide FeedEffect, PrintAll, Numbered, Heard, Position, GapFree, MessageText, Covered, ReplayFor;
    StepKeeps(c, s, step);
    match step
    case Publish(event, data) => PublishLeavesNoGap(c, s, event, data);
    case Receive(_) =>
      if s.connection.Open? {
        ReceiveLeavesNoGap(c, Next(c, s, step));
      }
    case Disconnect =>
    case Connect =>
      if s.connection.Closed? {
        ResumesExactly(c, s);
        GapFreeExpecting(c.known, s.received, s.history);
      }
  }

  /**
   If every reconnection missed at most what the store keeps, the client has heard, without a
   gap, what came after its saved id.
   */
  lemma {:induction false} NothingMissed(c: Config, steps: seq<Step>)
    requires ValidConfig(c) && Sendable(steps) && CoveredRun(c, steps)
    ensures NoGap(c, Run(c, steps))
  {
    hide Inv, Next, NoGap, Covered;
    if steps != [] {
      var last := |steps| - 1;
      CoveredBefore(c, steps);
      NothingMissed(c, steps[..last]);
      RunKeeps(c, steps[..last]);
      StepLeavesNoGap(c, Run(c, steps[..last]), steps[last]);
    } else {
      NoGapAtFirst(c);
    }
  }

  lemma {:induction false} NoGapAtFirst(c: Config)
    requires ValidConfig(c)
    ensures NoGap(c, Start(c))
  {
  }

  lemma {:induction false} CoveredBefore(c: Config, steps: seq<Step>)
    requires steps != [] && CoveredRun(c, steps)
    ensures CoveredRun(c, steps[..|steps| - 1])
    ensures var last := |steps| - 1;
            var s := Run(c, steps[..last]);
            steps[last].Connect? && s.connection.Closed? ==> Covered(c, s)
  {
    hide Run, Covered;
    var last := |steps| - 1;
    assert forall k :: 0 <= k < last ==> steps[..last][..k] == steps[..k];
  }

  /** And once everything sent has been read, it has heard everything that came after its saved id. */
  lemma {:induction false} CaughtUp(c: Config, steps: seq<Step>)
    requires ValidConfig(c) && Sendable(steps) && CoveredRun(c, steps)
    requires var k := Run(c, steps).connection; k.Open? && k.unread == ""
    ensures var s := Run(c, steps);
            && |s.received| == |s.history| - c.known
            && forall k :: 0 <= k < |s.received| ==>
                 var e := s.history[c.known + k];
                 s.received[k] == OnEvent(Some(e.id), if e.event == "" then None else Some(e.event), e.data)
  {
    hide FeedEffect, PrintAll, Numbered, Heard, Position, Run;
    var s := Run(c, steps);
    RunKeeps(c, steps);
    NothingMissed(c, steps);
    var k := s.connection;
    HeardOnConnection(s.history, k.first, k.consumed, k.unread);
    assert s.history[c.known..k.first] + s.history[k.first..] == s.history[c.known..];
    assert s.received == Calls(s.history[c.known..]);
  }
}
