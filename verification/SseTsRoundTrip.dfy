/**
 The Go printer followed by the TypeScript parser: under every chunking, the callbacks
 are exactly those of the messages, if and only if every printed text is one the
 push parser's lines can carry.
 */
module SseTsRoundTrip {
  import opened Wrappers
  import opened Text
  import opened SseSyntax
  import opened Decimal
  import opened SsePrinter
  import opened SseParser
  import opened SseChunks
  import Go = SseGoRoundTrip

  predicate EolFree(s: string) {
    CR !in s && LF !in s
  }

  predicate EolFreeLines(lines: seq<string>) {
    forall k :: 0 <= k < |lines| ==> EolFree(lines[k])
  }

  /** What the caller must check before sending. */
  predicate Dispatchable(m: OutgoingMessage) {
    if m.comment != "" then EolFree(m.comment)
    else
      m.data.Encoded? ==>
        EolFree(m.event) && EolFree(m.id) && NUL !in m.id && CR !in m.data.bytes
  }

  function NonEmpty(s: string): Option<string> {
    if s == "" then None else Some(s)
  }

  function RetryCalls(retry: GoInt): seq<Callback> {
    if retry > 0 then [OnRetry(retry)] else []
  }

  /** The callbacks a message should cause. */
  function Expected(m: OutgoingMessage): seq<Callback> {
    if m.comment != "" then [OnComment(m.comment)]
    else
      match m.data
      case NoData => RetryCalls(m.retry)
      case Unencodable => []
      case Encoded(bytes) =>
        RetryCalls(m.retry) + [OnEvent(NonEmpty(m.id), NonEmpty(m.event), bytes)]
  }

  function ExpectedAll(ms: seq<OutgoingMessage>): seq<Callback> {
    if ms == [] then [] else Expected(ms[0]) + ExpectedAll(ms[1..])
  }

  // ------------------------------------------------------------- one message

  lemma {:induction false} PrintedEffect(f: Fields, name: string, value: string)
    requires name in ["event", "data", "id", "retry"]
    ensures LineEffect(f, FieldLine(name, value)) == FieldEffect(f, name, value, FieldLine(name, value))
  {
    Go.FieldLineIs(name, value);
  }

  lemma {:induction false} OneLineEffect(f: Fields, line: string)
    ensures LinesEffect(f, [line]) == LineEffect(f, line)
  {
    var e := LineEffect(f, line);
    assert [line][1..] == [] && e.calls + [] == e.calls;
  }

  lemma {:induction false} OptionalEffect(f: Fields, name: string, value: string)
    requires name == "event" || (name == "id" && NUL !in value)
    ensures LinesEffect(f, OptionalField(name, value)) ==
            Effect(if value == "" then f
                   else if name == "event" then f.(eventType := value)
                   else f.(id := Some(value)), [])
  {
    if value != "" {
      PrintedEffect(f, name, value);
      OneLineEffect(f, FieldLine(name, value));
    }
  }

  lemma {:induction false} RetryEffect(f: Fields, retry: GoInt)
    ensures LinesEffect(f, RetryField(retry)) == Effect(f, RetryCalls(retry))
  {
    if retry > 0 {
      PrintedEffect(f, "retry", Print(retry));
      OneLineEffect(f, FieldLine("retry", Print(retry)));
      ValuePrint(retry);
    }
  }

  lemma {:induction false} DataEffect(f: Fields, pieces: seq<string>)
    ensures LinesEffect(f, DataFields(pieces)) == Effect(f.(data := f.data + Render(pieces)), [])
    decreases |pieces|
  {
    if pieces == [] {
      assert f.data + "" == f.data;
    } else {
      var first := FieldLine("data", pieces[0]);
      PrintedEffect(f, "data", pieces[0]);
      var f1 := f.(data := f.data + pieces[0] + [LF]);
      AppendAssociates(f.data, pieces[0], [LF]);
      AppendAssociates(f.data, pieces[0] + [LF], Render(pieces[1..]));
      DataEffect(f1, pieces[1..]);
      assert DataFields(pieces)[0] == first && DataFields(pieces)[1..] == DataFields(pieces[1..]);
    }
  }

  /** `a`, then `b`, starting from no fields. */
  lemma {:induction false} Chain(
    f: Fields, a: seq<string>, f1: Fields, c1: seq<Callback>, b: seq<string>, f2: Fields, c2: seq<Callback>)
    requires LinesEffect(f, a) == Effect(f1, c1) && LinesEffect(f1, b) == Effect(f2, c2)
    ensures LinesEffect(f, a + b) == Effect(f2, c1 + c2)
  {
    LinesEffectAppend(f, a, b);
  }

  lemma {:induction false} DataMessageEffect(m: OutgoingMessage)
    requires m.comment == "" && m.data.Encoded? && NUL !in m.id
    ensures LinesEffect(NO_FIELDS, MessageLines(m) + [""]) == Effect(NO_FIELDS, Expected(m))
  {
    var pieces := Split(m.data.bytes);
    var a, b := OptionalField("event", m.event), OptionalField("id", m.id);
    var f1 := NO_FIELDS.(eventType := m.event);
    var f2 := f1.(id := NonEmpty(m.id));
    var f3 := f2.(data := m.data.bytes + [LF]);
    OptionalEffect(NO_FIELDS, "event", m.event);
    OptionalEffect(f1, "id", m.id);
    Chain(NO_FIELDS, a, f1, [], b, f2, []);
    RetryEffect(f2, m.retry);
    Chain(NO_FIELDS, a + b, f2, [], RetryField(m.retry), f2, RetryCalls(m.retry));
    DataEffect(f2, pieces);
    RenderIsJoin(pieces);
    JoinSplit(m.data.bytes);
    assert "" + Render(pieces) == Render(pieces);
    Chain(NO_FIELDS, a + b + RetryField(m.retry), f2, RetryCalls(m.retry), DataFields(pieces), f3, []);
    OneLineEffect(f3, "");
    assert f3.data[..|f3.data| - 1] == m.data.bytes;
    Chain(NO_FIELDS, MessageLines(m), f3, RetryCalls(m.retry), [""], NO_FIELDS, Dispatched(f3));
  }

  lemma {:induction false} MessageEffect(m: OutgoingMessage)
    requires Dispatchable(m) && Go.PrintsSomething(m)
    ensures LinesEffect(NO_FIELDS, MessageLines(m) + [""]) == Effect(NO_FIELDS, Expected(m))
  {
    OneLineEffect(NO_FIELDS, "");
    if m.comment != "" {
      var line := FieldLine("", m.comment);
      FieldLineReadsBack("", m.comment);
      OneLineEffect(NO_FIELDS, line);
      Chain(NO_FIELDS, [line], NO_FIELDS, Expected(m), [""], NO_FIELDS, []);
    } else if m.data.NoData? {
      RetryEffect(NO_FIELDS, m.retry);
      Chain(NO_FIELDS, MessageLines(m), NO_FIELDS, Expected(m), [""], NO_FIELDS, []);
    } else {
      DataMessageEffect(m);
    }
  }

  // ---------------------------------------------------------- the whole stream

  lemma {:induction false} RenderedSplits(lines: seq<string>)
    requires EolFreeLines(lines)
    ensures LinesOf(Render(lines)) == Lines(lines, "")
  {
    if lines != [] {
      var l, rest := lines[0], Render(lines[1..]);
      RenderedSplits(lines[1..]);
      var text := Render(lines);
      assert forall k :: 0 <= k < |l| ==> text[k] == l[k];
      assert text[|l|] == LF;
      EolIndexUnique(text, |l|);
      assert text[..|l|] == l && text[|l| + 1..] == rest;
    }
  }

  lemma {:induction false} EolFreeField(name: string, value: string)
    requires EolFree(value) && name in ["event", "data", "id", "retry", ""]
    ensures EolFree(FieldLine(name, value))
  {
    var l := FieldLine(name, value);
    assert EolFree(name) && EolFree(": ");
    assert forall c :: c in l ==> c in name || c in ": " || c in value;
  }

  lemma {:induction false} EolFreeDataFields(pieces: seq<string>)
    requires EolFreeLines(pieces)
    ensures EolFreeLines(DataFields(pieces))
  {
    if pieces != [] {
      EolFreeField("data", pieces[0]);
      EolFreeDataFields(pieces[1..]);
    }
  }

  lemma {:induction false} SplitKeepsCrFree(s: string)
    requires CR !in s
    ensures EolFreeLines(Split(s))
    decreases |s|
  {
    var i := IndexOf(s, LF);
    if i < |s| {
      SplitKeepsCrFree(s[i + 1..]);
      assert CR !in s[..i] && LF !in s[..i];
    }
  }

  lemma {:induction false} DispatchableLines(m: OutgoingMessage)
    requires Dispatchable(m)
    ensures EolFreeLines(MessageLines(m) + [""])
  {
    var digits := Print(if m.retry > 0 then m.retry else 0);
    assert EolFree(digits);
    EolFreeField("retry", digits);
    if m.comment != "" {
      EolFreeField("", m.comment);
    } else if m.data.Encoded? {
      EolFreeField("event", m.event);
      EolFreeField("id", m.id);
      SplitKeepsCrFree(m.data.bytes);
      EolFreeDataFields(Split(m.data.bytes));
    }
  }

  lemma {:induction false} WireEffect(ms: seq<OutgoingMessage>)
    requires forall m :: m in ms ==> Dispatchable(m)
    ensures EolFreeLines(Go.WireLines(ms))
    ensures LinesEffect(NO_FIELDS, Go.WireLines(ms)) == Effect(NO_FIELDS, ExpectedAll(ms))
  {
    if ms != [] {
      var m, rest := ms[0], ms[1..];
      WireEffect(rest);
      if Go.PrintsSomething(m) {
        DispatchableLines(m);
        MessageEffect(m);
        Chain(NO_FIELDS, MessageLines(m) + [""], NO_FIELDS, Expected(m),
              Go.WireLines(rest), NO_FIELDS, ExpectedAll(rest));
      } else {
        assert [] + Go.WireLines(rest) == Go.WireLines(rest);
        assert [] + ExpectedAll(rest) == ExpectedAll(rest);
      }
    }
  }

  /** The parser has dispatched everything and holds nothing back. */
  const IDLE := State("", false, NO_FIELDS)

  lemma {:induction false} WholeStream(ms: seq<OutgoingMessage>, chunks: seq<string>)
    requires chunks != [] && Concat(chunks) == PrintAll(ms)
    ensures var s := PrintAll(ms);
            FeedAllEffect(FRESH, chunks) ==
            Outcome(State(LinesOf(s).incomplete, false, LinesEffect(NO_FIELDS, LinesOf(s).complete).fields),
                    LinesEffect(NO_FIELDS, LinesOf(s).complete).calls)
  {
    Go.NeverMarked(ms);
    ChunkInvariance(FRESH, chunks);
    assert "" + PrintAll(ms) == PrintAll(ms);
  }

  lemma {:induction false} DispatchableArrive(ms: seq<OutgoingMessage>, chunks: seq<string>)
    requires chunks != [] && Concat(chunks) == PrintAll(ms)
    requires forall m :: m in ms ==> Dispatchable(m)
    ensures FeedAllEffect(FRESH, chunks) == Outcome(IDLE, ExpectedAll(ms))
  {
    WholeStream(ms, chunks);
    Go.PrintAllIsRender(ms);
    WireEffect(ms);
    RenderedSplits(Go.WireLines(ms));
  }

  // ------------------------------------------------ the condition is necessary

  predicate CleanFields(f: Fields) {
    && EolFree(f.eventType)
    && (f.id.Some? ==> EolFree(f.id.value) && NUL !in f.id.value)
    && CR !in f.data
  }

  predicate CleanCall(c: Callback) {
    match c
    case OnEvent(id, event, data) =>
      && (id.Some? ==> EolFree(id.value) && NUL !in id.value)
      && (event.Some? ==> EolFree(event.value))
      && CR !in data
    case OnComment(text) => EolFree(text)
    case _ => true
  }

  predicate CleanCalls(calls: seq<Callback>) {
    forall k :: 0 <= k < |calls| ==> CleanCall(calls[k])
  }

  lemma {:induction false} CleanValue(line: string)
    requires EolFree(line)
    ensures EolFree(FieldValue(line))
    ensures IsComment(line) ==> EolFree(CommentText(line))
  {
    var i := IndexOf(line, ':');
    assert forall k :: 0 <= k <= |line| ==> EolFree(line[k..]);
    assert i < |line| ==> forall c :: c in FieldValue(line) ==> c in line[i + 1..];
    assert IsComment(line) ==> forall c :: c in CommentText(line) ==> c in line[1..];
  }

  lemma {:induction false} CleanLine(f: Fields, line: string)
    requires CleanFields(f) && EolFree(line)
    ensures CleanFields(LineEffect(f, line).fields) && CleanCalls(LineEffect(f, line).calls)
  {
    CleanValue(line);
  }

  lemma {:induction false} CleanLines(f: Fields, lines: seq<string>)
    requires CleanFields(f) && EolFreeLines(lines)
    ensures CleanCalls(LinesEffect(f, lines).calls)
    decreases |lines|
  {
    if lines != [] {
      CleanLine(f, lines[0]);
      CleanLines(LineEffect(f, lines[0]).fields, lines[1..]);
    }
  }

  lemma {:induction false} SplitLinesAreEolFree(s: string)
    ensures EolFreeLines(LinesOf(s).complete)
    decreases |s|
  {
    if HasLine(s) {
      SplitLinesAreEolFree(s[NextLine(s)..]);
      assert EolFree(s[..EolIndex(s)]);
    }
  }

  lemma {:induction false} EveryExpectedCall(ms: seq<OutgoingMessage>, m: OutgoingMessage)
    requires m in ms && CleanCalls(ExpectedAll(ms))
    ensures CleanCalls(Expected(m))
  {
    var first, rest := Expected(ms[0]), ExpectedAll(ms[1..]);
    assert forall k :: 0 <= k < |first| ==> (first + rest)[k] == first[k];
    assert forall k :: 0 <= k < |rest| ==> (first + rest)[|first| + k] == rest[k];
    if m != ms[0] {
      EveryExpectedCall(ms[1..], m);
    }
  }

  lemma {:induction false} CleanIsDispatchable(m: OutgoingMessage)
    requires CleanCalls(Expected(m))
    ensures Dispatchable(m)
  {
    var calls := Expected(m);
    assert calls != [] ==> CleanCall(calls[|calls| - 1]);
  }

  lemma {:induction false} OnlyDispatchableArrive(ms: seq<OutgoingMessage>, chunks: seq<string>)
    requires chunks != [] && Concat(chunks) == PrintAll(ms)
    requires FeedAllEffect(FRESH, chunks).calls == ExpectedAll(ms)
    ensures forall m :: m in ms ==> Dispatchable(m)
  {
    WholeStream(ms, chunks);
    SplitLinesAreEolFree(PrintAll(ms));
    CleanLines(NO_FIELDS, LinesOf(PrintAll(ms)).complete);
    forall m | m in ms
      ensures Dispatchable(m)
    {
      EveryExpectedCall(ms, m);
      CleanIsDispatchable(m);
    }
  }

  /**
   However the printed stream is cut, the callbacks are those of the messages, in order,
   and the parser ends idle, if and only if the push parser can carry every printed text.
   */
  lemma {:induction false} ArriveExactly(ms: seq<OutgoingMessage>, chunks: seq<string>)
    requires chunks != [] && Concat(chunks) == PrintAll(ms)
    ensures FeedAllEffect(FRESH, chunks) == Outcome(IDLE, ExpectedAll(ms)) <==>
            forall m :: m in ms ==> Dispatchable(m)
  {
    if forall m :: m in ms ==> Dispatchable(m) {
      DispatchableArrive(ms, chunks);
    } else if FeedAllEffect(FRESH, chunks).calls == ExpectedAll(ms) {
      OnlyDispatchableArrive(ms, chunks);
    }
  }

  lemma {:induction false} PrefixOfUnmarked(a: string, b: string)
    ensures StartsWith(a, BOM) ==> StartsWith(a + b, BOM)
  {
    if StartsWith(a, BOM) {
      assert (a + b)[..|BOM|] == a[..|BOM|];
    }
  }

  /** A connection cut after any byte has delivered a prefix of what was sent. */
  lemma {:induction false} CutConnection(ms: seq<OutgoingMessage>, sent: string, lost: string, chunks: seq<string>)
    requires sent + lost == PrintAll(ms)
    requires chunks != [] && Concat(chunks) == sent
    requires forall m :: m in ms ==> Dispatchable(m)
    ensures FeedAllEffect(FRESH, chunks).calls <= ExpectedAll(ms)
  {
    Go.NeverMarked(ms);
    PrefixOfUnmarked(sent, lost);
    ChunkInvariance(FRESH, chunks);
    CutStream(sent, lost);
    assert Concat([PrintAll(ms)]) == PrintAll(ms) by {
      assert [PrintAll(ms)][1..] == [];
    }
    DispatchableArrive(ms, [PrintAll(ms)]);
    ChunkInvariance(FRESH, [PrintAll(ms)]);
  }
}
