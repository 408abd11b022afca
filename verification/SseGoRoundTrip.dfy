/**
 The Go printer followed by the Go reader: a list of messages comes back exactly if
 and only if every printed field can be carried by a line.
 */
module SseGoRoundTrip {
  import opened Wrappers
  import opened Text
  import opened SseSyntax
  import opened Decimal
  import opened SsePrinter
  import opened SseReader
  import opened SseStream

  /** Text the reader can hand back from one line. */
  predicate Carried(s: string) {
    LF !in s && !EndsWith(s, CR)
  }

  predicate CarriedLines(lines: seq<string>) {
    forall k :: 0 <= k < |lines| ==> Carried(lines[k])
  }

  predicate CarriedData(data: string) {
    CarriedLines(Split(data))
  }

  /** What the caller must check before sending. */
  predicate Readable(m: OutgoingMessage) {
    if m.comment != "" then Carried(m.comment)
    else
      m.data.Encoded? ==>
        Carried(m.event) && Carried(m.id) && NUL !in m.id && CarriedData(m.data.bytes)
  }

  predicate PrintsSomething(m: OutgoingMessage) {
    m.comment != "" || m.data.Encoded? || (m.data.NoData? && m.retry > 0)
  }

  /** The event a printed message should be read back as. */
  function Received(m: OutgoingMessage): ReadEvent
    requires PrintsSomething(m)
  {
    if m.comment != "" then ReadEvent("", "", "", 0, m.comment)
    else
      match m.data
      case NoData => ReadEvent("", "", "", m.retry, "")
      case Encoded(bytes) => ReadEvent(m.event, bytes, m.id, if m.retry > 0 then m.retry else 0, "")
  }

  function ReceivedAll(ms: seq<OutgoingMessage>): seq<ReadEvent> {
    if ms == [] then []
    else (if PrintsSomething(ms[0]) then [Received(ms[0])] else []) + ReceivedAll(ms[1..])
  }

  /** The events without error, in order, and then nothing more. */
  function ReadBack(ms: seq<OutgoingMessage>): Drained {
    Drain(UNTOUCHED, StripBom(PrintAll(ms)))
  }

  // --------------------------------------------------- what a block means

  lemma {:induction false} FieldLineIs(name: string, value: string)
    requires name in ["event", "data", "id", "retry"]
    ensures var l := FieldLine(name, value);
            && !IsComment(l)
            && FieldName(l) == name && FieldValue(l) == value
  {
    assert forall k :: 0 <= k < |name| ==> name[k] != ':';
    FieldLineReadsBack(name, value);
  }

  /** A block that accumulates `st`, followed by one more printed field. */
  lemma {:induction false} PrintedField(block: seq<string>, name: string, value: string)
    requires name in ["event", "data", "id", "retry"]
    ensures var st := Accumulated(block);
            Accumulated(block + [FieldLine(name, value)]) ==
            match name
            case "event" => st.(event := value, touched := true)
            case "data" => st.(dataLines := st.dataLines + [value], touched := true)
            case "id" => if NUL in value then st.(touched := true) else st.(id := value, touched := true)
            case _ => st.(retry := RetryOf(value).GetOr(st.retry), touched := true)
  {
    var l := FieldLine(name, value);
    FieldLineIs(name, value);
    AbsorbAccumulates(block, l);
    AbsorbByName(Accumulated(block), l, name, value);
  }

  lemma {:induction false} PrintedOptional(block: seq<string>, name: string, value: string)
    requires name == "event" || (name == "id" && NUL !in value)
    ensures var st, st' := Accumulated(block), Accumulated(block + OptionalField(name, value));
            && (value == "" ==> st' == st)
            && (value != "" ==> st' == if name == "event" then st.(event := value, touched := true)
                                       else st.(id := value, touched := true))
  {
    if value == "" {
      assert block + [] == block;
    } else {
      PrintedField(block, name, value);
    }
  }

  lemma {:induction false} PrintedRetry(block: seq<string>, retry: GoInt)
    ensures var st, st' := Accumulated(block), Accumulated(block + RetryField(retry));
            st' == if retry > 0 then st.(retry := retry, touched := true) else st
  {
    if retry > 0 {
      PrintedField(block, "retry", Print(retry));
      AtoiPrint(retry);
    } else {
      assert block + [] == block;
    }
  }

  lemma {:induction false} PrintedData(block: seq<string>, pieces: seq<string>)
    requires pieces != []
    ensures var st := Accumulated(block);
            Accumulated(block + DataFields(pieces)) ==
            st.(dataLines := st.dataLines + pieces, touched := true)
    decreases |pieces|
  {
    var first, rest := FieldLine("data", pieces[0]), pieces[1..];
    PrintedField(block, "data", pieces[0]);
    AppendAssociates(block, [first], DataFields(rest));
    AppendAssociates(AllOf(block, DataLine), [pieces[0]], rest);
    assert [pieces[0]] + rest == pieces;
    if rest == [] {
      NoneAppended(block + [first]);
    } else {
      PrintedData(block + [first], rest);
    }
  }

  lemma {:induction false} MessageBlock(m: OutgoingMessage)
    requires PrintsSomething(m)
    requires m.comment == "" && m.data.Encoded? ==> NUL !in m.id
    ensures Interpret(MessageLines(m)) == Received(m)
  {
    assert Accumulated([]) == UNTOUCHED;
    assert forall l: seq<string> :: [] + l == l;
    if m.comment != "" {
      var l := FieldLine("", m.comment);
      FieldLineReadsBack("", m.comment);
      AbsorbAccumulates([], l);
      assert UNTOUCHED.dataLines + [] == [];
    } else if m.data.NoData? {
      PrintedRetry([], m.retry);
    } else {
      var pieces := Split(m.data.bytes);
      var a := OptionalField("event", m.event);
      var b := a + OptionalField("id", m.id);
      var c := b + RetryField(m.retry);
      PrintedOptional([], "event", m.event);
      PrintedOptional(a, "id", m.id);
      PrintedRetry(b, m.retry);
      PrintedData(c, pieces);
      assert [] + pieces == pieces;
      JoinSplit(m.data.bytes);
    }
  }

  // -------------------------------------------------- lines of the whole stream

  function WireLines(ms: seq<OutgoingMessage>): seq<string> {
    if ms == [] then []
    else (if PrintsSomething(ms[0]) then MessageLines(ms[0]) + [""] else []) + WireLines(ms[1..])
  }

  lemma {:induction false} SilentMessage(m: OutgoingMessage)
    ensures PrintsSomething(m) <==> MessageLines(m) != []
  {
  }

  lemma {:induction false} PrintAllIsRender(ms: seq<OutgoingMessage>)
    ensures PrintAll(ms) == Render(WireLines(ms))
  {
    if ms != [] {
      SilentMessage(ms[0]);
      PrintAllIsRender(ms[1..]);
      if PrintsSomething(ms[0]) {
        RenderAppend(MessageLines(ms[0]) + [""], WireLines(ms[1..]));
      } else {
        assert [] + WireLines(ms[1..]) == WireLines(ms[1..]);
      }
    }
  }

  lemma {:induction false} FirstGoLine(l: string, rest: string)
    requires Carried(l)
    ensures GoLines(l + [LF] + rest) == [l] + GoLines(rest)
  {
    var text := l + [LF] + rest;
    IndexOfConcat(l, LF, rest);
    assert text[..|l| + 1] == l + [LF] && text[|l| + 1..] == rest;
    assert !EndsWith(l, LF);
    TrimEolIdentity(l, [LF]);
  }

  lemma {:induction false} RenderedLines(lines: seq<string>)
    requires CarriedLines(lines)
    ensures GoLines(Render(lines)) == lines
  {
    if lines != [] {
      RenderedLines(lines[1..]);
      FirstGoLine(lines[0], Render(lines[1..]));
    }
  }

  lemma {:induction false} CarriedField(name: string, value: string)
    requires Carried(value) && name in ["event", "data", "id", "retry", ""]
    ensures Carried(FieldLine(name, value)) && FieldLine(name, value) != ""
  {
    var l := FieldLine(name, value);
    assert forall k :: 0 <= k < |l| ==> l[k] == if k < |name| then name[k] else (": " + value)[k - |name|];
    assert LF !in name;
  }

  lemma {:induction false} CarriedDataFields(pieces: seq<string>)
    requires CarriedLines(pieces)
    ensures CarriedLines(DataFields(pieces)) && NonBlank(DataFields(pieces))
  {
    if pieces != [] {
      CarriedField("data", pieces[0]);
      CarriedDataFields(pieces[1..]);
    }
  }

  lemma {:induction false} DigitsAreCarried(s: string)
    requires AllDigits(s)
    ensures Carried(s)
  {
    assert s[|s| - 1] in s;
  }

  lemma {:induction false} ReadableLines(m: OutgoingMessage)
    requires Readable(m)
    ensures CarriedLines(MessageLines(m)) && NonBlank(MessageLines(m))
  {
    DigitsAreCarried(Print(if m.retry > 0 then m.retry else 0));
    CarriedField("retry", Print(if m.retry > 0 then m.retry else 0));
    if m.comment != "" {
      CarriedField("", m.comment);
    } else if m.data.Encoded? {
      CarriedField("event", m.event);
      CarriedField("id", m.id);
      CarriedDataFields(Split(m.data.bytes));
    }
  }

  // ---------------------------------------------------------- the round trip

  lemma {:induction false} OneBlock(run: seq<string>, block: seq<string>, rest: seq<string>)
    requires NonBlank(block) && run + block != []
    ensures var later := BlocksOf([], rest);
            BlocksOf(run, block + [""] + rest) == Blocks([run + block] + later.closed, later.open)
    decreases |block|
  {
    var lines := block + [""] + rest;
    if block == [] {
      assert lines[0] == "" && lines[1..] == rest && run + block == run;
    } else {
      assert lines[0] == block[0] && lines[1..] == block[1..] + [""] + rest;
      assert run + [block[0]] + block[1..] == run + block;
      OneBlock(run + [block[0]], block[1..], rest);
    }
  }

  lemma {:induction false} MeaningOfMore(block: seq<string>, later: Blocks)
    ensures Meaning(Blocks([block] + later.closed, later.open)) == Before([Interpret(block)], Meaning(later))
  {
    assert ([block] + later.closed)[1..] == later.closed;
  }

  lemma {:induction false} BlankIsCarried()
    ensures Carried("")
  {
  }

  lemma {:induction false} FrameOnWire(block: seq<string>, rest: seq<string>)
    requires block != [] && NonBlank(block) && CarriedLines(block)
    ensures Meaning(BlocksOf([], block + [""] + rest)) ==
            Before([Interpret(block)], Meaning(BlocksOf([], rest)))
    ensures CarriedLines(block + [""])
  {
    hide BlocksOf, Meaning, Interpret, Carried;
    OneBlock([], block, rest);
    assert [] + block == block;
    MeaningOfMore(block, BlocksOf([], rest));
    BlankIsCarried();
  }

  lemma {:induction false} MessageOnWire(m: OutgoingMessage, rest: seq<string>)
    requires Readable(m) && PrintsSomething(m)
    ensures Meaning(BlocksOf([], MessageLines(m) + [""] + rest)) ==
            Before([Received(m)], Meaning(BlocksOf([], rest)))
    ensures CarriedLines(MessageLines(m) + [""])
  {
    SilentMessage(m);
    ReadableLines(m);
    MessageBlock(m);
    FrameOnWire(MessageLines(m), rest);
  }

  lemma {:induction false} WireMeans(ms: seq<OutgoingMessage>)
    requires forall m :: m in ms ==> Readable(m)
    ensures Meaning(BlocksOf([], WireLines(ms))) == Drained(ReceivedAll(ms), ZERO_EVENT)
    ensures CarriedLines(WireLines(ms))
  {
    if ms != [] {
      var m, rest := ms[0], WireLines(ms[1..]);
      WireMeans(ms[1..]);
      if PrintsSomething(m) {
        MessageOnWire(m, rest);
      } else {
        NoneAppended(rest);
        assert [] + rest == rest;
        assert [] + ReceivedAll(ms[1..]) == ReceivedAll(ms[1..]);
      }
    }
  }

  lemma {:induction false} NeverMarked(ms: seq<OutgoingMessage>)
    ensures !StartsWith(PrintAll(ms), BOM)
  {
    PrintAllIsRender(ms);
    var lines := WireLines(ms);
    FirstWireLine(ms);
    if lines != [] {
      assert Render(lines)[0] == lines[0][0];
      assert BOM[0] == '\U{EF}';
    }
  }

  lemma {:induction false} FirstWireLine(ms: seq<OutgoingMessage>)
    ensures var lines := WireLines(ms);
            lines != [] ==> lines[0] != "" && lines[0][0] in [':', 'e', 'd', 'i', 'r']
  {
    if ms != [] {
      FirstWireLine(ms[1..]);
      var m := ms[0];
      SilentMessage(m);
      if PrintsSomething(m) {
        var block := MessageLines(m);
        assert WireLines(ms)[0] == block[0];
        if m.comment == "" && m.data.Encoded? {
          var data := DataFields(Split(m.data.bytes));
          assert data[0] == FieldLine("data", Split(m.data.bytes)[0]);
        }
      } else {
        assert [] + WireLines(ms[1..]) == WireLines(ms[1..]);
      }
    }
  }

  lemma {:induction false} ReadableRoundTrip(ms: seq<OutgoingMessage>)
    requires forall m :: m in ms ==> Readable(m)
    ensures ReadBack(ms) == Drained(ReceivedAll(ms), ZERO_EVENT)
  {
    NeverMarked(ms);
    PrintAllIsRender(ms);
    WireMeans(ms);
    RenderedLines(WireLines(ms));
    StreamMeaning(PrintAll(ms));
  }

  // ------------------------------------------------ the condition is necessary

  predicate CarriedEvent(e: ReadEvent) {
    Carried(e.event) && Carried(e.id) && NUL !in e.id && Carried(e.comment) && CarriedData(e.data)
  }

  lemma {:induction false} TrimmedLine(input: string)
    requires input != ""
    ensures Carried(TrimEol(RawLine(input)))
  {
    var raw := RawLine(input);
    var t := TrimEol(raw);
    assert forall k :: 0 <= k < |raw| - 1 ==> raw[k] != LF;
    assert forall k :: 0 <= k < |t| ==> t[k] == raw[k];
    assert forall k :: 0 <= k < |t| ==> t[k] != LF;
  }

  lemma {:induction false} StreamLinesAreCarried(input: string)
    ensures CarriedLines(GoLines(input))
    decreases |input|
  {
    if input != "" {
      TrimmedLine(input);
      StreamLinesAreCarried(input[|RawLine(input)|..]);
    }
  }

  lemma {:induction false} BlocksAreCarried(run: seq<string>, lines: seq<string>)
    requires CarriedLines(run) && CarriedLines(lines)
    ensures forall k :: 0 <= k < |BlocksOf(run, lines).closed| ==> CarriedLines(BlocksOf(run, lines).closed[k])
    decreases |lines|
  {
    if lines != [] {
      BlocksAreCarried(if lines[0] == "" then [] else run + [lines[0]], lines[1..]);
    }
  }

  lemma {:induction false} CarriedValue(line: string)
    requires Carried(line)
    ensures Carried(FieldValue(line))
    ensures IsComment(line) ==> Carried(CommentText(line))
  {
    forall s | s == FieldValue(line) || (IsComment(line) && s == CommentText(line))
      ensures Carried(s)
    {
      assert s == "" || s == line[|line| - |s|..];
    }
  }

  lemma {:induction false} PickedIsCarried(block: seq<string>, pick: string -> Option<string>)
    requires CarriedLines(block)
    requires forall l :: Carried(l) && pick(l).Some? ==> Carried(pick(l).value)
    ensures Carried(LastOf(block, pick, ""))
    ensures CarriedLines(AllOf(block, pick))
  {
    if block != [] {
      PickedIsCarried(block[..|block| - 1], pick);
    }
  }

  lemma {:induction false} IdsAreNulFree(block: seq<string>)
    ensures NUL !in LastOf(block, IdLine, "")
  {
    if block != [] {
      IdsAreNulFree(block[..|block| - 1]);
    }
  }

  lemma {:induction false} InterpretIsCarried(block: seq<string>)
    requires CarriedLines(block)
    ensures CarriedEvent(Interpret(block))
  {
    forall l | Carried(l)
      ensures EventLine(l).Some? ==> Carried(EventLine(l).value)
      ensures DataLine(l).Some? ==> Carried(DataLine(l).value)
      ensures IdLine(l).Some? ==> Carried(IdLine(l).value)
      ensures CommentLine(l).Some? ==> Carried(CommentLine(l).value)
    {
      CarriedValue(l);
    }
    PickedIsCarried(block, EventLine);
    PickedIsCarried(block, DataLine);
    PickedIsCarried(block, IdLine);
    PickedIsCarried(block, CommentLine);
    IdsAreNulFree(block);
    var pieces := AllOf(block, DataLine);
    if pieces != [] {
      assert forall p :: p in pieces ==> LF !in p;
      SplitJoin(pieces);
    } else {
      assert Split("") == [""];
    }
  }

  lemma {:induction false} InterpretAllCarried(blocks: seq<seq<string>>)
    requires forall k :: 0 <= k < |blocks| ==> CarriedLines(blocks[k])
    ensures forall e :: e in InterpretAll(blocks) ==> CarriedEvent(e)
  {
    if blocks != [] {
      InterpretIsCarried(blocks[0]);
      InterpretAllCarried(blocks[1..]);
    }
  }

  lemma {:induction false} EveryPrintedIsReceived(ms: seq<OutgoingMessage>, m: OutgoingMessage)
    requires m in ms && PrintsSomething(m)
    ensures Received(m) in ReceivedAll(ms)
  {
    if m != ms[0] {
      EveryPrintedIsReceived(ms[1..], m);
    }
  }

  lemma {:induction false} ReceivedIsReadable(m: OutgoingMessage)
    requires PrintsSomething(m) && CarriedEvent(Received(m))
    ensures Readable(m)
  {
  }

  lemma {:induction false} OnlyReadableComeBack(ms: seq<OutgoingMessage>)
    requires ReadBack(ms).events == ReceivedAll(ms)
    ensures forall m :: m in ms ==> Readable(m)
  {
    var input := StripBom(PrintAll(ms));
    StreamMeaning(input);
    StreamLinesAreCarried(input);
    BlocksAreCarried([], GoLines(input));
    InterpretAllCarried(BlocksOf([], GoLines(input)).closed);
    forall m | m in ms
      ensures Readable(m)
    {
      if PrintsSomething(m) {
        EveryPrintedIsReceived(ms, m);
        ReceivedIsReadable(m);
      }
    }
  }

  /**
   Whatever was printed, the messages come back in order, with nothing added, if and only
   if every printed text is one a line can carry.
   */
  lemma {:induction false} RoundTripExactly(ms: seq<OutgoingMessage>)
    ensures ReadBack(ms) == Drained(ReceivedAll(ms), ZERO_EVENT) <==> forall m :: m in ms ==> Readable(m)
  {
    if forall m :: m in ms ==> Readable(m) {
      ReadableRoundTrip(ms);
    } else if ReadBack(ms).events == ReceivedAll(ms) {
      OnlyReadableComeBack(ms);
    }
  }

  // ------------------------------------------------- a connection that is cut

  /** The lines that are left of some printed lines when only the first `cut` bytes arrive. */
  function CutLines(lines: seq<string>, cut: nat): seq<string> {
    if lines == [] || cut == 0 then []
    else if cut <= |lines[0]| then [TrimEol(lines[0][..cut])]
    else [lines[0]] + CutLines(lines[1..], cut - |lines[0]| - 1)
  }

  lemma {:induction false} CutRender(lines: seq<string>, cut: nat)
    requires CarriedLines(lines) && cut <= |Render(lines)|
    ensures GoLines(Render(lines)[..cut]) == CutLines(lines, cut)
  {
    if lines != [] && cut > 0 {
      var l, rest := lines[0], Render(lines[1..]);
      if cut <= |l| {
        assert Render(lines)[..cut] == l[..cut];
        UnfinishedLine(l[..cut]);
      } else {
        var later := cut - |l| - 1;
        assert Render(lines)[..cut] == l + [LF] + rest[..later];
        FirstGoLine(l, rest[..later]);
        CutRender(lines[1..], later);
      }
    }
  }

  lemma {:induction false} UnfinishedLine(l: string)
    requires l != "" && LF !in l
    ensures GoLines(l) == [TrimEol(l)]
  {
    IndexOfAbsent(l, LF);
    assert l[|l|..] == "";
  }

  /** A line as the printers start one: a trimmed part of it is never blank. */
  predicate StartsPlainly(line: string) {
    line != "" && line[0] in ":edir"
  }

  predicate AllStartPlainly(lines: seq<string>) {
    forall k :: 0 <= k < |lines| ==> StartsPlainly(lines[k])
  }

  lemma {:induction false} DataStartsPlainly(pieces: seq<string>)
    ensures AllStartPlainly(DataFields(pieces))
  {
    if pieces != [] {
      DataStartsPlainly(pieces[1..]);
    }
  }

  lemma {:induction false} MessageStartsPlainly(m: OutgoingMessage)
    ensures AllStartPlainly(MessageLines(m))
  {
    if m.data.Encoded? {
      DataStartsPlainly(Split(m.data.bytes));
    }
  }

  lemma {:induction false} CutIsNotBlank(lines: seq<string>, cut: nat)
    requires AllStartPlainly(lines)
    ensures NonBlank(CutLines(lines, cut)) && (lines != [] && cut > 0 ==> CutLines(lines, cut) != [])
  {
    if lines != [] && cut > 0 {
      if cut <= |lines[0]| {
        var t := TrimEol(lines[0][..cut]);
        assert t != "";
      } else {
        CutIsNotBlank(lines[1..], cut - |lines[0]| - 1);
      }
    }
  }

  /** All lines survive exactly when no more than the last line feed is lost. */
  lemma {:induction false} CutShows(lines: seq<string>, cut: nat)
    requires lines != [] && CarriedLines(lines) && NonBlank(lines) && cut <= |Render(lines)|
    ensures CutLines(lines, cut) == lines <==> cut + 1 >= |Render(lines)|
  {
    var l, rest := lines[0], lines[1..];
    if 0 < cut <= |l| {
      assert |TrimEol(l[..cut])| <= cut;
      if cut == |l| {
        assert l[..cut] == l && !EndsWith(l, LF);
        TrimEolIdentity(l, "");
        NoneAppended(l);
      }
    } else if cut > |l| && rest != [] {
      CutShows(rest, cut - |l| - 1);
      assert lines == [l] + rest;
    }
  }

  /** The messages that lie wholly within the first `cut` bytes. */
  function Complete(ms: seq<OutgoingMessage>, cut: nat): (n: nat)
    ensures n <= |ms|
  {
    if ms == [] || cut < |MessageText(ms[0])| then 0
    else 1 + Complete(ms[1..], cut - |MessageText(ms[0])|)
  }

  /** What arrives of the message in which the cut falls. */
  function Part(ms: seq<OutgoingMessage>, cut: nat): string {
    if ms == [] then ""
    else if cut < |MessageText(ms[0])| then MessageText(ms[0])[..cut]
    else Part(ms[1..], cut - |MessageText(ms[0])|)
  }

  function PartialEvent(part: string): ReadEvent {
    if part == "" then ZERO_EVENT else Interpret(GoLines(part))
  }

  lemma {:induction false} OpenBlock(run: seq<string>, lines: seq<string>)
    requires NonBlank(lines)
    ensures BlocksOf(run, lines) == Blocks([], run + lines)
    decreases |lines|
  {
    if lines == [] {
      NoneAppended(run);
    } else {
      OpenBlock(run + [lines[0]], lines[1..]);
      assert run + [lines[0]] + lines[1..] == run + lines;
    }
  }

  /** Inside a message: one open block, of the lines that are left. */
  lemma {:induction false} CutInside(m: OutgoingMessage, cut: nat)
    requires Readable(m) && cut < |MessageText(m)|
    ensures var part := MessageText(m)[..cut];
            && GoLines(part) == CutLines(MessageLines(m), cut)
            && Meaning(BlocksOf([], GoLines(part))) == Drained([], PartialEvent(part))
  {
    hide CutLines, Interpret, MessageLines;
    var lines := MessageLines(m);
    ReadableLines(m);
    MessageStartsPlainly(m);
    RenderAppend(lines, [""]);
    assert Render([""]) == [LF];
    assert MessageText(m)[..cut] == Render(lines)[..cut];
    CutRender(lines, cut);
    CutIsNotBlank(lines, cut);
    OpenBlock([], CutLines(lines, cut));
    assert [] + CutLines(lines, cut) == CutLines(lines, cut);
  }

  lemma {:induction false} WholeMessage(m: OutgoingMessage, rest: string)
    requires Readable(m)
    ensures Meaning(BlocksOf([], GoLines(MessageText(m) + rest))) ==
            Before(ReceivedAll([m]), Meaning(BlocksOf([], GoLines(rest))))
  {
    hide Interpret, MessageLines, Received, BlocksOf, GoLines, Meaning, Readable;
    SilentMessage(m);
    OneReceived(m);
    if PrintsSomething(m) {
      var lines := MessageLines(m);
      MessageOnWire(m, GoLines(rest));
      LinesThen(lines + [""], rest);
    } else {
      assert "" + rest == rest;
      var later := Meaning(BlocksOf([], GoLines(rest)));
      assert [] + later.events == later.events;
    }
  }

  lemma {:induction false} OneReceived(m: OutgoingMessage)
    ensures ReceivedAll([m]) == if PrintsSomething(m) then [Received(m)] else []
  {
    assert [m][1..] == [];
  }

  lemma {:induction false} LinesThen(lines: seq<string>, rest: string)
    requires CarriedLines(lines)
    ensures GoLines(Render(lines) + rest) == lines + GoLines(rest)
  {
    if lines == [] {
      assert "" + rest == rest && [] + GoLines(rest) == GoLines(rest);
    } else {
      var l := lines[0];
      LinesThen(lines[1..], rest);
      AppendAssociates(l + [LF], Render(lines[1..]), rest);
      FirstGoLine(l, Render(lines[1..]) + rest);
      AppendAssociates([l], lines[1..], GoLines(rest));
      assert [l] + lines[1..] == lines;
      hide GoLines, Render;
    }
  }

  lemma {:induction false} CutMeaning(ms: seq<OutgoingMessage>, cut: nat)
    requires (forall m :: m in ms ==> Readable(m)) && cut <= |PrintAll(ms)|
    ensures Meaning(BlocksOf([], GoLines(PrintAll(ms)[..cut]))) ==
            Drained(ReceivedAll(ms[..Complete(ms, cut)]), PartialEvent(Part(ms, cut)))
    decreases |ms|
  {
    hide Meaning, BlocksOf, MessageText, PartialEvent, Readable, GoLines;
    if ms == [] {
      NothingPrinted();
    } else if cut < |MessageText(ms[0])| {
      assert PrintAll(ms)[..cut] == MessageText(ms[0])[..cut];
      CutInside(ms[0], cut);
    } else {
      var text := MessageText(ms[0]);
      CutMeaning(ms[1..], cut - |text|);
      CutLater(ms, cut);
    }
  }

  lemma {:induction false} CutLater(ms: seq<OutgoingMessage>, cut: nat)
    requires ms != [] && Readable(ms[0]) && |MessageText(ms[0])| <= cut <= |PrintAll(ms)|
    ensures var rest, later := ms[1..], cut - |MessageText(ms[0])|;
            && Part(ms, cut) == Part(rest, later)
            && ReceivedAll(ms[..Complete(ms, cut)]) == ReceivedAll([ms[0]]) + ReceivedAll(rest[..Complete(rest, later)])
            && Meaning(BlocksOf([], GoLines(PrintAll(ms)[..cut]))) ==
               Before(ReceivedAll([ms[0]]), Meaning(BlocksOf([], GoLines(PrintAll(rest)[..later]))))
  {
    hide Meaning, BlocksOf, MessageText, Readable, GoLines, ReceivedAll;
    var text, rest := MessageText(ms[0]), PrintAll(ms[1..]);
    var later := cut - |text|;
    assert (text + rest)[..cut] == text + rest[..later];
    WholeMessage(ms[0], rest[..later]);
    var n := Complete(ms[1..], later);
    assert ms[..n + 1] == [ms[0]] + ms[1..][..n];
    FirstReceived(ms[0], ms[1..][..n]);
  }

  lemma {:induction false} NothingPrinted()
    ensures Meaning(BlocksOf([], GoLines(""))) == Drained([], PartialEvent(""))
  {
  }

  lemma {:induction false} FirstReceived(m: OutgoingMessage, rest: seq<OutgoingMessage>)
    ensures ReceivedAll([m] + rest) == ReceivedAll([m]) + ReceivedAll(rest)
  {
    assert ([m] + rest)[1..] == rest;
    OneReceived(m);
  }

  lemma {:induction false} ReceivedPrefix(ms: seq<OutgoingMessage>, n: nat)
    requires n <= |ms|
    ensures ReceivedAll(ms[..n]) <= ReceivedAll(ms)
    decreases n
  {
    if n > 0 {
      ReceivedPrefix(ms[1..], n - 1);
      FirstReceived(ms[0], ms[1..]);
      FirstReceived(ms[0], ms[1..][..n - 1]);
      assert [ms[0]] + ms[1..] == ms && [ms[0]] + ms[1..][..n - 1] == ms[..n];
    }
  }

  /**
   A connection cut after any byte: the events without error are those of the messages that
   arrived whole, and the event returned with the error is what the lines that are left of
   the next message say.
   */
  lemma {:induction false} CutConnection(ms: seq<OutgoingMessage>, cut: nat)
    requires (forall m :: m in ms ==> Readable(m)) && cut <= |PrintAll(ms)|
    ensures Drain(UNTOUCHED, StripBom(PrintAll(ms)[..cut])) ==
            Drained(ReceivedAll(ms[..Complete(ms, cut)]), PartialEvent(Part(ms, cut)))
    ensures ReceivedAll(ms[..Complete(ms, cut)]) <= ReceivedAll(ms)
  {
    hide Meaning, BlocksOf, GoLines, Complete, Part, PartialEvent, Readable;
    NeverMarked(ms);
    var input := PrintAll(ms)[..cut];
    assert input[..|input|] == input && !StartsWith(input, BOM) by {
      assert |input| >= 3 ==> input[..3] == PrintAll(ms)[..3];
    }
    StreamMeaning(input);
    CutMeaning(ms, cut);
    ReceivedPrefix(ms, Complete(ms, cut));
  }

  /**
   The event returned with the error has all the lines of its message exactly when no more
   than the two line feeds at its end are lost; then it is the whole message.
   */
  lemma {:induction false} PartialExactly(m: OutgoingMessage, cut: nat)
    requires Readable(m) && 0 < cut < |MessageText(m)|
    ensures var part := MessageText(m)[..cut];
            && (GoLines(part) == MessageLines(m) <==> cut + 2 >= |MessageText(m)|)
            && (cut + 2 >= |MessageText(m)| ==> PartialEvent(part) == Received(m))
  {
    hide CutLines, Interpret, MessageLines;
    SilentMessage(m);
    ReadableLines(m);
    CutInside(m, cut);
    RenderAppend(MessageLines(m), [""]);
    assert Render([""]) == [LF];
    CutShows(MessageLines(m), cut);
    MessageBlock(m);
  }
}
