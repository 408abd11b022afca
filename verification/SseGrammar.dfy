/**
 Event streams by their grammar (HTML Standard, section 9.2.5 "Parsing an event stream"): what
 each parser makes of the lines the grammar allows, said of the parts of the lines and not of
 their text.
 */
module SseGrammar {
  import opened Wrappers
  import opened Text
  import opened SseSyntax
  import opened Decimal
  import opened SseReader
  import opened SseStream
  import opened SseChunks
  import opened SseGoRoundTrip
  import opened SseTsRoundTrip
  import Ts = SseParser

  /** A comment, a field with a colon and perhaps a space, or a field that is a name alone. */
  datatype Line =
    | Comment(spaced: bool, text: string)
    | Field(name: string, spaced: bool, value: string)
    | Bare(name: string)

  function TextOf(l: Line): string {
    match l
    case Comment(spaced, text) => ":" + (if spaced then " " else "") + text
    case Field(name, spaced, value) => name + ":" + (if spaced then " " else "") + value
    case Bare(name) => name
  }

  /** Names have no colon; without the space, the rest does not start with one. */
  predicate WellFormed(l: Line) {
    match l
    case Comment(spaced, text) => spaced || !StartsWith(text, " ")
    case Field(name, spaced, value) => name != "" && ':' !in name && (spaced || !StartsWith(value, " "))
    case Bare(name) => name != "" && ':' !in name
  }

  predicate AllWellFormed(ls: seq<Line>) {
    forall k :: 0 <= k < |ls| ==> WellFormed(ls[k])
  }

  function Name(l: Line): Option<string> {
    if l.Comment? then None else Some(l.name)
  }

  function ValueOf(l: Line): string {
    match l
    case Comment(_, text) => text
    case Field(_, _, value) => value
    case Bare(_) => ""
  }

  /** Both parsers take a line apart as the grammar puts it together. */
  lemma {:induction false} LineReads(l: Line)
    requires WellFormed(l)
    ensures TextOf(l) != "" && (IsComment(TextOf(l)) <==> l.Comment?)
    ensures l.Comment? ==> CommentText(TextOf(l)) == l.text
    ensures !l.Comment? ==> FieldName(TextOf(l)) == l.name && FieldValue(TextOf(l)) == ValueOf(l)
  {
    if l.Bare? {
      BareReads(l.name);
    } else {
      TextWithColon(l);
      SpaceDropped(l.spaced, ValueOf(l));
      hide TextOf, DropSpace, IsComment, CommentText, FieldName, FieldValue;
      ColonReads(if l.Comment? then "" else l.name, (if l.spaced then " " else "") + ValueOf(l));
    }
  }

  lemma {:induction false} ColonReads(name: string, rest: string)
    requires ':' !in name
    ensures var line := name + ":" + rest;
            && line != "" && FieldName(line) == name && FieldValue(line) == DropSpace(rest)
            && (IsComment(line) <==> name == "") && (name == "" ==> CommentText(line) == DropSpace(rest))
  {
    hide DropSpace;
    var line := name + ":" + rest;
    assert line == name + [':'] + rest;
    IndexOfConcat(name, ':', rest);
    assert line[..|name|] == name && line[|name| + 1..] == rest;
    if name == "" {
      assert line[0] == ':' && line[1..] == rest;
    } else {
      assert line[0] == name[0] && name[0] in name;
    }
  }

  lemma {:induction false} BareReads(name: string)
    requires name != "" && ':' !in name
    ensures !IsComment(name) && FieldName(name) == name && FieldValue(name) == ""
  {
    IndexOfAbsent(name, ':');
    assert name[..|name|] == name && name[0] in name;
  }

  lemma {:induction false} SpaceDropped(spaced: bool, s: string)
    requires spaced || !StartsWith(s, " ")
    ensures DropSpace((if spaced then " " else "") + s) == s
  {
    assert "" + s == s && (" " + s)[1..] == s;
    assert s != "" && s[0] == ' ' ==> s[..1] == " ";
  }

  /** The line with that before its first colon and that after it. */
  function Split(name: string, rest: string): Line {
    var spaced := rest != "" && rest[0] == ' ';
    var value := if spaced then rest[1..] else rest;
    if name == "" then Comment(spaced, value) else Field(name, spaced, value)
  }

  /** The one way in which the grammar makes a line. */
  function Parse(line: string): Line
    requires line != ""
  {
    var i := IndexOf(line, ':');
    if i == |line| then Bare(line) else Split(line[..i], line[i + 1..])
  }

  lemma {:induction false} SplitText(name: string, rest: string)
    requires ':' !in name
    ensures WellFormed(Split(name, rest)) && TextOf(Split(name, rest)) == name + ":" + rest
  {
    var l := Split(name, rest);
    var space := if l.spaced then " " else "";
    RestBack(rest, l.spaced, ValueOf(l));
    AppendAssociates(name + ":", space, ValueOf(l));
    if name == "" {
      NoneAppended(":");
    } else {
      assert ValueOf(l) == l.value;
    }
  }

  lemma {:induction false} RestBack(rest: string, spaced: bool, value: string)
    requires spaced == (rest != "" && rest[0] == ' ') && value == if spaced then rest[1..] else rest
    ensures (if spaced then " " else "") + value == rest
    ensures spaced || !StartsWith(value, " ")
  {
    if spaced {
      assert rest == " " + rest[1..];
    } else {
      NoneAppended(rest);
    }
  }

  lemma {:induction false} EveryLineParses(line: string)
    requires line != ""
    ensures WellFormed(Parse(line)) && TextOf(Parse(line)) == line
  {
    hide Split, WellFormed, TextOf;
    var i := IndexOf(line, ':');
    if i < |line| {
      assert ':' !in line[..i];
      SplitText(line[..i], line[i + 1..]);
      assert line == line[..i] + ":" + line[i + 1..];
    } else {
      assert line[..i] == line;
      BareText(line);
    }
  }

  lemma {:induction false} BareText(name: string)
    requires name != "" && ':' !in name
    ensures WellFormed(Bare(name)) && TextOf(Bare(name)) == name
  {
  }

  lemma {:induction false} ParseColon(name: string, rest: string)
    requires ':' !in name
    ensures Parse(name + ":" + rest) == Split(name, rest)
  {
    hide Split;
    var line := name + ":" + rest;
    assert line == name + [':'] + rest;
    IndexOfConcat(name, ':', rest);
    assert line[..|name|] == name && line[|name| + 1..] == rest;
  }

  lemma {:induction false} ParseBare(name: string)
    requires name != "" && ':' !in name
    ensures Parse(name) == Bare(name)
  {
    IndexOfAbsent(name, ':');
  }

  lemma {:induction false} TextWithColon(l: Line)
    requires WellFormed(l) && !l.Bare?
    ensures var name := if l.Comment? then "" else l.name;
            ':' !in name && TextOf(l) == name + ":" + ((if l.spaced then " " else "") + ValueOf(l))
  {
    var name := if l.Comment? then "" else l.name;
    NoneAppended(":");
    AppendAssociates(name + ":", if l.spaced then " " else "", ValueOf(l));
  }

  lemma {:induction false} OnlyOneParse(l: Line)
    requires WellFormed(l)
    ensures TextOf(l) != "" && Parse(TextOf(l)) == l
  {
    LineReads(l);
    if l.Bare? {
      ParseBare(l.name);
    } else {
      TextWithColon(l);
      SplitBack(l);
      hide Split, Parse, WellFormed, TextOf;
      ParseColon(if l.Comment? then "" else l.name, (if l.spaced then " " else "") + ValueOf(l));
    }
  }

  lemma {:induction false} SplitBack(l: Line)
    requires WellFormed(l) && !l.Bare?
    ensures Split(if l.Comment? then "" else l.name, (if l.spaced then " " else "") + ValueOf(l)) == l
  {
    var value := ValueOf(l);
    assert "" + value == value && (" " + value)[1..] == value;
    assert value != "" && value[0] == ' ' ==> value[..1] == " ";
  }

  // ------------------------------------------------------- the parts of a block

  /** The values of the fields of that name, in order. */
  function Values(ls: seq<Line>, name: string): seq<string> {
    if ls == [] then []
    else
      var last := |ls| - 1;
      Values(ls[..last], name) + if Name(ls[last]) == Some(name) then [ValueOf(ls[last])] else []
  }

  function Comments(ls: seq<Line>): seq<string> {
    if ls == [] then []
    else
      var last := |ls| - 1;
      Comments(ls[..last]) + if ls[last].Comment? then [ls[last].text] else []
  }

  function NulFree(values: seq<string>): seq<string> {
    if values == [] then []
    else
      var last := |values| - 1;
      NulFree(values[..last]) + if '\0' in values[last] then [] else [values[last]]
  }

  /** The numbers among the values: digits only, and no more than the machine's integer holds. */
  function Numbers(values: seq<string>): seq<GoInt> {
    if values == [] then []
    else
      var last := |values| - 1;
      NumeralsAreDigits(values[last]);
      Numbers(values[..last]) +
      if IsNumeral(values[last]) && Value(values[last]) <= MAX_INT then [Value(values[last])] else []
  }

  predicate IsNumeral(s: string) {
    s != "" && forall k :: 0 <= k < |s| ==> s[k] in "0123456789"
  }

  lemma {:induction false} NumeralsAreDigits(s: string)
    ensures IsNumeral(s) <==> AllDigits(s)
  {
    forall c
      ensures c in "0123456789" <==> IsDigit(c)
    {
      if IsDigit(c) {
        DigitsInOrder(DigitValue(c));
      }
    }
    assert forall c :: c in s ==> exists k :: 0 <= k < |s| && s[k] == c;
  }

  function LastIn<T>(s: seq<T>, default: T): T {
    if s == [] then default else s[|s| - 1]
  }

  function Texts(ls: seq<Line>): seq<string> {
    seq(|ls|, k requires 0 <= k < |ls| => TextOf(ls[k]))
  }

  lemma {:induction false} TextsSnoc(ls: seq<Line>)
    requires ls != []
    ensures Texts(ls) == Texts(ls[..|ls| - 1]) + [TextOf(ls[|ls| - 1])]
  {
  }

  lemma {:induction false} ValuesSnoc(ls: seq<Line>, l: Line, name: string)
    ensures Values(ls + [l], name) ==
            if Name(l) == Some(name) then Values(ls, name) + [ValueOf(l)] else Values(ls, name)
  {
    assert (ls + [l])[..|ls|] == ls;
    NoneAppended(Values(ls, name));
  }

  lemma {:induction false} CommentsSnoc(ls: seq<Line>, l: Line)
    ensures Comments(ls + [l]) == if l.Comment? then Comments(ls) + [l.text] else Comments(ls)
  {
    assert (ls + [l])[..|ls|] == ls;
  }

  lemma {:induction false} NulFreeSnoc(values: seq<string>, v: string)
    ensures NulFree(values + [v]) == if NUL in v then NulFree(values) else NulFree(values) + [v]
  {
    assert (values + [v])[..|values|] == values;
  }

  lemma {:induction false} NumbersSnoc(values: seq<string>, v: string)
    ensures AllDigits(v) && Value(v) <= MAX_INT ==> Numbers(values + [v]) == Numbers(values) + [Value(v)]
    ensures !(AllDigits(v) && Value(v) <= MAX_INT) ==> Numbers(values + [v]) == Numbers(values)
  {
    NumeralsAreDigits(v);
    assert (values + [v])[..|values|] == values;
  }

  // ---------------------------------------------------------- the pull reader

  /** The event a block is read as. */
  function Pulled(ls: seq<Line>): ReadEvent {
    ReadEvent(LastIn(Values(ls, "event"), ""), Join(Values(ls, "data")), LastIn(NulFree(Values(ls, "id")), ""),
              LastIn(Numbers(Values(ls, "retry")), 0), LastIn(Comments(ls), ""))
  }

  function PulledState(ls: seq<Line>): ReadState {
    ReadState(LastIn(Values(ls, "event"), ""), Values(ls, "data"), LastIn(NulFree(Values(ls, "id")), ""),
              LastIn(Numbers(Values(ls, "retry")), 0), LastIn(Comments(ls), ""), ls != [])
  }

  lemma {:induction false} PulledOneMore(ls: seq<Line>, l: Line)
    requires WellFormed(l)
    ensures Absorb(PulledState(ls), TextOf(l)) == PulledState(ls + [l])
  {
    hide Values, Comments, NulFree, Numbers, WellFormed, TextOf, ValueOf;
    LineReads(l);
    ValuesSnoc(ls, l, "event");
    ValuesSnoc(ls, l, "data");
    ValuesSnoc(ls, l, "id");
    ValuesSnoc(ls, l, "retry");
    CommentsSnoc(ls, l);
    if l.Comment? {
      NoneAppended(Values(ls, "data"));
    } else {
      AbsorbByName(PulledState(ls), TextOf(l), l.name, ValueOf(l));
      hide Absorb, AllDigits;
      NulFreeSnoc(Values(ls, "id"), ValueOf(l));
      NumbersSnoc(Values(ls, "retry"), ValueOf(l));
    }
  }

  lemma {:induction false} BlockIsPulled(ls: seq<Line>)
    requires AllWellFormed(ls)
    ensures Accumulated(Texts(ls)) == PulledState(ls)
  {
    hide TextOf, WellFormed, PulledState, Accumulated, Absorb, Texts;
    if ls == [] {
      NothingPulled();
    } else {
      var before, l := ls[..|ls| - 1], ls[|ls| - 1];
      BlockIsPulled(before);
      TextsSnoc(ls);
      AbsorbAccumulates(Texts(before), TextOf(l));
      PulledOneMore(before, l);
      assert before + [l] == ls;
    }
  }

  lemma {:induction false} NothingPulled()
    ensures Texts([]) == [] && Accumulated([]) == PulledState([])
  {
  }

  lemma {:induction false} BlockMeans(ls: seq<Line>)
    requires AllWellFormed(ls)
    ensures Interpret(Texts(ls)) == Pulled(ls)
  {
    BlockIsPulled(ls);
  }

  // ---------------------------------------------------------- the push parser

  /** The id of the event: that of the last id line, unless it holds a NUL. */
  function PushedId(ls: seq<Line>): Option<string> {
    var ids := Values(ls, "id");
    if ids == [] || '\0' in LastIn(ids, "") then None else Some(LastIn(ids, ""))
  }

  function LineCalls(l: Line): seq<Ts.Callback> {
    if l.Comment? then [Ts.OnComment(l.text)]
    else if l.name in ["event", "data", "id"] then []
    else if l.name != "retry" then [Ts.OnError(Ts.UnknownField(l.name, ValueOf(l), TextOf(l)))]
    else if IsNumeral(ValueOf(l)) then NumeralsAreDigits(ValueOf(l)); [Ts.OnRetry(Value(ValueOf(l)))]
    else [Ts.OnError(Ts.InvalidRetry(ValueOf(l), TextOf(l)))]
  }

  function AllLineCalls(ls: seq<Line>): seq<Ts.Callback> {
    if ls == [] then [] else AllLineCalls(ls[..|ls| - 1]) + LineCalls(ls[|ls| - 1])
  }

  /** The callbacks of a block: those of its lines, and then its event if it has data. */
  function Pushed(ls: seq<Line>): seq<Ts.Callback> {
    AllLineCalls(ls) +
    if Values(ls, "data") == [] then []
    else [Ts.OnEvent(PushedId(ls), NonEmpty(LastIn(Values(ls, "event"), "")), Join(Values(ls, "data")))]
  }

  function PushedFields(ls: seq<Line>): Ts.Fields {
    Ts.Fields(PushedId(ls), Render(Values(ls, "data")), LastIn(Values(ls, "event"), ""))
  }

  lemma {:induction false} PushedOneMore(ls: seq<Line>, l: Line)
    requires WellFormed(l)
    ensures Ts.LineEffect(PushedFields(ls), TextOf(l)) == Ts.Effect(PushedFields(ls + [l]), LineCalls(l))
  {
    hide Render, Values, WellFormed, TextOf, ValueOf, AllDigits, IsNumeral, Value;
    LineReads(l);
    NumeralsAreDigits(ValueOf(l));
    ValuesSnoc(ls, l, "event");
    ValuesSnoc(ls, l, "data");
    ValuesSnoc(ls, l, "id");
    RenderOneMore(Values(ls, "data"), ValueOf(l));
  }

  lemma {:induction false} RenderOneMore(lines: seq<string>, last: string)
    ensures Render(lines + [last]) == Render(lines) + last + [LF]
  {
    RenderAppend(lines, [last]);
    assert Render([last]) == last + [LF];
  }

  lemma {:induction false} LinesArePushed(ls: seq<Line>)
    requires AllWellFormed(ls)
    ensures Ts.LinesEffect(Ts.NO_FIELDS, Texts(ls)) == Ts.Effect(PushedFields(ls), AllLineCalls(ls))
  {
    hide Ts.LineEffect, Ts.LinesEffect, LineCalls, PushedFields, Texts, TextOf, WellFormed;
    NothingPushed();
    if ls != [] {
      var before, l := ls[..|ls| - 1], ls[|ls| - 1];
      LinesArePushed(before);
      TextsSnoc(ls);
      assert before + [l] == ls;
      PushedOneMore(before, l);
      OneLineEffect(PushedFields(before), TextOf(l));
      Chain(Ts.NO_FIELDS, Texts(before), PushedFields(before), AllLineCalls(before),
            [TextOf(l)], PushedFields(ls), LineCalls(l));
    }
  }

  lemma {:induction false} NothingPushed()
    ensures Texts([]) == [] && Ts.LinesEffect(Ts.NO_FIELDS, []) == Ts.Effect(PushedFields([]), [])
  {
  }

  lemma {:induction false} BlockIsPushed(ls: seq<Line>)
    requires AllWellFormed(ls)
    ensures Ts.LinesEffect(Ts.NO_FIELDS, Texts(ls) + [""]) == Ts.Effect(Ts.NO_FIELDS, Pushed(ls))
  {
    var f, data := PushedFields(ls), Values(ls, "data");
    LinesArePushed(ls);
    OneLineEffect(f, "");
    Chain(Ts.NO_FIELDS, Texts(ls), f, AllLineCalls(ls), [""], Ts.NO_FIELDS, Ts.Dispatched(f));
    if data != [] {
      RenderIsJoin(data);
      assert f.data[..|f.data| - 1] == Join(data);
    }
  }

  // ------------------------------------------------------------- whole streams

  predicate EolFreeParts(l: Line) {
    match l
    case Comment(_, text) => EolFree(text)
    case Field(name, _, value) => EolFree(name) && EolFree(value)
    case Bare(name) => EolFree(name)
  }

  predicate AllEolFree(ls: seq<Line>) {
    forall k :: 0 <= k < |ls| ==> EolFreeParts(ls[k])
  }

  predicate Printable(blocks: seq<seq<Line>>) {
    forall b :: 0 <= b < |blocks| ==> blocks[b] != [] && AllWellFormed(blocks[b]) && AllEolFree(blocks[b])
  }

  function StreamLines(blocks: seq<seq<Line>>): seq<string> {
    if blocks == [] then [] else Texts(blocks[0]) + [""] + StreamLines(blocks[1..])
  }

  function PulledAll(blocks: seq<seq<Line>>): seq<ReadEvent> {
    if blocks == [] then [] else [Pulled(blocks[0])] + PulledAll(blocks[1..])
  }

  function PushedAll(blocks: seq<seq<Line>>): seq<Ts.Callback> {
    if blocks == [] then [] else Pushed(blocks[0]) + PushedAll(blocks[1..])
  }

  lemma {:induction false} LineIsClean(l: Line)
    requires WellFormed(l) && EolFreeParts(l)
    ensures EolFree(TextOf(l)) && TextOf(l) != ""
  {
    var t := TextOf(l);
    LineReads(l);
    assert EolFree(":") && EolFree(" ") && EolFree("");
    assert forall c :: c in t ==> c == ':' || c == ' ' || c in ValueOf(l) || (Name(l).Some? && c in Name(l).value);
  }

  lemma {:induction false} BlockIsClean(ls: seq<Line>)
    requires AllWellFormed(ls) && AllEolFree(ls)
    ensures EolFreeLines(Texts(ls)) && NonBlank(Texts(ls)) && CarriedLines(Texts(ls))
  {
    hide WellFormed, EolFreeParts, TextOf;
    forall k | 0 <= k < |ls|
      ensures EolFree(Texts(ls)[k]) && Texts(ls)[k] != "" && Carried(Texts(ls)[k])
    {
      LineIsClean(ls[k]);
      assert TextOf(ls[k])[|TextOf(ls[k])| - 1] in TextOf(ls[k]);
    }
  }

  lemma {:induction false} StreamIsPulled(blocks: seq<seq<Line>>)
    requires Printable(blocks)
    ensures Meaning(BlocksOf([], StreamLines(blocks))) == Drained(PulledAll(blocks), ZERO_EVENT)
    ensures EolFreeLines(StreamLines(blocks)) && CarriedLines(StreamLines(blocks))
  {
    hide Interpret, Pulled, Texts, AllWellFormed, AllEolFree, Carried, EolFree;
    if blocks != [] {
      var ls, rest := blocks[0], StreamLines(blocks[1..]);
      StreamIsPulled(blocks[1..]);
      BlockIsClean(ls);
      BlockMeans(ls);
      TextsLength(ls);
      BlankIsClean();
      hide Meaning, BlocksOf;
      FrameOnWire(Texts(ls), rest);
    }
  }

  lemma {:induction false} BlankIsClean()
    ensures EolFree("") && Carried("")
  {
  }

  lemma {:induction false} TextsLength(ls: seq<Line>)
    ensures |Texts(ls)| == |ls|
  {
  }

  lemma {:induction false} StreamIsPushed(blocks: seq<seq<Line>>)
    requires Printable(blocks)
    ensures Ts.LinesEffect(Ts.NO_FIELDS, StreamLines(blocks)) == Ts.Effect(Ts.NO_FIELDS, PushedAll(blocks))
  {
    hide Pushed, Texts, AllWellFormed, AllEolFree;
    if blocks != [] {
      var ls, rest := blocks[0], blocks[1..];
      StreamIsPushed(rest);
      BlockIsPushed(ls);
      Chain(Ts.NO_FIELDS, Texts(ls) + [""], Ts.NO_FIELDS, Pushed(ls), StreamLines(rest), Ts.NO_FIELDS, PushedAll(rest));
    }
  }

  /** The three bytes of an encoded byte order mark. */
  const MARK: string := ['\U{EF}', '\U{BB}', '\U{BF}']

  /**
   A stream of blocks, each ended by a blank line, after a byte order mark: the pull reader
   returns one event for each block and the push parser, wherever the chunks are cut as long as
   the first holds the mark, makes the callbacks of each block.
   */
  lemma {:induction false} MarkedStream(blocks: seq<seq<Line>>, chunks: seq<string>)
    requires Printable(blocks)
    requires chunks != [] && |chunks[0]| >= 3 && Concat(chunks) == MARK + Render(StreamLines(blocks))
    ensures Drain(UNTOUCHED, Head(Concat(chunks), false)) == Drained(PulledAll(blocks), ZERO_EVENT)
    ensures Ts.FeedAllEffect(Ts.FRESH, chunks) == Ts.Outcome(IDLE, PushedAll(blocks))
  {
    var text := Render(StreamLines(blocks));
    assert (MARK + text)[..3] == MARK == BOM && (MARK + text)[3..] == text;
    assert StripBom(MARK + text) == text;
    StreamIsRead(blocks, chunks);
  }

  /** The same without a mark in front. */
  lemma {:induction false} PlainStream(blocks: seq<seq<Line>>, chunks: seq<string>)
    requires Printable(blocks)
    requires chunks != [] && Concat(chunks) == Render(StreamLines(blocks))
    requires |Concat(chunks)| >= 3 ==> Concat(chunks)[..3] != MARK
    ensures Drain(UNTOUCHED, Head(Concat(chunks), false)) == Drained(PulledAll(blocks), ZERO_EVENT)
    ensures Ts.FeedAllEffect(Ts.FRESH, chunks) == Ts.Outcome(IDLE, PushedAll(blocks))
  {
    assert MARK == BOM;
    StreamIsRead(blocks, chunks);
  }

  lemma {:induction false} StreamIsRead(blocks: seq<seq<Line>>, chunks: seq<string>)
    requires Printable(blocks) && chunks != [] && !MarkSurvives(chunks)
    requires StripBom(Concat(chunks)) == Render(StreamLines(blocks))
    ensures Drain(UNTOUCHED, StripBom(Concat(chunks))) == Drained(PulledAll(blocks), ZERO_EVENT)
    ensures Ts.FeedAllEffect(Ts.FRESH, chunks) == Ts.Outcome(IDLE, PushedAll(blocks))
  {
    hide Ts.LinesEffect, Ts.LinesOf, Render, GoLines, StripBom;
    var lines := StreamLines(blocks);
    StreamIsPulled(blocks);
    RenderedLines(lines);
    StreamMeaning(Render(lines));
    StreamIsPushed(blocks);
    RenderedSplits(lines);
    ChunkInvariance(Ts.FRESH, chunks);
    assert "" + Render(lines) == Render(lines);
  }
}
