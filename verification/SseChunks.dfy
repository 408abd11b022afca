/**
 How the network cuts the stream does not matter to the push parser: the callbacks
 and the closure's variables depend on the text alone. The one exception is a byte
 order mark that the first chunk does not hold completely.
 */
module SseChunks {
  import opened Text
  import opened SseSyntax
  import opened SseParser
  import Decimal

  // ------------------------------------------------------------ invariance

  lemma {:induction false} TwoFeeds(s: State, a: string, b: string)
    requires !s.first
    ensures var o1 := FeedEffect(s, a);
            var o2 := FeedEffect(o1.state, b);
            FeedEffect(s, a + b) == Outcome(o2.state, o1.calls + o2.calls)
  {
    var la := LinesOf(s.incomplete + a);
    var lb := LinesOf(la.incomplete + b);
    LinesOfConcat(s.incomplete + a, b);
    assert s.incomplete + a + b == s.incomplete + (a + b);
    LinesEffectAppend(s.fields, la.complete, lb.complete);
  }

  /** Only a mark that is wholly inside the first chunk is stripped. */
  predicate MarkSurvives(chunks: seq<string>)
    requires chunks != []
  {
    StartsWith(Concat(chunks), BOM) && |chunks[0]| < |BOM|
  }

  lemma {:induction false} StripBomConcat(a: string, b: string)
    requires StartsWith(a + b, BOM) ==> |a| >= |BOM|
    ensures StripBom(a + b) == StripBom(a) + b
  {
    if |a| >= |BOM| {
      assert (a + b)[..|BOM|] == a[..|BOM|];
    } else {
      assert !StartsWith(a, BOM);
    }
    if StartsWith(a, BOM) {
      assert (a + b)[3..] == a[3..] + b;
    }
  }

  lemma {:induction false} FeedAllCons(s: State, chunk: string, rest: seq<string>)
    ensures var o1 := FeedEffect(s, chunk);
            var o2 := FeedAllEffect(o1.state, rest);
            FeedAllEffect(s, [chunk] + rest) == Outcome(o2.state, o1.calls + o2.calls)
    ensures Concat([chunk] + rest) == chunk + Concat(rest)
  {
    assert ([chunk] + rest)[1..] == rest;
  }

  lemma {:induction false} MergeFirstTwo(s: State, a: string, b: string, rest: seq<string>)
    requires s.first && StartsWith(a + b, BOM) ==> |a| >= |BOM|
    ensures Concat([a + b] + rest) == Concat([a] + ([b] + rest))
    ensures FeedAllEffect(s, [a + b] + rest) == FeedAllEffect(s, [a] + ([b] + rest))
  {
    var o1 := FeedEffect(s, a);
    var o2 := FeedEffect(o1.state, b);
    FeedAllCons(s, a + b, rest);
    FeedAllCons(s, a, [b] + rest);
    FeedAllCons(o1.state, b, rest);
    FirstTwoFeeds(s, a, b);
    AppendAssociates(o1.calls, o2.calls, FeedAllEffect(o2.state, rest).calls);
    AppendAssociates(a, b, Concat(rest));
  }

  lemma {:induction false} FirstTwoFeeds(s: State, a: string, b: string)
    requires s.first && StartsWith(a + b, BOM) ==> |a| >= |BOM|
    ensures var o1 := FeedEffect(s, a);
            var o2 := FeedEffect(o1.state, b);
            FeedEffect(s, a + b) == Outcome(o2.state, o1.calls + o2.calls)
  {
    var started := s.(first := false);
    if s.first {
      StripBomConcat(a, b);
      TwoFeeds(started, StripBom(a), b);
    } else {
      TwoFeeds(started, a, b);
    }
  }

  /** Feeding the chunks one by one is feeding their concatenation. */
  lemma {:induction false} ChunkInvariance(s: State, chunks: seq<string>)
    requires chunks != []
    requires s.first ==> !MarkSurvives(chunks)
    ensures FeedAllEffect(s, chunks) == FeedEffect(s, Concat(chunks))
    decreases |chunks|
  {
    if |chunks| == 1 {
      var o := FeedEffect(s, chunks[0]);
      assert Concat(chunks[1..]) == "";
      assert chunks[0] + "" == chunks[0] && o.calls + [] == o.calls;
      assert FeedAllEffect(o.state, chunks[1..]) == Outcome(o.state, []);
    } else {
      var a, b, rest := chunks[0], chunks[1], chunks[2..];
      assert chunks == [a] + ([b] + rest);
      FeedAllCons(s, a, [b] + rest);
      FeedAllCons(s, b, rest);
      if s.first && StartsWith(a + b, BOM) {
        assert Concat(chunks)[..|BOM|] == (a + b)[..|BOM|];
      }
      MergeFirstTwo(s, a, b, rest);
      ChunkInvariance(s, [a + b] + rest);
    }
  }

  // --------------------------------------------- the exact exception: a mark

  function LineErrors(line: string): seq<Callback> {
    Errors(LineEffect(NO_FIELDS, line).calls)
  }

  function Errors(calls: seq<Callback>): seq<Callback> {
    if calls == [] then []
    else ErrorIn(calls[0]) + Errors(calls[1..])
  }

  function ErrorIn(call: Callback): seq<Callback> {
    if call.OnError? then [call] else []
  }

  function AllLineErrors(lines: seq<string>): seq<Callback> {
    if lines == [] then [] else LineErrors(lines[0]) + AllLineErrors(lines[1..])
  }

  lemma {:induction false} ErrorsAppend(a: seq<Callback>, b: seq<Callback>)
    ensures Errors(a + b) == Errors(a) + Errors(b)
  {
    if a == [] {
      assert a + b == b;
    } else {
      ErrorsAppend(a[1..], b);
      assert (a + b)[0] == a[0] && (a + b)[1..] == a[1..] + b;
      FirstError(a);
      FirstError(a + b);
      hide Errors;
      AppendAssociates(ErrorIn(a[0]), Errors(a[1..]), Errors(b));
    }
  }

  lemma {:induction false} FirstError(calls: seq<Callback>)
    requires calls != []
    ensures Errors(calls) == ErrorIn(calls[0]) + Errors(calls[1..])
  {
  }

  lemma {:induction false} ErrorsOfOne(calls: seq<Callback>)
    requires |calls| <= 1
    ensures Errors(calls) == if calls != [] && calls[0].OnError? then calls else []
  {
    assert calls != [] ==> calls[1..] == [];
  }

  /** Whether a line is an error does not depend on what came before it. */
  lemma {:induction false} ErrorsAreLocal(f: Fields, lines: seq<string>)
    ensures Errors(LinesEffect(f, lines).calls) == AllLineErrors(lines)
    decreases |lines|
  {
    if lines != [] {
      var e := LineEffect(f, lines[0]);
      ErrorsAreLocal(e.fields, lines[1..]);
      ErrorsAppend(e.calls, LinesEffect(e.fields, lines[1..]).calls);
      LineErrorIsLocal(f, lines[0]);
      hide LineEffect, LineErrors, Errors;
    } else {
      assert Errors([]) == [];
    }
  }

  lemma {:induction false} LineErrorIsLocal(f: Fields, line: string)
    ensures Errors(LineEffect(f, line).calls) == LineErrors(line)
  {
    hide Errors, FieldName, FieldValue, CommentText, Decimal.AllDigits, Decimal.Value;
    ErrorsOfOne(LineEffect(f, line).calls);
    ErrorsOfOne(LineEffect(NO_FIELDS, line).calls);
  }

  lemma {:induction false} MarkedLineErrors(line: string)
    ensures LineErrors(BOM + line) == [OnError(UnknownField(FieldName(BOM + line), FieldValue(BOM + line), BOM + line))]
    ensures LineErrors(line) != LineErrors(BOM + line)
  {
    var marked := BOM + line;
    assert forall k :: 0 <= k < 3 ==> marked[k] == BOM[k] && BOM[k] != ':';
    var name, value := FieldName(marked), FieldValue(marked);
    assert IndexOf(marked, ':') >= 3 && name[0] == '\U{EF}';
    assert !IsComment(marked);
    UnknownName(NO_FIELDS, name, value, marked);
    ErrorsOfOne(LineEffect(NO_FIELDS, marked).calls);
    ErrorNamesLine(line);
    assert |marked| != |line|;
  }

  lemma {:induction false} UnknownName(f: Fields, name: string, value: string, line: string)
    requires name != "" && name[0] !in "edir"
    ensures FieldEffect(f, name, value, line) == Effect(f, [OnError(UnknownField(name, value, line))])
  {
    assert "event"[0] == 'e' && "data"[0] == 'd' && "id"[0] == 'i' && "retry"[0] == 'r';
  }

  /** An error quotes the line it comes from. */
  lemma {:induction false} ErrorNamesLine(line: string)
    ensures forall c :: c in LineErrors(line) ==> c.OnError? && c.error.line == line
  {
    hide Errors, FieldName, FieldValue, CommentText, Decimal.AllDigits, Decimal.Value;
    ErrorsOfOne(LineEffect(NO_FIELDS, line).calls);
  }

  lemma {:induction false} MarkedLines(text: string)
    ensures var plain, marked := LinesOf(text), LinesOf(BOM + text);
            if HasLine(text) then
              plain.complete != [] &&
              marked == Lines([BOM + plain.complete[0]] + plain.complete[1..], plain.incomplete)
            else marked == Lines([], BOM + text)
  {
    var marked := BOM + text;
    forall k | 0 <= k < 3 + EolIndex(text)
      ensures marked[k] != CR && marked[k] != LF
    {
      assert marked[k] == if k < 3 then BOM[k] else text[k - 3];
    }
    EolIndexUnique(marked, 3 + EolIndex(text));
    if HasLine(text) {
      assert marked[..EolIndex(marked)] == BOM + text[..EolIndex(text)];
      assert marked[NextLine(marked)..] == text[NextLine(text)..];
    }
  }

  /**
   The exact condition: for a fresh parser the chunking is unobservable if and only
   if the first chunk does not cut a leading byte order mark short.
   */
  lemma {:induction false} ChunkInvarianceExactly(chunks: seq<string>)
    requires chunks != []
    ensures FeedAllEffect(FRESH, chunks) == FeedEffect(FRESH, Concat(chunks)) <==> !MarkSurvives(chunks)
  {
    if !MarkSurvives(chunks) {
      ChunkInvariance(FRESH, chunks);
    } else {
      SurvivingMarkShows(chunks);
    }
  }

  lemma {:induction false} SurvivingMarkShows(chunks: seq<string>)
    requires chunks != [] && MarkSurvives(chunks)
    ensures FeedAllEffect(FRESH, chunks) != FeedEffect(FRESH, Concat(chunks))
  {
    var started := FRESH.(first := false);
    var text := Concat(chunks)[3..];
    assert Concat(chunks) == BOM + text;
    ChunkInvariance(started, chunks);
    assert FeedEffect(FRESH, chunks[0]) == FeedEffect(started, chunks[0]);
    assert FeedAllEffect(FRESH, chunks) == FeedEffect(started, BOM + text);
    assert StripBom(BOM + text) == text;
    assert FeedEffect(FRESH, BOM + text) == FeedEffect(started, text);
    MarkShows(text);
  }

  /** A mark that is not stripped changes what the stream means. */
  lemma {:induction false} MarkShows(text: string)
    ensures var started := FRESH.(first := false);
            FeedEffect(started, BOM + text) != FeedEffect(started, text)
  {
    hide HasLine, LinesOf, LinesEffect, StripBom, Errors, LineErrors, AllLineErrors;
    assert "" + (BOM + text) == BOM + text && "" + text == text;
    MarkedLines(text);
    if HasLine(text) {
      var plain, marked := LinesOf(text).complete, LinesOf(BOM + text).complete;
      ErrorsAreLocal(NO_FIELDS, plain);
      ErrorsAreLocal(NO_FIELDS, marked);
      MarkedErrors(plain, marked);
    } else {
      NoCompleteLine(text);
      assert |text| < |BOM + text|;
    }
  }

  lemma {:induction false} NoCompleteLine(text: string)
    requires !HasLine(text)
    ensures LinesOf(text) == Lines([], text)
  {
  }

  lemma {:induction false} MarkedErrors(plain: seq<string>, marked: seq<string>)
    requires plain != [] && marked == [BOM + plain[0]] + plain[1..]
    ensures AllLineErrors(plain) != AllLineErrors(marked)
  {
    hide LineErrors;
    MarkedLineErrors(plain[0]);
    assert marked[0] == BOM + plain[0] && marked[1..] == plain[1..];
    if AllLineErrors(plain) == AllLineErrors(marked) {
      SameSuffix(LineErrors(plain[0]), LineErrors(marked[0]), AllLineErrors(plain[1..]));
    }
  }

  lemma {:induction false} SameSuffix(a: seq<Callback>, b: seq<Callback>, c: seq<Callback>)
    requires a + c == b + c
    ensures a == b
  {
    assert |a| == |b|;
    assert a == (a + c)[..|a|] && b == (b + c)[..|b|];
  }

  // ------------------------------------------------- a connection that is cut

  /** A parser that has seen less of a stream has made a prefix of its callbacks. */
  lemma {:induction false} CutStream(a: string, b: string)
    requires StartsWith(a + b, BOM) ==> |a| >= |BOM|
    ensures FeedEffect(FRESH, a).calls <= FeedEffect(FRESH, a + b).calls
  {
    assert Concat([b]) == b + "" == b;
    assert [a, b][1..] == [b];
    assert Concat([a, b]) == a + b;
    ChunkInvariance(FRESH, [a, b]);
    var o := FeedEffect(FRESH, a);
    assert FeedAllEffect(FRESH, [a, b]).calls == o.calls + FeedAllEffect(o.state, [b]).calls;
  }

  // ----------------------------------------------------------- the end of input

  /** Leftover text never holds a complete line. */
  lemma {:induction false} LeftoverIsNoLine(text: string)
    ensures !HasLine(LinesOf(text).incomplete)
    decreases |text|
  {
    if HasLine(text) {
      LeftoverIsNoLine(text[NextLine(text)..]);
    }
  }

  /** A field line that keeps its meaning when a CR is put at its end: only the value changes, and nothing is reported. */
  predicate CrIsSilent(line: string) {
    ':' in line && FieldName(line) in ["event", "data", "id"]
  }

  /**
   A reset that consumes the leftover reports what a final line feed would have made of it,
   if and only if the leftover does not end in a CR or is a field that reports nothing. In
   every other case that CR ends up inside the line and shows.
   */
  lemma {:induction false} ConsumeIsALineEnd(f: Fields, rest: string)
    requires rest != "" && !HasLine(rest)
    ensures var s := State(rest, false, f);
            ResetEffect(s, true).calls == FeedEffect(s, [LF]).calls <==> (EndsWith(rest, CR) ==> CrIsSilent(rest))
  {
    hide LineEffect;
    var line := if EndsWith(rest, CR) then rest[..|rest| - 1] else rest;
    LineWithFeed(rest);
    var e := LineEffect(f, line);
    assert LinesEffect(f, [line]).calls == e.calls by {
      assert [line][1..] == [] && LinesEffect(e.fields, []) == Effect(e.fields, []);
      assert e.calls + [] == e.calls;
    }
    if EndsWith(rest, CR) {
      assert rest == line + [CR];
      CrShows(f, line);
    }
  }

  lemma {:induction false} LineWithFeed(rest: string)
    requires rest != "" && !HasLine(rest)
    ensures LinesOf(rest + [LF]) == Lines([if EndsWith(rest, CR) then rest[..|rest| - 1] else rest], "")
  {
    var text := rest + [LF];
    var i := if EndsWith(rest, CR) then |rest| - 1 else |rest|;
    EolIndexUnique(text, i);
    assert text[..i] == rest[..i] && text[NextLine(text)..] == "" && rest[..|rest|] == rest;
    NoCompleteLine("");
  }

  lemma {:induction false} FieldWithCr(line: string)
    requires ':' in line
    ensures FieldName(line + [CR]) == FieldName(line) && FieldValue(line + [CR]) == FieldValue(line) + [CR]
  {
    var i := IndexOf(line, ':');
    IndexOfUnique(line + [CR], ':', i);
    assert (line + [CR])[..i] == line[..i];
    assert (line + [CR])[i + 1..] == line[i + 1..] + [CR];
  }

  lemma {:induction false} NameWithCr(line: string)
    requires ':' !in line
    ensures FieldName(line + [CR]) == line + [CR] && FieldValue(line + [CR]) == ""
  {
    IndexOfAbsent(line + [CR], ':');
    assert (line + [CR])[..|line| + 1] == line + [CR];
  }

  lemma {:induction false} KnownNamesHaveNoCr(name: string)
    requires EndsWith(name, CR)
    ensures name !in ["event", "data", "id", "retry"]
  {
    assert "event"[4] == 't' && "data"[3] == 'a' && "id"[1] == 'd' && "retry"[4] == 'y';
  }

  lemma {:induction false} FieldCalls(f: Fields, field: string, value: string, line: string)
    ensures var calls := FieldEffect(f, field, value, line).calls;
            if field in ["event", "data", "id"] then calls == []
            else if field == "retry" && Decimal.AllDigits(value) then calls == [OnRetry(Decimal.Value(value))]
            else |calls| == 1 && calls[0].OnError? && calls[0].error.line == line
  {
    hide Decimal.Value, Decimal.AllDigits;
  }

  /** A CR at the end of a line changes what the line reports, except in a field that reports nothing. */
  lemma {:induction false} CrShows(f: Fields, line: string)
    ensures LineEffect(f, line + [CR]).calls == LineEffect(f, line).calls <==> CrIsSilent(line + [CR])
  {
    hide FieldEffect, FieldName, FieldValue, Decimal.Value;
    var marked := line + [CR];
    assert |marked| != |line|;
    FieldCalls(f, FieldName(marked), FieldValue(marked), marked);
    FieldCalls(f, FieldName(line), FieldValue(line), line);
    if IsComment(marked) {
      CommentWithCr(line);
    } else if ':' in line {
      FieldWithCr(line);
      NoDigits(FieldValue(line));
    } else {
      NameWithCr(line);
      KnownNamesHaveNoCr(marked);
    }
  }

  lemma {:induction false} NoDigits(value: string)
    ensures !Decimal.AllDigits(value + [CR])
  {
    var marked := value + [CR];
    assert marked[|value|] in marked && !Decimal.IsDigit(marked[|value|]);
  }

  lemma {:induction false} CommentWithCr(line: string)
    requires IsComment(line + [CR])
    ensures IsComment(line) && CommentText(line + [CR]) == CommentText(line) + [CR]
    ensures FieldName(line + [CR]) == ""
  {
    assert (line + [CR])[0] == line[0] && (line + [CR])[1..] == line[1..] + [CR];
    IndexOfUnique(line + [CR], ':', 0);
  }

  /** After a reset the parser is as good as new, and without `consume` nothing is reported. */
  lemma {:induction false} ResetStartsOver(s: State, consume: bool, chunks: seq<string>)
    ensures FeedAllEffect(ResetEffect(s, consume).state, chunks) == FeedAllEffect(FRESH, chunks)
    ensures !consume || s.incomplete == "" ==> ResetEffect(s, consume).calls == []
  {
  }
}
