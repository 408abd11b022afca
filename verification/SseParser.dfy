/**
 The TypeScript push parser: a closure over five variables, fed arbitrary chunks
 (clients/typescript/src/sse-parser.ts).
 */
module SseParser {
  import opened Wrappers
  import opened Text
  import opened SseSyntax
  import Decimal

  datatype ParseError =
    | InvalidRetry(value: string, line: string)
    | UnknownField(field: string, value: string, line: string)

  /** One invocation of one of the four callbacks. */
  datatype Callback =
    | OnEvent(id: Option<string>, event: Option<string>, data: string)
    | OnRetry(ms: nat)
    | OnComment(text: string)
    | OnError(error: ParseError)

  /** The event being accumulated. */
  datatype Fields = Fields(id: Option<string>, data: string, eventType: string)

  const NO_FIELDS := Fields(None, "", "")

  /** The closure's variables. */
  datatype State = State(incomplete: string, first: bool, fields: Fields)

  const FRESH := State("", true, NO_FIELDS)

  // ---------------------------------------------------------------- lines

  datatype Lines = Lines(complete: seq<string>, incomplete: string)

  /** First CR or LF, or `|s|`. */
  function EolIndex(s: string): (i: nat)
    ensures i <= |s|
    ensures forall k :: 0 <= k < i ==> s[k] != CR && s[k] != LF
    ensures i < |s| ==> s[i] == CR || s[i] == LF
  {
    if s == "" || s[0] == CR || s[0] == LF then 0 else 1 + EolIndex(s[1..])
  }

  lemma {:induction false} EolIndexUnique(s: string, i: nat)
    requires i <= |s| && forall k :: 0 <= k < i ==> s[k] != CR && s[k] != LF
    requires i < |s| ==> s[i] == CR || s[i] == LF
    ensures EolIndex(s) == i
  {
    var j := EolIndex(s);
  }

  /** Whether the first line of `s` is known to be complete. */
  predicate HasLine(s: string) {
    var i := EolIndex(s);
    i < |s| && (s[i] == CR ==> i < |s| - 1)
  }

  /** Where the second line of `s` starts. */
  function NextLine(s: string): (n: nat)
    requires HasLine(s)
    ensures EolIndex(s) < n <= |s|
  {
    var i := EolIndex(s);
    if s[i] == CR && s[i + 1] == LF then i + 2 else i + 1
  }

  /**
   The complete lines of `s` and what is left. CR, LF and CRLF each end a line;
   a CR at the very end is left over, for an LF may follow it.
   */
  function LinesOf(s: string): (r: Lines)
    decreases |s|
  {
    if !HasLine(s) then Lines([], s)
    else
      Prepend([s[..EolIndex(s)]], LinesOf(s[NextLine(s)..]))
  }

  /** `chunk.indexOf(c, from)`. */
  function IndexFrom(s: string, c: char, from: nat): (i: int)
    requires from <= |s|
    ensures i == -1 || from <= i < |s|
    ensures i == -1 ==> forall k :: from <= k < |s| ==> s[k] != c
    ensures i != -1 ==> s[i] == c && forall k :: from <= k < i ==> s[k] != c
  {
    var i := IndexOf(s[from..], c);
    if from + i == |s| then -1 else from + i
  }

  method SplitLines(chunk: string) returns (lines: seq<string>, incompleteLine: string)
    ensures Lines(lines, incompleteLine) == LinesOf(chunk)
  {
    lines, incompleteLine := [], "";
    var searchIndex := 0;
    while searchIndex < |chunk|
      invariant searchIndex <= |chunk|
      invariant LinesOf(chunk) == Prepend(lines, LinesOf(chunk[searchIndex..]))
      invariant incompleteLine == ""
    {
      var crIndex := IndexFrom(chunk, CR, searchIndex);
      var lfIndex := IndexFrom(chunk, LF, searchIndex);
      var lineEnd := -1;
      if crIndex != -1 && lfIndex != -1 {
        lineEnd := if crIndex < lfIndex then crIndex else lfIndex;
      } else if crIndex != -1 {
        if crIndex != |chunk| - 1 {
          lineEnd := crIndex;
        }
      } else if lfIndex != -1 {
        lineEnd := lfIndex;
      }
      if lineEnd == -1 {
        incompleteLine := chunk[searchIndex..];
        NoLine(chunk, searchIndex);
        return;
      }
      ghost var start, before := searchIndex, lines;
      var line := chunk[searchIndex..lineEnd];
      lines := lines + [line];
      searchIndex := lineEnd + 1;
      if chunk[searchIndex - 1] == CR && searchIndex < |chunk| && chunk[searchIndex] == LF {
        searchIndex := searchIndex + 1;
      }
      OneLine(chunk, start, lineEnd, searchIndex, before);
    }
  }

  /** No line is known to be complete when there is no LF, and no CR but possibly the last character. */
  lemma {:induction false} NoLine(s: string, start: nat)
    requires start <= |s|
    requires forall k :: start <= k < |s| ==> s[k] != LF && (s[k] == CR ==> k == |s| - 1)
    ensures LinesOf(s[start..]) == Lines([], s[start..])
  {
  }

  /** One round of the loop: the line from `start` to `end` comes after the lines before it. */
  lemma {:induction false} OneLine(s: string, start: nat, end: nat, next: nat, before: seq<string>)
    requires start <= end < next <= |s|
    requires forall k :: start <= k < end ==> s[k] != CR && s[k] != LF
    requires s[end] == LF || (s[end] == CR && end < |s| - 1)
    requires next == if s[end] == CR && s[end + 1] == LF then end + 2 else end + 1
    ensures Prepend(before, LinesOf(s[start..])) == Prepend(before + [s[start..end]], LinesOf(s[next..]))
  {
    var tail := s[start..];
    EolIndexUnique(tail, end - start);
    assert HasLine(tail) && tail[..EolIndex(tail)] == s[start..end];
    assert tail[NextLine(tail)..] == s[next..];
    PrependPrepend(before, [s[start..end]], LinesOf(s[next..]));
  }

  lemma {:induction false} PrependPrepend(a: seq<string>, b: seq<string>, rest: Lines)
    ensures Prepend(a, Prepend(b, rest)) == Prepend(a + b, rest)
  {
    assert a + (b + rest.complete) == a + b + rest.complete;
  }

  function Prepend(lines: seq<string>, rest: Lines): Lines {
    Lines(lines + rest.complete, rest.incomplete)
  }

  /**
   Splitting commutes with chunking: cut the text anywhere, even between CR and LF,
   split the first part, and carry what is left over in front of the second.
   */
  lemma {:induction false} LinesOfConcat(a: string, b: string)
    ensures var la := LinesOf(a);
            LinesOf(a + b) == Prepend(la.complete, LinesOf(la.incomplete + b))
    decreases |a|
  {
    if !HasLine(a) {
      assert [] + LinesOf(a + b).complete == LinesOf(a + b).complete;
    } else {
      FirstLineConcat(a, b);
      var first, rest := a[..EolIndex(a)], a[NextLine(a)..];
      LinesOfConcat(rest, b);
      PrependPrepend([first], LinesOf(rest).complete, LinesOf(LinesOf(rest).incomplete + b));
    }
  }

  /** More text after a complete line does not change that line. */
  lemma {:induction false} FirstLineConcat(a: string, b: string)
    requires HasLine(a)
    ensures HasLine(a + b)
    ensures (a + b)[..EolIndex(a + b)] == a[..EolIndex(a)]
    ensures (a + b)[NextLine(a + b)..] == a[NextLine(a)..] + b
  {
    EolIndexUnique(a + b, EolIndex(a));
  }

  // ------------------------------------------------------- interpretation

  /** What `dispatchEvent` reports. */
  function Dispatched(f: Fields): seq<Callback> {
    if f.data == "" then []
    else
      var event := if f.eventType == "" then None else Some(f.eventType);
      [OnEvent(f.id, event, if EndsWith(f.data, LF) then f.data[..|f.data| - 1] else f.data)]
  }

  /** The accumulated event after some lines, and what they reported. */
  datatype Effect = Effect(fields: Fields, calls: seq<Callback>)

  function LineEffect(f: Fields, line: string): Effect {
    if line == "" then Effect(NO_FIELDS, Dispatched(f))
    else if IsComment(line) then Effect(f, [OnComment(CommentText(line))])
    else FieldEffect(f, FieldName(line), FieldValue(line), line)
  }

  function FieldEffect(f: Fields, field: string, value: string, line: string): Effect {
    match field
    case "event" => Effect(f.(eventType := value), [])
    case "data" => Effect(f.(data := f.data + value + [LF]), [])
    case "id" => Effect(f.(id := if NUL in value then None else Some(value)), [])
    case "retry" =>
      Effect(f, [if Decimal.AllDigits(value) then OnRetry(Decimal.Value(value))
                 else OnError(InvalidRetry(value, line))])
    case _ => Effect(f, [OnError(UnknownField(field, value, line))])
  }

  /** `rest`, with `calls` made first. */
  function After(calls: seq<Callback>, rest: Effect): Effect {
    Effect(rest.fields, calls + rest.calls)
  }

  lemma {:induction false} AfterAfter(a: seq<Callback>, b: seq<Callback>, rest: Effect)
    ensures After(a, After(b, rest)) == After(a + b, rest)
  {
    assert a + (b + rest.calls) == a + b + rest.calls;
  }

  function LinesEffect(f: Fields, lines: seq<string>): Effect
    decreases |lines|
  {
    if lines == [] then Effect(f, [])
    else
      var e := LineEffect(f, lines[0]);
      After(e.calls, LinesEffect(e.fields, lines[1..]))
  }

  lemma {:induction false} LinesEffectAppend(f: Fields, a: seq<string>, b: seq<string>)
    ensures var e := LinesEffect(f, a);
            LinesEffect(f, a + b) == After(e.calls, LinesEffect(e.fields, b))
    decreases |a|
  {
    if a == [] {
      assert a + b == b;
      assert [] + LinesEffect(f, b).calls == LinesEffect(f, b).calls;
    } else {
      var first := LineEffect(f, a[0]);
      var rest := LinesEffect(first.fields, a[1..]);
      LinesEffectAppend(first.fields, a[1..], b);
      AfterAfter(first.calls, rest.calls, LinesEffect(rest.fields, b));
      assert (a + b)[0] == a[0] && (a + b)[1..] == a[1..] + b;
    }
  }

  lemma {:induction false} LinesEffectSnoc(f: Fields, lines: seq<string>, i: nat, before: seq<Callback>)
    requires i < |lines|
    ensures var e := LinesEffect(f, lines[..i]);
            var next := LineEffect(e.fields, lines[i]);
            var all := LinesEffect(f, lines[..i + 1]);
            all.fields == next.fields && before + all.calls == before + e.calls + next.calls
  {
    LinesEffectAppend(f, lines[..i], [lines[i]]);
    assert lines[..i] + [lines[i]] == lines[..i + 1];
    var e := LinesEffect(f, lines[..i]);
    var next := LineEffect(e.fields, lines[i]);
    assert [lines[i]][1..] == [] && next.calls + [] == next.calls;
    assert before + (e.calls + next.calls) == before + e.calls + next.calls;
  }

  /** The closure's variables after some chunks, and what they reported. */
  datatype Outcome = Outcome(state: State, calls: seq<Callback>)

  function FeedEffect(s: State, chunk: string): Outcome {
    var ls := LinesOf(s.incomplete + if s.first then StripBom(chunk) else chunk);
    var e := LinesEffect(s.fields, ls.complete);
    Outcome(State(ls.incomplete, false, e.fields), e.calls)
  }

  function FeedAllEffect(s: State, chunks: seq<string>): Outcome
    decreases |chunks|
  {
    if chunks == [] then Outcome(s, [])
    else
      var o1 := FeedEffect(s, chunks[0]);
      var o2 := FeedAllEffect(o1.state, chunks[1..]);
      Outcome(o2.state, o1.calls + o2.calls)
  }

  function ResetEffect(s: State, consume: bool): Outcome {
    Outcome(FRESH, if s.incomplete != "" && consume then LineEffect(s.fields, s.incomplete).calls else [])
  }

  // --------------------------------------------------------- the closure

  /** What `createParser` returns, with the callbacks it has invoked so far. */
  class EventSourceParser {
    var incompleteLine: string
    var isFirstChunk: bool
    var id: Option<string>
    var data: string
    var eventType: string
    var calls: seq<Callback>

    function Accumulated(): Fields
      reads this
    {
      Fields(id, data, eventType)
    }

    function Snapshot(): State
      reads this
    {
      State(incompleteLine, isFirstChunk, Accumulated())
    }

    constructor ()
      ensures Snapshot() == FRESH && calls == []
    {
      incompleteLine, isFirstChunk := "", true;
      id, data, eventType := None, "", "";
      calls := [];
    }

    method Feed(newChunk: string)
      modifies this
      ensures Snapshot() == FeedEffect(old(Snapshot()), newChunk).state
      ensures calls == old(calls) + FeedEffect(old(Snapshot()), newChunk).calls
    {
      var chunk := if isFirstChunk then StripBom(newChunk) else newChunk;
      var complete, incomplete := SplitLines(incompleteLine + chunk);
      ghost var start := Accumulated();
      for i := 0 to |complete|
        invariant incompleteLine == old(incompleteLine) && isFirstChunk == old(isFirstChunk)
        invariant Accumulated() == LinesEffect(start, complete[..i]).fields
        invariant calls == old(calls) + LinesEffect(start, complete[..i]).calls
      {
        ParseLine(complete[i]);
        LinesEffectSnoc(start, complete, i, old(calls));
      }
      assert complete[..|complete|] == complete;
      incompleteLine := incomplete;
      isFirstChunk := false;
    }

    method ParseLine(line: string)
      modifies `id, `data, `eventType, `calls
      ensures Accumulated() == LineEffect(old(Accumulated()), line).fields
      ensures calls == old(calls) + LineEffect(old(Accumulated()), line).calls
    {
      if line == "" {
        DispatchEvent();
        return;
      }
      if StartsWith(line, ":") {
        calls := calls + [OnComment(line[if StartsWith(line, ": ") then 2 else 1..])];
        return;
      }
      var fieldSeparatorIndex := IndexFrom(line, ':', 0);
      assert line[0..] == line;
      if fieldSeparatorIndex != -1 {
        var field := line[..fieldSeparatorIndex];
        var offset := if fieldSeparatorIndex + 1 < |line| && line[fieldSeparatorIndex + 1] == ' '
                      then 2 else 1;
        var value := line[fieldSeparatorIndex + offset..];
        ProcessField(field, value, line);
        return;
      }
      assert line[..|line|] == line;
      ProcessField(line, "", line);
    }

    method ProcessField(field: string, value: string, line: string)
      modifies `id, `data, `eventType, `calls
      ensures Accumulated() == FieldEffect(old(Accumulated()), field, value, line).fields
      ensures calls == old(calls) + FieldEffect(old(Accumulated()), field, value, line).calls
    {
      match field
      case "event" =>
        eventType := value;
      case "data" =>
        data := data + value + [LF];
      case "id" =>
        id := if NUL in value then None else Some(value);
      case "retry" =>
        if Decimal.AllDigits(value) {
          calls := calls + [OnRetry(Decimal.Value(value))];
        } else {
          calls := calls + [OnError(InvalidRetry(value, line))];
        }
      case _ =>
        calls := calls + [OnError(UnknownField(field, value, line))];
    }

    method DispatchEvent()
      modifies `id, `data, `eventType, `calls
      ensures Accumulated() == NO_FIELDS
      ensures calls == old(calls) + Dispatched(old(Accumulated()))
    {
      var shouldDispatch := |data| > 0;
      if shouldDispatch {
        var event := if eventType == "" then None else Some(eventType);
        calls := calls + [OnEvent(id, event, if EndsWith(data, LF) then data[..|data| - 1] else data)];
      }
      id, data, eventType := None, "", "";
    }

    method Reset(consume: bool)
      modifies this
      ensures Snapshot() == ResetEffect(old(Snapshot()), consume).state
      ensures calls == old(calls) + ResetEffect(old(Snapshot()), consume).calls
    {
      if incompleteLine != "" && consume {
        ParseLine(incompleteLine);
      }
      isFirstChunk := true;
      id, data, eventType := None, "", "";
      incompleteLine := "";
    }
  }
}
