/**
 The Go pull parser: a buffered reader and a flag, read one event at a time
 (http/sse_reader.go).
 */
module SseReader {
  import opened Wrappers
  import opened Text
  import opened SseSyntax
  import opened Decimal

  datatype ReadEvent = ReadEvent(event: string, data: string, id: string, retry: GoInt, comment: string)

  const ZERO_EVENT := ReadEvent("", "", "", 0, "")

  /** Why the underlying reader has no more bytes; it keeps saying so. */
  datatype ReadError = Eof | Failed(message: string)

  datatype ReadState = ReadState(
    event: string, dataLines: seq<string>, id: string, retry: GoInt, comment: string, touched: bool)
  {
    function Finish(): ReadEvent {
      ReadEvent(event, Join(dataLines), id, retry, comment)
    }
  }

  const UNTOUCHED := ReadState("", [], "", 0, "", false)

  // ------------------------------------------------------ one line's meaning

  function RetryOf(value: string): Option<GoInt> {
    if AllDigits(value) then Atoi(value) else None
  }

  function FieldOf(line: string, name: string): Option<string> {
    if !IsComment(line) && FieldName(line) == name then Some(FieldValue(line)) else None
  }

  function EventLine(line: string): Option<string> { FieldOf(line, "event") }

  function DataLine(line: string): Option<string> { FieldOf(line, "data") }

  function IdLine(line: string): Option<string> {
    match FieldOf(line, "id")
    case Some(v) => if NUL in v then None else Some(v)
    case None => None
  }

  function RetryLine(line: string): Option<GoInt> {
    match FieldOf(line, "retry")
    case Some(v) => RetryOf(v)
    case None => None
  }

  function CommentLine(line: string): Option<string> {
    if IsComment(line) then Some(CommentText(line)) else None
  }

  /** What a non-blank line adds to the event being read. */
  function Absorb(st: ReadState, line: string): ReadState {
    ReadState(EventLine(line).GetOr(st.event),
              st.dataLines + if DataLine(line).Some? then [DataLine(line).value] else [],
              IdLine(line).GetOr(st.id),
              RetryLine(line).GetOr(st.retry),
              CommentLine(line).GetOr(st.comment),
              true)
  }

  // --------------------------------------------------------- one call's effect

  /** The raw first line with its line feed, or all that is left. */
  function RawLine(input: string): (line: string)
    ensures line <= input && (input != "" ==> line != "")
  {
    var i := IndexOf(input, LF);
    if i == |input| then input else input[..i + 1]
  }

  datatype Read = Read(event: ReadEvent, failed: bool, rest: string)

  /** What `ReadEvent` returns and leaves when it has come to `input` with `st`. */
  function ReadFrom(st: ReadState, input: string): (r: Read)
    ensures r.failed ==> r.rest == ""
    ensures !r.failed ==> |r.rest| < |input|
    decreases |input|
  {
    if input == "" then Read(if st.touched then st.Finish() else ZERO_EVENT, true, "")
    else
      var raw := RawLine(input);
      var rest := input[|raw|..];
      var line := TrimEol(raw);
      if line != "" then ReadFrom(Absorb(st, line), rest)
      else if st.touched then Read(st.Finish(), false, rest)
      else ReadFrom(st, rest)
  }

  lemma {:induction false} ReadOneLine(st: ReadState, input: string, raw: string, line: string)
    requires input != "" && raw == RawLine(input) && line == TrimEol(raw)
    ensures var rest := input[|raw|..];
            ReadFrom(st, input) ==
            if line != "" then ReadFrom(Absorb(st, line), rest)
            else if st.touched then Read(st.Finish(), false, rest)
            else ReadFrom(st, rest)
  {
  }

  lemma {:induction false} ReadNothing(st: ReadState)
    ensures ReadFrom(st, "") == Read(if st.touched then st.Finish() else ZERO_EVENT, true, "")
  {
  }

  function Head(input: string, bomDone: bool): string {
    if bomDone then input else StripBom(input)
  }

  method IsAllDigits(s: string) returns (b: bool)
    ensures b == AllDigits(s)
  {
    if s == "" {
      return false;
    }
    for i := 0 to |s|
      invariant forall k :: 0 <= k < i ==> IsDigit(s[k])
    {
      if s[i] < '0' || s[i] > '9' {
        assert s[i] in s;
        return false;
      }
    }
    return true;
  }

  /** The part of `ReadEvent` that keeps a comment. */
  method AbsorbComment(st: ReadState, line: string) returns (ev: ReadState)
    requires IsComment(line)
    ensures ev == Absorb(st, line) && ev.touched
  {
    var text := line[1..];
    if |text| > 0 && text[0] == ' ' {
      text := text[1..];
    }
    ev := st.(comment := text, touched := true);
  }

  lemma {:induction false} AbsorbByName(st: ReadState, line: string, field: string, value: string)
    requires !IsComment(line) && field == FieldName(line) && value == FieldValue(line)
    ensures var touched := st.(touched := true);
            Absorb(st, line) ==
            if field == "event" then touched.(event := value)
            else if field == "data" then touched.(dataLines := st.dataLines + [value])
            else if field == "id" then (if NUL in value then touched else touched.(id := value))
            else if field == "retry" then touched.(retry := RetryOf(value).GetOr(st.retry))
            else touched
  {
    assert "event"[0] != "retry"[0];
    assert st.dataLines + [] == st.dataLines;
  }

  /** The part of `ReadEvent` that parses and applies one field. */
  method AbsorbField(st: ReadState, line: string) returns (ev: ReadState)
    requires line != "" && !IsComment(line)
    ensures ev == Absorb(st, line) && ev.touched
  {
    var field, value := line, "";
    var i := IndexOf(line, ':');
    if i < |line| {
      field := line[..i];
      value := line[i + 1..];
      if |value| > 0 && value[0] == ' ' {
        value := value[1..];
      }
    }
    assert line[..|line|] == line;
    AbsorbByName(st, line, field, value);
    ev := st.(touched := true);
    match field
    case "event" =>
      ev := ev.(event := value);
    case "data" =>
      ev := ev.(dataLines := ev.dataLines + [value]);
    case "id" =>
      if NUL !in value {
        ev := ev.(id := value);
      }
    case "retry" =>
      var n := Atoi(value);
      var digits := IsAllDigits(value);
      if n.Some? && n.value >= 0 && digits {
        ev := ev.(retry := n.value);
      }
    case _ =>
  }

  class SSEEventReader {
    /** What the underlying reader has yet to deliver, and why it ends there. */
    var input: string
    const failure: ReadError
    var bomDone: bool

    constructor (input: string, failure: ReadError)
      ensures this.input == input && this.failure == failure && !bomDone
    {
      this.input, this.failure, bomDone := input, failure, false;
    }

    /** `bufio.Reader.ReadString('\n')`. */
    method ReadString() returns (line: string, err: Option<ReadError>)
      modifies `input
      ensures line == RawLine(old(input)) && input == old(input)[|line|..]
      ensures err == if EndsWith(line, LF) then None else Some(failure)
      ensures err.Some? ==> input == ""
    {
      line := RawLine(input);
      input := input[|line|..];
      err := if EndsWith(line, LF) then None else Some(failure);
    }

    method ReadEvent() returns (event: ReadEvent, err: Option<ReadError>)
      modifies this
      ensures bomDone
      ensures var r := ReadFrom(UNTOUCHED, Head(old(input), old(bomDone)));
              event == r.event && input == r.rest && err == if r.failed then Some(failure) else None
    {
      if !bomDone {
        bomDone := true;
        if |input| >= 3 && input[..3] == BOM {
          input := input[3..];
        }
      }
      var ev := UNTOUCHED;
      ghost var all := ReadFrom(UNTOUCHED, input);
      while true
        invariant bomDone
        invariant ReadFrom(ev, input) == all
        decreases |input|
      {
        ghost var before := input;
        var raw, readErr := ReadString();
        if raw == "" && readErr.Some? {
          ReadNothing(ev);
          if ev.touched {
            return ev.Finish(), readErr;
          }
          return ZERO_EVENT, readErr;
        }
        var line := TrimEol(raw);
        ReadOneLine(ev, before, raw, line);
        if line == "" {
          if ev.touched {
            return ev.Finish(), None;
          }
          continue;
        }
        if line[0] == ':' {
          ev := AbsorbComment(ev, line);
          continue;
        }
        ev := AbsorbField(ev, line);
        // A field has just been absorbed, so the code's other branch here cannot be taken.
        if readErr.Some? {
          ReadNothing(ev);
          return ev.Finish(), readErr;
        }
      }
    }
  }
}
