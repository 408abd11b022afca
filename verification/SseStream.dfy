/**
 The Go reader over a whole stream: what repeated calls of `ReadEvent` return,
 said without the loop. A stream is a list of lines; the non-blank lines between two
 blank ones form a block; a block means its last event, id, retry and comment line
 and all its data lines.
 */
module SseStream {
  import opened Wrappers
  import opened Text
  import opened SseSyntax
  import opened Decimal
  import opened SseReader

  // ------------------------------------------------------- lines and blocks

  /** The lines of a stream, each without its line feed and the CRs before it. */
  function GoLines(input: string): seq<string>
    decreases |input|
  {
    if input == "" then []
    else
      var raw := RawLine(input);
      [TrimEol(raw)] + GoLines(input[|raw|..])
  }

  datatype Blocks = Blocks(closed: seq<seq<string>>, open: seq<string>)

  /** The blocks of `run + lines`, where `run` is the block being collected. */
  function BlocksOf(run: seq<string>, lines: seq<string>): Blocks
    decreases |lines|
  {
    if lines == [] then Blocks([], run)
    else if lines[0] != "" then BlocksOf(run + [lines[0]], lines[1..])
    else if run == [] then BlocksOf([], lines[1..])
    else
      var later := BlocksOf([], lines[1..]);
      Blocks([run] + later.closed, later.open)
  }

  predicate NonBlank(lines: seq<string>) {
    forall k :: 0 <= k < |lines| ==> lines[k] != ""
  }

  function WithoutBlanks(lines: seq<string>): seq<string> {
    if lines == [] then []
    else (if lines[0] == "" then [] else [lines[0]]) + WithoutBlanks(lines[1..])
  }

  function Flatten(blocks: seq<seq<string>>): seq<string> {
    if blocks == [] then [] else blocks[0] + Flatten(blocks[1..])
  }

  /** Blocks are non-empty runs of non-blank lines, and hold every such line once, in order. */
  lemma {:induction false} BlocksKeepLines(run: seq<string>, lines: seq<string>)
    requires NonBlank(run)
    ensures var b := BlocksOf(run, lines);
            && Flatten(b.closed) + b.open == run + WithoutBlanks(lines)
            && (forall k :: 0 <= k < |b.closed| ==> b.closed[k] != [] && NonBlank(b.closed[k]))
            && NonBlank(b.open)
    decreases |lines|
  {
    if lines == [] {
    } else if lines[0] != "" {
      BlocksKeepLines(run + [lines[0]], lines[1..]);
      assert run + [lines[0]] + WithoutBlanks(lines[1..]) == run + ([lines[0]] + WithoutBlanks(lines[1..]));
    } else {
      BlocksKeepLines([], lines[1..]);
      var later := BlocksOf([], lines[1..]);
      assert run + (Flatten(later.closed) + later.open) == run + Flatten(later.closed) + later.open;
    }
  }

  // ------------------------------------------------------ a block's meaning

  /** The value of the last line that `pick` accepts. */
  function LastOf<T>(lines: seq<string>, pick: string -> Option<T>, default: T): (r: T)
    ensures (r == default && forall k :: 0 <= k < |lines| ==> pick(lines[k]).None?) ||
            (exists k :: 0 <= k < |lines| && pick(lines[k]) == Some(r) &&
              forall j :: k < j < |lines| ==> pick(lines[j]).None?)
  {
    if lines == [] then default
    else
      var last := |lines| - 1;
      match pick(lines[last])
      case Some(v) => v
      case None =>
        var r := LastOf(lines[..last], pick, default);
        assert forall k :: 0 <= k < last ==> lines[..last][k] == lines[k];
        r
  }

  /** The values of all lines that `pick` accepts, in order. */
  function AllOf<T>(lines: seq<string>, pick: string -> Option<T>): seq<T> {
    if lines == [] then []
    else
      var last := |lines| - 1;
      AllOf(lines[..last], pick) +
      match pick(lines[last])
      case Some(v) => [v]
      case None => []
  }

  function Accumulated(block: seq<string>): ReadState {
    ReadState(LastOf(block, EventLine, ""), AllOf(block, DataLine), LastOf(block, IdLine, ""),
              LastOf(block, RetryLine, 0), LastOf(block, CommentLine, ""), block != [])
  }

  /** The event a block stands for. */
  function Interpret(block: seq<string>): ReadEvent {
    ReadEvent(LastOf(block, EventLine, ""), Join(AllOf(block, DataLine)), LastOf(block, IdLine, ""),
              LastOf(block, RetryLine, 0), LastOf(block, CommentLine, ""))
  }

  function InterpretAll(blocks: seq<seq<string>>): seq<ReadEvent> {
    if blocks == [] then [] else [Interpret(blocks[0])] + InterpretAll(blocks[1..])
  }

  lemma {:induction false} LastOfSnoc<T>(lines: seq<string>, line: string, pick: string -> Option<T>, default: T)
    ensures LastOf(lines + [line], pick, default) == pick(line).GetOr(LastOf(lines, pick, default))
  {
    assert (lines + [line])[..|lines|] == lines;
  }

  lemma {:induction false} AllOfSnoc<T>(lines: seq<string>, line: string, pick: string -> Option<T>)
    ensures AllOf(lines + [line], pick) ==
            AllOf(lines, pick) + if pick(line).Some? then [pick(line).value] else []
  {
    assert (lines + [line])[..|lines|] == lines;
  }

  lemma {:induction false} AbsorbAccumulates(block: seq<string>, line: string)
    ensures Absorb(Accumulated(block), line) == Accumulated(block + [line])
  {
    LastOfSnoc(block, line, EventLine, "");
    AllOfSnoc(block, line, DataLine);
    LastOfSnoc(block, line, IdLine, "");
    LastOfSnoc(block, line, RetryLine, 0);
    LastOfSnoc(block, line, CommentLine, "");
  }

  // ------------------------------------------------------- repeated calls

  /** What calling `ReadEvent` until it fails returns: the events without error, then the last one. */
  datatype Drained = Drained(events: seq<ReadEvent>, last: ReadEvent)

  function Drain(st: ReadState, input: string): Drained
    decreases |input|
  {
    var r := ReadFrom(st, input);
    if r.failed then Drained([], r.event)
    else
      Before([r.event], Drain(UNTOUCHED, r.rest))
  }

  function Before(events: seq<ReadEvent>, later: Drained): Drained {
    Drained(events + later.events, later.last)
  }

  lemma {:induction false} BeforeBefore(a: seq<ReadEvent>, b: seq<ReadEvent>, later: Drained)
    ensures Before(a, Before(b, later)) == Before(a + b, later)
  {
    assert a + (b + later.events) == a + b + later.events;
  }

  /** What the blocks say those calls return. */
  function Meaning(b: Blocks): Drained {
    Drained(InterpretAll(b.closed), if b.open == [] then ZERO_EVENT else Interpret(b.open))
  }

  lemma {:induction false} DrainMeansBlocks(run: seq<string>, input: string)
    ensures Drain(Accumulated(run), input) == Meaning(BlocksOf(run, GoLines(input)))
    decreases |input|
  {
    var st := Accumulated(run);
    if input == "" {
      ReadNothing(st);
    } else {
      var raw := RawLine(input);
      var line, rest := TrimEol(raw), input[|raw|..];
      var lines := GoLines(input);
      assert lines[0] == line && lines[1..] == GoLines(rest);
      ReadOneLine(st, input, raw, line);
      if line != "" {
        AbsorbAccumulates(run, line);
        DrainMeansBlocks(run + [line], rest);
      } else {
        DrainMeansBlocks([], rest);
        assert Accumulated([]) == UNTOUCHED;
      }
    }
  }

  /**
   Repeated `ReadEvent` calls return exactly one event for each closed block, then an
   error, with the event of the block that no blank line has closed, if there is one.
   */
  lemma {:induction false} StreamMeaning(input: string)
    ensures Drain(UNTOUCHED, input) == Meaning(BlocksOf([], GoLines(input)))
  {
    DrainMeansBlocks([], input);
    assert Accumulated([]) == UNTOUCHED;
  }

  lemma {:induction false} SuffixOfSuffix(s: string, i: nat, j: nat)
    requires i + j <= |s|
    ensures s[i..][j..] == s[i + j..]
  {
  }

  /** A call consumes some bytes from the front and leaves the others as they are. */
  lemma {:induction false} ReadConsumesPrefix(st: ReadState, input: string)
    ensures var rest := ReadFrom(st, input).rest;
            |rest| <= |input| && rest == input[|input| - |rest|..]
    decreases |input|
  {
    if input != "" {
      var raw := RawLine(input);
      var line, rest := TrimEol(raw), input[|raw|..];
      ReadOneLine(st, input, raw, line);
      var st' := if line == "" then st else Absorb(st, line);
      ReadConsumesPrefix(st', rest);
      SuffixOfSuffix(input, |raw|, |rest| - |ReadFrom(st', rest).rest|);
    }
  }

  /** The loop in the documentation of `SSEEventReader`: read until an error. */
  method ReadAll(reader: SSEEventReader) returns (events: seq<ReadEvent>, last: ReadEvent, err: ReadError)
    modifies reader
    ensures var blocks := BlocksOf([], GoLines(Head(old(reader.input), old(reader.bomDone))));
            Drained(events, last) == Meaning(blocks)
    ensures err == reader.failure && reader.input == ""
  {
    ghost var start := Head(reader.input, reader.bomDone);
    ghost var remaining := start;
    events := [];
    while true
      invariant Head(reader.input, reader.bomDone) == remaining
      invariant Drain(UNTOUCHED, start) == Before(events, Drain(UNTOUCHED, remaining))
      decreases |remaining|
    {
      var event, failed := reader.ReadEvent();
      if failed.Some? {
        StreamMeaning(start);
        assert events + [] == events;
        return events, event, failed.value;
      }
      BeforeBefore(events, [event], Drain(UNTOUCHED, reader.input));
      events := events + [event];
      remaining := reader.input;
    }
  }
}
