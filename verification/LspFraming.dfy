/**
 Content-Length framing (http/lsp_framing.go; LSP 3.17, Base Protocol, Header Part).
 A character stands for a byte.
 */
module LspFraming {
  import opened Wrappers
  import opened Text
  import opened Decimal

  datatype FrameError =
    | Eof
    | MalformedHeader(line: string)
    | InvalidLength(value: string)
    | NegativeLength(n: int)
    | MissingLength
    | BodyEof(length: nat)
    | BodyTruncated(length: nat)

  datatype Frame = Body(bytes: string) | Error(error: FrameError)

  const CONTENT_LENGTH: string := "Content-Length"
  const CRLF: string := [CR, LF]

  // ------------------------------------------------ strings.TrimSpace, EqualFold

  predicate AsciiSpace(c: char) {
    c == ' ' || '\t' <= c <= '\r'
  }

  /** The UTF-8 encodings of the spaces outside ASCII. */
  predicate TwoByteSpace(a: char, b: char) {
    a == '\U{C2}' && (b == '\U{85}' || b == '\U{A0}')
  }

  predicate ThreeByteSpace(a: char, b: char, c: char) {
    || (a == '\U{E1}' && b == '\U{9A}' && c == '\U{80}')
    || (a == '\U{E2}' && b == '\U{80}' &&
         ('\U{80}' <= c <= '\U{8A}' || c == '\U{A8}' || c == '\U{A9}' || c == '\U{AF}'))
    || (a == '\U{E2}' && b == '\U{81}' && c == '\U{9F}')
    || (a == '\U{E3}' && b == '\U{80}' && c == '\U{80}')
  }

  /** The number of leading bytes that are one space, or zero. */
  function LeadingSpace(s: string): (n: nat)
    ensures n <= |s|
  {
    if |s| >= 1 && AsciiSpace(s[0]) then 1
    else if |s| >= 2 && TwoByteSpace(s[0], s[1]) then 2
    else if |s| >= 3 && ThreeByteSpace(s[0], s[1], s[2]) then 3
    else 0
  }

  function TrailingSpace(s: string): (n: nat)
    ensures n <= |s|
  {
    var e := |s|;
    if e >= 1 && AsciiSpace(s[e - 1]) then 1
    else if e >= 2 && TwoByteSpace(s[e - 2], s[e - 1]) then 2
    else if e >= 3 && ThreeByteSpace(s[e - 3], s[e - 2], s[e - 1]) then 3
    else 0
  }

  function TrimSpace(s: string): string
    decreases |s|
  {
    if LeadingSpace(s) > 0 then TrimSpace(s[LeadingSpace(s)..])
    else if TrailingSpace(s) > 0 then TrimSpace(s[..|s| - TrailingSpace(s)])
    else s
  }

  function Lower(c: char): char {
    if 'A' <= c <= 'Z' then ((c as int) + 32) as char else c
  }

  /** No letter of "Content-Length" has a fold outside ASCII. */
  predicate EqualFold(a: string, b: string) {
    |a| == |b| && forall k :: 0 <= k < |a| ==> Lower(a[k]) == Lower(b[k])
  }

  // -------------------------------------------------------------- the printer

  function FrameText(body: string): string {
    CONTENT_LENGTH + ": " + Print(|body|) + CRLF + CRLF + body
  }

  // --------------------------------------------------------------- the reader

  /** What reading one frame returns, and what it leaves. */
  datatype Read = Read(frame: Frame, rest: string)

  /** The effect of one header line on the length found so far. */
  datatype Header = Length(n: int) | Bad(error: FrameError)

  function HeaderEffect(line: string, length: int): Header {
    var i := IndexOf(line, ':');
    if i == |line| then Bad(MalformedHeader(line))
    else
      var name, value := TrimSpace(line[..i]), TrimSpace(line[i + 1..]);
      if !EqualFold(name, CONTENT_LENGTH) then Length(length)
      else
        match Atoi(value)
        case None => Bad(InvalidLength(value))
        case Some(n) => if n < 0 then Bad(NegativeLength(n)) else Length(n)
  }

  function ReadBody(length: int, input: string): Read {
    if length < 0 then Read(Error(MissingLength), input)
    else if length <= |input| then Read(Body(input[..length]), input[length..])
    else Read(Error(if input == "" then BodyEof(length) else BodyTruncated(length)), "")
  }

  /** From inside the header, with the length found so far. */
  function ReadHeaders(length: int, input: string): (r: Read)
    ensures r.frame.Body? ==> |r.rest| < |input|
    decreases |input|
  {
    var i := IndexOf(input, LF);
    if i == |input| then Read(Error(Eof), "")
    else
      var line, rest := TrimEol(input[..i + 1]), input[i + 1..];
      if line == "" then ReadBody(length, rest)
      else
        match HeaderEffect(line, length)
        case Bad(e) => Read(Error(e), rest)
        case Length(n) => ReadHeaders(n, rest)
  }

  function ReadFrom(input: string): Read {
    ReadHeaders(-1, input)
  }

  class FrameStream {
    var bytes: string

    constructor (bytes: string)
      ensures this.bytes == bytes
    {
      this.bytes := bytes;
    }

    method WriteFrame(data: string)
      modifies this
      ensures bytes == old(bytes) + FrameText(data)
      ensures bytes == old(bytes) + ("Content-Length: " + Print(|data|) + "\r\n\r\n" + data)
    {
      var header := CONTENT_LENGTH + ": " + Print(|data|) + CRLF + CRLF;
      bytes := bytes + header;
      bytes := bytes + data;
      AppendAssociates(old(bytes), header, data);
    }

    method ReadFrame() returns (frame: Frame)
      modifies this
      ensures Read(frame, bytes) == ReadFrom(old(bytes))
    {
      var contentLength := -1;
      while true
        invariant ReadHeaders(contentLength, bytes) == ReadFrom(old(bytes))
        decreases |bytes|
      {
        var i := IndexOf(bytes, LF);
        if i == |bytes| {
          bytes := "";
          return Error(Eof);
        }
        var line := TrimEol(bytes[..i + 1]);
        bytes := bytes[i + 1..];
        if line == "" {
          break;
        }
        var colon := IndexOf(line, ':');
        if colon == |line| {
          return Error(MalformedHeader(line));
        }
        var name, value := TrimSpace(line[..colon]), TrimSpace(line[colon + 1..]);
        if EqualFold(name, CONTENT_LENGTH) {
          var n := Atoi(value);
          if n.None? {
            return Error(InvalidLength(value));
          }
          if n.value < 0 {
            return Error(NegativeLength(n.value));
          }
          contentLength := n.value;
        }
      }
      if contentLength < 0 {
        return Error(MissingLength);
      }
      if contentLength > |bytes| {
        frame := Error(if bytes == "" then BodyEof(contentLength) else BodyTruncated(contentLength));
        bytes := "";
        return;
      }
      frame := Body(bytes[..contentLength]);
      bytes := bytes[contentLength..];
    }
  }

  // -------------------------------------------------------------- round trips

  lemma {:induction false} NothingToTrim(s: string)
    requires s != "" && '!' <= s[0] <= '~' && '!' <= s[|s| - 1] <= '~'
    ensures LeadingSpace(s) == 0 && TrimSpace(s) == s
  {
    assert LeadingSpace(s) == 0 && TrailingSpace(s) == 0;
  }

  lemma {:induction false} DigitsTrim(s: string)
    requires AllDigits(s)
    ensures TrimSpace(s) == s && TrimSpace(" " + s) == s
  {
    assert s[0] in s && s[|s| - 1] in s;
    NothingToTrim(s);
    assert LeadingSpace(" " + s) == 1 && (" " + s)[1..] == s;
  }

  lemma {:induction false} NameTrims()
    ensures TrimSpace(CONTENT_LENGTH) == CONTENT_LENGTH
  {
    NothingToTrim(CONTENT_LENGTH);
  }

  /** The header line `WriteFrame` prints, before its CRLF. */
  function LengthLine(n: nat): string {
    CONTENT_LENGTH + ": " + Print(n)
  }

  lemma {:induction false} LengthLineEffect(n: nat, length: int)
    requires n <= MAX_INT
    ensures HeaderEffect(LengthLine(n), length) == Length(n)
    ensures LengthLine(n) != ""
  {
    var value := " " + Print(n);
    assert LengthLine(n) == CONTENT_LENGTH + [':'] + value;
    IndexOfConcat(CONTENT_LENGTH, ':', value);
    assert LengthLine(n)[..|CONTENT_LENGTH|] == CONTENT_LENGTH;
    assert LengthLine(n)[|CONTENT_LENGTH| + 1..] == value;
    NameTrims();
    DigitsTrim(Print(n));
    AtoiPrint(n);
  }

  /** A header line that is not about the length, and that a line can carry. */
  predicate Ignorable(line: string) {
    && line != "" && LF !in line && !EndsWith(line, CR)
    && ':' in line && !EqualFold(TrimSpace(line[..IndexOf(line, ':')]), CONTENT_LENGTH)
  }

  lemma {:induction false} IgnorableEffect(line: string, length: int)
    requires Ignorable(line)
    ensures HeaderEffect(line, length) == Length(length)
  {
  }

  lemma {:induction false} OneHeader(length: int, line: string, n: int, rest: string)
    requires line != "" && LF !in line && !EndsWith(line, CR)
    requires HeaderEffect(line, length) == Length(n)
    ensures ReadHeaders(length, line + CRLF + rest) == ReadHeaders(n, rest)
  {
    var input := line + CRLF + rest;
    assert input == (line + [CR]) + [LF] + rest;
    assert LF !in line + [CR];
    IndexOfConcat(line + [CR], LF, rest);
    assert input[..|line| + 2] == line + CRLF && input[|line| + 2..] == rest;
    assert !EndsWith(line, LF);
    TrimEolIdentity(line, CRLF);
  }

  lemma {:induction false} HeaderEnd(length: int, rest: string)
    ensures ReadHeaders(length, CRLF + rest) == ReadBody(length, rest)
  {
    var input := CRLF + rest;
    assert input == [CR] + [LF] + rest;
    IndexOfConcat([CR], LF, rest);
    assert input[..2] == "" + CRLF && input[2..] == rest;
    TrimEolIdentity("", CRLF);
  }

  /** Header lines, each followed by CRLF. */
  function HeaderLines(lines: seq<string>): string {
    if lines == [] then "" else lines[0] + CRLF + HeaderLines(lines[1..])
  }

  predicate AllIgnorable(lines: seq<string>) {
    forall k :: 0 <= k < |lines| ==> Ignorable(lines[k])
  }

  lemma {:induction false} SkipHeaders(length: int, lines: seq<string>, rest: string)
    requires AllIgnorable(lines)
    ensures ReadHeaders(length, HeaderLines(lines) + rest) == ReadHeaders(length, rest)
    decreases |lines|
  {
    if lines == [] {
      assert "" + rest == rest;
    } else {
      IgnorableEffect(lines[0], length);
      OneHeader(length, lines[0], length, HeaderLines(lines[1..]) + rest);
      SkipHeaders(length, lines[1..], rest);
      AppendAssociates(lines[0] + CRLF, HeaderLines(lines[1..]), rest);
    }
  }

  /** A frame with other headers before and after its length. */
  function FrameWith(before: seq<string>, body: string, after: seq<string>): string {
    HeaderLines(before) + (LengthLine(|body|) + CRLF + (HeaderLines(after) + (CRLF + body)))
  }

  lemma {:induction false} LengthLineCarried(n: nat)
    ensures LF !in LengthLine(n) && !EndsWith(LengthLine(n), CR)
  {
    var digits := Print(n);
    assert forall c :: c in LengthLine(n) ==> c in CONTENT_LENGTH || c in ": " || c in digits;
    assert LengthLine(n)[|LengthLine(n)| - 1] == digits[|digits| - 1] && digits[|digits| - 1] in digits;
  }

  /** Whatever the body holds and whatever follows, a frame is read back and nothing else is consumed. */
  lemma {:induction false} FrameReadsBack(before: seq<string>, body: string, after: seq<string>, rest: string)
    requires |body| <= MAX_INT && AllIgnorable(before) && AllIgnorable(after)
    ensures ReadFrom(FrameWith(before, body, after) + rest) == Read(Body(body), rest)
  {
    hide ReadHeaders, ReadBody, Ignorable, HeaderEffect, HeaderLines, Print;
    var n := |body|;
    var tail := CRLF + (body + rest);
    var middle := HeaderLines(after) + tail;
    var first := LengthLine(n) + CRLF + middle;
    assert FrameWith(before, body, after) + rest == HeaderLines(before) + first;
    SkipHeaders(-1, before, first);
    LengthLineEffect(n, -1);
    LengthLineCarried(n);
    OneHeader(-1, LengthLine(n), n, middle);
    SkipHeaders(n, after, tail);
    HeaderEnd(n, body + rest);
    BodyReadsBack(body, rest);
  }

  lemma {:induction false} BodyReadsBack(body: string, rest: string)
    ensures ReadBody(|body|, body + rest) == Read(Body(body), rest)
  {
    assert (body + rest)[..|body|] == body && (body + rest)[|body|..] == rest;
  }

  lemma {:induction false} PlainFrame(body: string)
    ensures FrameText(body) == FrameWith([], body, [])
  {
    assert "" + (CRLF + body) == CRLF + body;
    var line := LengthLine(|body|) + CRLF;
    assert "" + (line + (CRLF + body)) == line + (CRLF + body);
    AppendAssociates(line, CRLF, body);
  }

  // --------------------------------------------------------- streams of frames

  function Frames(bodies: seq<string>): string {
    if bodies == [] then "" else FrameText(bodies[0]) + Frames(bodies[1..])
  }

  /** Reading until an error. */
  datatype Drained = Drained(bodies: seq<string>, error: FrameError)

  function ReadAll(input: string): Drained
    decreases |input|
  {
    var r := ReadFrom(input);
    match r.frame
    case Error(e) => Drained([], e)
    case Body(bytes) =>
      var later := ReadAll(r.rest);
      Drained([bytes] + later.bodies, later.error)
  }

  predicate GoSized(bodies: seq<string>) {
    forall k :: 0 <= k < |bodies| ==> |bodies[k]| <= MAX_INT
  }

  lemma {:induction false} ReadFirst(body: string, rest: string)
    requires |body| <= MAX_INT
    ensures ReadFrom(FrameText(body) + rest) == Read(Body(body), rest)
    ensures ReadAll(FrameText(body) + rest) == Drained([body] + ReadAll(rest).bodies, ReadAll(rest).error)
  {
    PlainFrame(body);
    FrameReadsBack([], body, [], rest);
  }

  /** The frames of a list of bodies are read back exactly, then the end of the stream. */
  lemma {:induction false} FramesReadBack(bodies: seq<string>)
    requires GoSized(bodies)
    ensures ReadAll(Frames(bodies)) == Drained(bodies, Eof)
  {
    if bodies != [] {
      ReadFirst(bodies[0], Frames(bodies[1..]));
      FramesReadBack(bodies[1..]);
    }
  }

  // -------------------------------------------------------- streams that are cut

  function HeaderText(n: nat): string {
    LengthLine(n) + CRLF + CRLF
  }

  /** The frames that lie wholly within the first `cut` bytes. */
  function Complete(bodies: seq<string>, cut: nat): (n: nat)
    ensures n <= |bodies|
  {
    if bodies == [] || cut < |FrameText(bodies[0])| then 0
    else 1 + Complete(bodies[1..], cut - |FrameText(bodies[0])|)
  }

  /** Where in its frame the cut falls, and what the reader says then. */
  function CutError(bodies: seq<string>, cut: nat): FrameError {
    if bodies == [] then Eof
    else
      var n := |bodies[0]|;
      if cut >= |FrameText(bodies[0])| then CutError(bodies[1..], cut - |FrameText(bodies[0])|)
      else if cut < |HeaderText(n)| then Eof
      else if cut == |HeaderText(n)| then BodyEof(n)
      else BodyTruncated(n)
  }

  /** Less than a header holds no blank line, so no body can be read. */
  lemma {:induction false} CutHeader(n: nat, cut: nat)
    requires n <= MAX_INT && cut < |HeaderText(n)|
    ensures ReadFrom(HeaderText(n)[..cut]) == Read(Error(Eof), "")
  {
    hide ReadHeaders, HeaderEffect, LengthLine;
    var line := LengthLine(n);
    LengthLineCarried(n);
    LengthLineEffect(n, -1);
    var input := HeaderText(n)[..cut];
    if cut < |line| + 2 {
      assert forall k :: 0 <= k < cut ==> input[k] == (line + [CR])[k];
      NoLineFeed(-1, input);
    } else {
      var rest := input[|line| + 2..];
      assert input == line + CRLF + rest;
      OneHeader(-1, line, n, rest);
      assert rest == CRLF[..cut - |line| - 2];
      NoLineFeed(n, rest);
    }
  }

  lemma {:induction false} NoLineFeed(length: int, input: string)
    requires forall k :: 0 <= k < |input| ==> input[k] != LF
    ensures ReadHeaders(length, input) == Read(Error(Eof), "")
  {
    IndexOfUnique(input, LF, |input|);
  }

  lemma {:induction false} FrameIsHeaderAndBody(body: string)
    ensures FrameText(body) == HeaderText(|body|) + body
  {
  }

  lemma {:induction false} PrefixOfConcat(a: string, b: string, cut: nat)
    requires cut <= |a + b|
    ensures (a + b)[..cut] == if cut <= |a| then a[..cut] else a + b[..cut - |a|]
  {
  }

  lemma {:induction false} CutBody(body: string, cut: nat)
    requires |body| <= MAX_INT && |HeaderText(|body|)| <= cut < |FrameText(body)|
    ensures ReadFrom(FrameText(body)[..cut]) ==
            Read(Error(if cut == |HeaderText(|body|)| then BodyEof(|body|) else BodyTruncated(|body|)), "")
  {
    hide ReadHeaders, HeaderEffect, LengthLine;
    var n := |body|;
    var line := LengthLine(n);
    LengthLineCarried(n);
    LengthLineEffect(n, -1);
    FrameIsHeaderAndBody(body);
    PrefixOfConcat(HeaderText(n), body, cut);
    var part := body[..cut - |HeaderText(n)|];
    assert FrameText(body)[..cut] == HeaderText(n) + part;
    AppendAssociates(line + CRLF, CRLF, part);
    OneHeader(-1, line, n, CRLF + part);
    HeaderEnd(n, part);
  }

  /**
   Cut anywhere, a stream of frames yields exactly its complete frames and then an error:
   never a body that is not one of those sent.
   */
  lemma {:induction false} CutFrames(bodies: seq<string>, cut: nat)
    requires GoSized(bodies) && cut <= |Frames(bodies)|
    ensures ReadAll(Frames(bodies)[..cut]) == Drained(bodies[..Complete(bodies, cut)], CutError(bodies, cut))
    decreases |bodies|
  {
    hide ReadFrom, FrameText, HeaderText;
    if bodies == [] {
      assert Frames(bodies)[..cut] == "";
      NothingToRead();
    } else {
      var body := bodies[0];
      var first, rest := FrameText(body), Frames(bodies[1..]);
      PrefixOfConcat(first, rest, cut);
      if cut >= |first| {
        var later := cut - |first|;
        assert Frames(bodies)[..cut] == first + rest[..later];
        ReadFirst(body, rest[..later]);
        CutFrames(bodies[1..], later);
        assert bodies[..1 + Complete(bodies[1..], later)] == [body] + bodies[1..][..Complete(bodies[1..], later)];
      } else {
        FrameIsHeaderAndBody(body);
        PrefixOfConcat(HeaderText(|body|), body, cut);
        if cut < |HeaderText(|body|)| {
          CutHeader(|body|, cut);
        } else {
          CutBody(body, cut);
        }
      }
    }
  }

  /** How many bytes there are after the complete frames. */
  function LeftOver(bodies: seq<string>, cut: nat): nat {
    if bodies == [] then 0
    else if cut < |FrameText(bodies[0])| then cut
    else LeftOver(bodies[1..], cut - |FrameText(bodies[0])|)
  }

  /** The cut falls strictly inside the header of a frame. */
  predicate InsideHeader(bodies: seq<string>, cut: nat) {
    var n := Complete(bodies, cut);
    n < |bodies| && 0 < LeftOver(bodies, cut) < |HeaderText(|bodies[n]|)|
  }

  /**
   The reader says plain EOF at the end of the last complete frame, and also, with bytes left
   over, exactly when the cut falls strictly inside a header.
   */
  lemma {:induction false} EofExactly(bodies: seq<string>, cut: nat)
    requires GoSized(bodies) && cut <= |Frames(bodies)|
    ensures var eof := ReadAll(Frames(bodies)[..cut]).error == Eof;
            && (LeftOver(bodies, cut) == 0 ==> eof)
            && (eof && LeftOver(bodies, cut) > 0 <==> InsideHeader(bodies, cut))
  {
    CutFrames(bodies, cut);
    CutErrorIs(bodies, cut);
  }

  lemma {:induction false} CutErrorIs(bodies: seq<string>, cut: nat)
    requires cut <= |Frames(bodies)|
    ensures LeftOver(bodies, cut) == 0 ==> CutError(bodies, cut) == Eof
    ensures CutError(bodies, cut) == Eof && LeftOver(bodies, cut) > 0 <==> InsideHeader(bodies, cut)
    decreases |bodies|
  {
    hide FrameText, HeaderText;
    if bodies != [] {
      FrameIsHeaderAndBody(bodies[0]);
      HeaderIsNotEmpty(|bodies[0]|);
      if cut >= |FrameText(bodies[0])| {
        CutErrorIs(bodies[1..], cut - |FrameText(bodies[0])|);
      }
    }
  }

  lemma {:induction false} HeaderIsNotEmpty(n: nat)
    ensures HeaderText(n) != ""
  {
  }

  lemma {:induction false} NothingToRead()
    ensures ReadFrom("") == Read(Error(Eof), "")
  {
  }
}
