/**
 The header part of a frame by its grammar: any spelling of Content-Length, spaces around the
 name and the number, other headers, lines ended by LF or CRLF; and what a bad header gives
 (http/lsp_framing.go, `ReadFrame`).
 */
module LspHeaders {
  import opened Wrappers
  import opened Text
  import opened Decimal
  import opened LspFraming

  // ------------------------------------------------------------------- spaces

  /** What `strings.TrimSpace` takes for one space, as bytes; a line feed cannot occur in a line. */
  predicate IsSpace(token: string) {
    || token == " " || token == "\t" || token == "\U{0B}" || token == "\U{0C}"
    || token == "\U{C2}\U{85}" || token == "\U{C2}\U{A0}" || token == "\U{E1}\U{9A}\U{80}"
    || (exists last: char :: '\U{80}' <= last <= '\U{8A}' && token == "\U{E2}\U{80}" + [last])
    || token == "\U{E2}\U{80}\U{A8}" || token == "\U{E2}\U{80}\U{A9}" || token == "\U{E2}\U{80}\U{AF}"
    || token == "\U{E2}\U{81}\U{9F}" || token == "\U{E3}\U{80}\U{80}"
  }

  predicate AllSpaces(tokens: seq<string>) {
    forall k :: 0 <= k < |tokens| ==> IsSpace(tokens[k])
  }

  /** Text that starts and ends with a visible ASCII character, or nothing. */
  predicate Visible(s: string) {
    s != "" ==> '!' <= s[0] <= '~' && '!' <= s[|s| - 1] <= '~'
  }

  lemma {:induction false} SpaceFirst(token: string, rest: string)
    requires IsSpace(token)
    ensures token != "" && LeadingSpace(token + rest) == |token| && (token + rest)[|token|..] == rest
  {
    var s := token + rest;
    assert forall k :: 0 <= k < |token| ==> s[k] == token[k];
  }

  lemma {:induction false} SpaceLast(before: string, token: string)
    requires IsSpace(token)
    ensures TrailingSpace(before + token) == |token| && (before + token)[..|before|] == before
  {
    var s := before + token;
    assert forall k :: 0 <= k < |token| ==> s[|before| + k] == token[k];
  }

  lemma {:induction false} TrimBefore(tokens: seq<string>, rest: string)
    requires AllSpaces(tokens)
    ensures TrimSpace(Concat(tokens) + rest) == TrimSpace(rest)
  {
    hide LeadingSpace, TrailingSpace, IsSpace;
    if tokens == [] {
      NoneAppended(rest);
    } else {
      var more := Concat(tokens[1..]) + rest;
      SpaceFirst(tokens[0], more);
      AppendAssociates(tokens[0], Concat(tokens[1..]), rest);
      TrimBefore(tokens[1..], rest);
    }
  }

  lemma {:induction false} TrimAfter(core: string, tokens: seq<string>)
    requires core != "" && Visible(core) && AllSpaces(tokens)
    ensures TrimSpace(core + Concat(tokens)) == core
  {
    hide TrailingSpace, IsSpace;
    if tokens == [] {
      NoneAppended(core);
      NothingToTrim(core);
    } else {
      var last := |tokens| - 1;
      var text := core + Concat(tokens[..last]);
      ConcatSnoc(tokens);
      AppendAssociates(core, Concat(tokens[..last]), tokens[last]);
      SpaceLast(text, tokens[last]);
      assert IsSpace(tokens[last]);
      SpaceFirst(tokens[last], "");
      assert (text + tokens[last])[0] == core[0];
      assert LeadingSpace(text + tokens[last]) == 0;
      hide Concat, LeadingSpace;
      TrimAfter(core, tokens[..last]);
    }
  }

  /** Spaces on both sides are trimmed, and nothing else. */
  lemma {:induction false} TrimExactly(before: seq<string>, core: string, after: seq<string>)
    requires AllSpaces(before) && Visible(core) && AllSpaces(after)
    ensures TrimSpace(Concat(before) + core + Concat(after)) == core
  {
    AppendAssociates(Concat(before), core, Concat(after));
    TrimBefore(before, core + Concat(after));
    if core == "" {
      NoneAppended(Concat(after));
      TrimBefore(after, "");
    } else {
      TrimAfter(core, after);
    }
  }

  lemma {:induction false} ConcatSnoc(s: seq<string>)
    requires s != []
    ensures Concat(s) == Concat(s[..|s| - 1]) + s[|s| - 1]
  {
    if |s| == 1 {
      assert s[1..] == [] && s[..0] == [];
      assert s[0] + "" == "" + s[0];
    } else {
      ConcatSnoc(s[1..]);
      assert s[1..][..|s| - 2] == s[..|s| - 1][1..];
      AppendAssociates(s[0], Concat(s[1..][..|s| - 2]), s[|s| - 1]);
    }
  }

  // --------------------------------------------------------------------- names

  /** Content-Length in any mixture of cases. */
  predicate Spelled(name: string) {
    |name| == 14 && forall k :: 0 <= k < 14 ==> name[k] == "Content-Length"[k] || name[k] == "cONTENT-lENGTH"[k]
  }

  lemma {:induction false} FoldExactly(name: string)
    ensures EqualFold(name, CONTENT_LENGTH) <==> Spelled(name)
  {
    if |name| == 14 {
      forall k | 0 <= k < 14
        ensures Lower(name[k]) == Lower(CONTENT_LENGTH[k]) <==>
                name[k] == "Content-Length"[k] || name[k] == "cONTENT-lENGTH"[k]
      {
        CaseExactly(name[k], k);
      }
    }
  }

  lemma {:induction false} CaseExactly(c: char, k: nat)
    requires k < 14
    ensures Lower(c) == Lower(CONTENT_LENGTH[k]) <==> c == "Content-Length"[k] || c == "cONTENT-lENGTH"[k]
  {
  }

  // -------------------------------------------------------------------- headers

  datatype HeaderLine =
    | LengthField(before: seq<string>, name: string, after: seq<string>, pad: seq<string>, number: string,
                  end: seq<string>, crlf: bool)
    | OtherField(line: string, crlf: bool)

  function LineText(h: HeaderLine): string {
    match h
    case LengthField(before, name, after, pad, number, end, _) =>
      Concat(before) + name + Concat(after) + ":" + (Concat(pad) + number + Concat(end))
    case OtherField(line, _) => line
  }

  /** A header that is about the length, with any text for a number, or one that is not. */
  predicate WellFormed(h: HeaderLine) {
    match h
    case LengthField(before, name, after, pad, number, end, _) =>
      && AllSpaces(before) && Spelled(name) && AllSpaces(after)
      && AllSpaces(pad) && Visible(number) && LF !in number && AllSpaces(end)
    case OtherField(line, _) =>
      && line != "" && LF !in line && !EndsWith(line, CR)
      && ':' in line && !Spelled(TrimSpace(line[..IndexOf(line, ':')]))
  }

  function Eol(crlf: bool): string {
    if crlf then "\r\n" else "\n"
  }

  lemma {:induction false} SpacesAreClean(tokens: seq<string>)
    requires AllSpaces(tokens)
    ensures forall c :: c in Concat(tokens) ==> c != LF && c != CR && c != ':'
  {
    if tokens != [] {
      SpacesAreClean(tokens[1..]);
      SpaceIsClean(tokens[0]);
    }
  }

  lemma {:induction false} SpaceIsClean(token: string)
    requires IsSpace(token)
    ensures forall c :: c in token ==> c != LF && c != CR && c != ':'
  {
  }

  lemma {:induction false} SpelledIsVisible(name: string)
    requires Spelled(name)
    ensures Visible(name) && ':' !in name && LF !in name
  {
    assert forall k :: 0 <= k < 14 ==> name[k] != ':' && name[k] != LF by {
      assert forall k :: 0 <= k < 14 ==> "Content-Length"[k] != ':' && "cONTENT-lENGTH"[k] != ':' &&
                                         "Content-Length"[k] != LF && "cONTENT-lENGTH"[k] != LF;
    }
  }

  /** What one well-formed line does to the length found so far. */
  lemma {:induction false} LineEffect(h: HeaderLine, length: int)
    requires WellFormed(h)
    ensures h.OtherField? ==> HeaderEffect(LineText(h), length) == Length(length)
    ensures h.LengthField? ==>
              HeaderEffect(LineText(h), length) ==
              match Atoi(h.number)
              case None => Bad(InvalidLength(h.number))
              case Some(n) => if n < 0 then Bad(NegativeLength(n)) else Length(n)
  {
    match h
    case OtherField(line, _) =>
      FoldExactly(TrimSpace(line[..IndexOf(line, ':')]));
    case LengthField(before, name, after, pad, number, end, _) =>
      var left, right := Concat(before) + name + Concat(after), Concat(pad) + number + Concat(end);
      SpelledIsVisible(name);
      SpacesAreClean(before);
      SpacesAreClean(after);
      hide Spelled, Visible, TrimSpace, Concat, AllSpaces;
      assert ':' !in left;
      IndexOfConcat(left, ':', right);
      var line := LineText(h);
      assert line == left + [':'] + right;
      assert line[..|left|] == left && line[|left| + 1..] == right;
      TrimExactly(before, name, after);
      TrimExactly(pad, number, end);
      FoldExactly(name);
  }

  lemma {:induction false} LineIsCarried(h: HeaderLine)
    requires WellFormed(h)
    ensures LineText(h) != "" && LF !in LineText(h) && !EndsWith(LineText(h), CR)
  {
    if h.LengthField? {
      SpelledIsVisible(h.name);
      SpacesAreClean(h.before);
      SpacesAreClean(h.after);
      SpacesAreClean(h.pad);
      SpacesAreClean(h.end);
      var left := Concat(h.before) + h.name + Concat(h.after) + ":";
      var right := Concat(h.pad) + h.number + Concat(h.end);
      assert LineText(h) == left + right && LF !in left && LF !in right;
      NoCrAtEnd(Concat(h.pad), h.number, Concat(h.end));
      assert right != "" ==> LineText(h)[|LineText(h)| - 1] == right[|right| - 1];
      assert right == "" ==> LineText(h)[|LineText(h)| - 1] == ':';
    }
  }

  lemma {:induction false} NoCrAtEnd(a: string, b: string, c: string)
    requires CR !in a && Visible(b) && CR !in c
    ensures !EndsWith(a + b + c, CR)
  {
    var s := a + b + c;
    if s != "" {
      var last := s[|s| - 1];
      assert if c != "" then last == c[|c| - 1] && last in c
             else if b != "" then last == b[|b| - 1] else last == a[|a| - 1] && last in a;
    }
  }

  // ---------------------------------------------------------------- whole headers

  function WireText(hs: seq<HeaderLine>): string {
    if hs == [] then "" else LineText(hs[0]) + Eol(hs[0].crlf) + WireText(hs[1..])
  }

  predicate AllWellFormed(hs: seq<HeaderLine>) {
    forall k :: 0 <= k < |hs| ==> WellFormed(hs[k])
  }

  predicate HasNumber(h: HeaderLine) {
    h.LengthField? ==> Atoi(h.number).Some? && Atoi(h.number).value >= 0
  }

  /** Every length is a number that is not negative. */
  predicate AllNumbers(hs: seq<HeaderLine>) {
    forall k :: 0 <= k < |hs| ==> HasNumber(hs[k])
  }

  /** The number of the last length header, or `length` if there is none. */
  function LastLength(hs: seq<HeaderLine>, length: int): int
    requires AllNumbers(hs)
  {
    if hs == [] then length
    else
      var last := hs[|hs| - 1];
      if last.LengthField? then Atoi(last.number).value else LastLength(hs[..|hs| - 1], length)
  }

  lemma {:induction false} LastLengthFirst(hs: seq<HeaderLine>, length: int)
    requires hs != [] && AllNumbers(hs)
    ensures LastLength(hs, length) ==
            LastLength(hs[1..], if hs[0].LengthField? then Atoi(hs[0].number).value else length)
  {
    var last := |hs| - 1;
    if last > 0 {
      assert hs[1..][|hs[1..]| - 1] == hs[last] && hs[1..][..last - 1] == hs[..last][1..];
      if !hs[last].LengthField? {
        LastLengthFirst(hs[..last], length);
      }
    } else {
      assert hs[1..] == [] && hs[..0] == [];
    }
  }

  /** A line of the header, whichever way it ends. */
  lemma {:induction false} ReadLine(length: int, line: string, crlf: bool, rest: string)
    requires LF !in line && !EndsWith(line, CR)
    ensures ReadHeaders(length, line + Eol(crlf) + rest) ==
            if line == "" then ReadBody(length, rest)
            else
              match HeaderEffect(line, length)
              case Bad(e) => Read(Error(e), rest)
              case Length(n) => ReadHeaders(n, rest)
  {
    hide HeaderEffect, ReadBody;
    var input := line + Eol(crlf) + rest;
    var shown := if crlf then line + [CR] else line;
    assert input == shown + [LF] + rest && LF !in shown;
    IndexOfConcat(shown, LF, rest);
    assert input[..|shown| + 1] == line + Eol(crlf) && input[|shown| + 1..] == rest;
    assert !EndsWith(line, LF);
    TrimEolIdentity(line, Eol(crlf));
  }

  lemma {:induction false} ReadLines(length: int, hs: seq<HeaderLine>, rest: string)
    requires AllWellFormed(hs) && AllNumbers(hs)
    ensures ReadHeaders(length, WireText(hs) + rest) == ReadHeaders(LastLength(hs, length), rest)
    decreases |hs|
  {
    hide ReadHeaders, HeaderEffect, LineText, WellFormed, LastLength;
    if hs == [] {
      assert "" + rest == rest;
      assert LastLength([], length) == length by { NoLength(length); }
    } else {
      var h := hs[0];
      LineIsCarried(h);
      LineEffect(h, length);
      assert HasNumber(h);
      var more := WireText(hs[1..]) + rest;
      assert WireText(hs) + rest == LineText(h) + Eol(h.crlf) + more;
      ReadLine(length, LineText(h), h.crlf, more);
      LastLengthFirst(hs, length);
      ReadLines(if h.LengthField? then Atoi(h.number).value else length, hs[1..], rest);
    }
  }

  lemma {:induction false} NoLength(length: int)
    ensures LastLength([], length) == length
  {
  }

  /**
   A header of any such lines: the last length counts. With none the error says so; with enough
   bytes after it the body is exactly that many of them, and what follows is left; with fewer
   the error tells no bytes at all from too few.
   */
  lemma {:induction false} HeaderIsRead(hs: seq<HeaderLine>, crlf: bool, rest: string)
    requires AllWellFormed(hs) && AllNumbers(hs)
    ensures var n := LastLength(hs, -1);
            ReadFrom(WireText(hs) + (Eol(crlf) + rest)) ==
            if n < 0 then Read(Error(MissingLength), rest)
            else if n <= |rest| then Read(Body(rest[..n]), rest[n..])
            else Read(Error(if rest == "" then BodyEof(n) else BodyTruncated(n)), "")
  {
    hide ReadHeaders, WireText, AllWellFormed, AllNumbers, LastLength, HeaderEffect;
    ReadLines(-1, hs, Eol(crlf) + rest);
    ReadLine(LastLength(hs, -1), "", crlf, rest);
    NoneAppended(Eol(crlf));
  }

  /** A frame whose length is spelled and spaced in any way is read back, and nothing more consumed. */
  lemma {:induction false} SpelledFrame(hs: seq<HeaderLine>, crlf: bool, body: string, rest: string)
    requires AllWellFormed(hs) && AllNumbers(hs) && LastLength(hs, -1) == |body|
    ensures ReadFrom(WireText(hs) + (Eol(crlf) + (body + rest))) == Read(Body(body), rest)
  {
    HeaderIsRead(hs, crlf, body + rest);
    assert (body + rest)[..|body|] == body && (body + rest)[|body|..] == rest;
  }

  /** After good lines a length that is no number, or a negative one, is reported as such. */
  lemma {:induction false} BadLength(hs: seq<HeaderLine>, bad: HeaderLine, rest: string)
    requires AllWellFormed(hs) && AllNumbers(hs)
    requires WellFormed(bad) && bad.LengthField? && !HasNumber(bad)
    ensures ReadFrom(WireText(hs) + (LineText(bad) + Eol(bad.crlf) + rest)) ==
            Read(Error(match Atoi(bad.number)
                       case None => InvalidLength(bad.number)
                       case Some(n) => NegativeLength(n)), rest)
  {
    hide ReadHeaders, HeaderEffect, LineText, WellFormed;
    ReadLines(-1, hs, LineText(bad) + Eol(bad.crlf) + rest);
    LineIsCarried(bad);
    LineEffect(bad, LastLength(hs, -1));
    ReadLine(LastLength(hs, -1), LineText(bad), bad.crlf, rest);
  }

  /** A line without a colon is malformed. */
  lemma {:induction false} NoColon(hs: seq<HeaderLine>, line: string, crlf: bool, rest: string)
    requires AllWellFormed(hs) && AllNumbers(hs)
    requires line != "" && ':' !in line && LF !in line && !EndsWith(line, CR)
    ensures ReadFrom(WireText(hs) + (line + Eol(crlf) + rest)) == Read(Error(MalformedHeader(line)), rest)
  {
    hide ReadHeaders;
    ReadLines(-1, hs, line + Eol(crlf) + rest);
    IndexOfAbsent(line, ':');
    ReadLine(LastLength(hs, -1), line, crlf, rest);
  }
}
