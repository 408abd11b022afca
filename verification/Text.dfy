/**
 Strings as both ends of the wire see them. A Go byte and a TypeScript code unit
 are both a `char` here: every delimiter of the protocols is ASCII, so nothing
 below depends on how the other characters are encoded.
 */
module Text {
  const CR: char := '\r'
  const LF: char := '\n'
  const NUL: char := '\0'

  /** First position of `c` in `s`, or `|s|` when there is none. */
  function IndexOf(s: string, c: char): (i: nat)
    ensures i <= |s|
    ensures forall k :: 0 <= k < i ==> s[k] != c
    ensures i < |s| ==> s[i] == c
  {
    if s == "" || s[0] == c then 0
    else 1 + IndexOf(s[1..], c)
  }

  predicate StartsWith(s: string, p: string) {
    |p| <= |s| && s[..|p|] == p
  }

  predicate EndsWith(s: string, c: char) {
    s != "" && s[|s| - 1] == c
  }

  /** The first occurrence is determined by what it promises. */
  lemma {:induction false} IndexOfUnique(s: string, c: char, i: nat)
    requires i <= |s| && (forall k :: 0 <= k < i ==> s[k] != c) && (i < |s| ==> s[i] == c)
    ensures IndexOf(s, c) == i
  {
    var j := IndexOf(s, c);
  }

  lemma {:induction false} IndexOfConcat(a: string, c: char, b: string)
    requires c !in a
    ensures IndexOf(a + [c] + b, c) == |a|
  {
    assert (a + [c] + b)[..|a|] == a;
    IndexOfUnique(a + [c] + b, c, |a|);
  }

  lemma {:induction false} IndexOfAbsent(s: string, c: char)
    requires c !in s
    ensures IndexOf(s, c) == |s|
  {
    assert s[..|s|] == s;
    IndexOfUnique(s, c, |s|);
  }

  /** `bytes.Split(s, "\n")`: one piece more than there are line feeds. */
  function Split(s: string): (pieces: seq<string>)
    ensures pieces != []
    ensures forall p :: p in pieces ==> LF !in p
    decreases |s|
  {
    var i := IndexOf(s, LF);
    if i == |s| then
      assert s[..i] == s;
      [s]
    else [s[..i]] + Split(s[i + 1..])
  }

  /** `strings.Join(pieces, "\n")`. */
  function Join(pieces: seq<string>): string {
    if pieces == [] then ""
    else if |pieces| == 1 then pieces[0]
    else pieces[0] + [LF] + Join(pieces[1..])
  }

  lemma {:induction false} JoinSplit(s: string)
    ensures Join(Split(s)) == s
    decreases |s|
  {
    var i := IndexOf(s, LF);
    if i < |s| {
      JoinSplit(s[i + 1..]);
      assert Split(s)[1..] == Split(s[i + 1..]);
      assert s == s[..i] + [LF] + s[i + 1..];
    }
  }

  lemma {:induction false} SplitJoin(pieces: seq<string>)
    requires pieces != [] && forall p :: p in pieces ==> LF !in p
    ensures Split(Join(pieces)) == pieces
  {
    if |pieces| == 1 {
      IndexOfAbsent(pieces[0], LF);
    } else {
      var rest := Join(pieces[1..]);
      SplitJoin(pieces[1..]);
      SplitFirst(pieces[0], rest);
    }
  }

  lemma {:induction false} SplitFirst(piece: string, rest: string)
    requires LF !in piece
    ensures Split(piece + [LF] + rest) == [piece] + Split(rest)
  {
    var s := piece + [LF] + rest;
    IndexOfConcat(piece, LF, rest);
    assert s[..|piece|] == piece && s[|piece| + 1..] == rest;
  }

  /** `strings.TrimRight(s, "\r\n")`. */
  function TrimEol(s: string): (t: string)
    ensures t <= s
    ensures !EndsWith(t, CR) && !EndsWith(t, LF)
    ensures forall k :: |t| <= k < |s| ==> s[k] == CR || s[k] == LF
  {
    if EndsWith(s, CR) || EndsWith(s, LF) then TrimEol(s[..|s| - 1]) else s
  }

  lemma {:induction false} TrimEolIdentity(s: string, eol: string)
    requires !EndsWith(s, CR) && !EndsWith(s, LF)
    requires forall c :: c in eol ==> c == CR || c == LF
    ensures TrimEol(s + eol) == s
  {
    if eol == "" {
      assert s + eol == s;
    } else {
      var last := |eol| - 1;
      assert eol[last] in eol;
      assert forall c :: c in eol[..last] ==> c in eol;
      assert (s + eol)[..|s + eol| - 1] == s + eol[..last];
      TrimEolIdentity(s, eol[..last]);
    }
  }

  /** Every line followed by a line feed. */
  function Render(lines: seq<string>): string {
    if lines == [] then "" else lines[0] + [LF] + Render(lines[1..])
  }

  lemma {:induction false} RenderAppend(a: seq<string>, b: seq<string>)
    ensures Render(a + b) == Render(a) + Render(b)
  {
    if a == [] {
      assert a + b == b;
    } else {
      RenderAppend(a[1..], b);
      AppendAssociates(a[0] + [LF], Render(a[1..]), Render(b));
      assert (a + b)[0] == a[0] && (a + b)[1..] == a[1..] + b;
    }
  }

  lemma {:induction false} RenderIsJoin(lines: seq<string>)
    requires lines != []
    ensures Render(lines) == Join(lines) + [LF]
  {
    if |lines| == 1 {
      assert lines[1..] == [];
    } else {
      RenderIsJoin(lines[1..]);
      AppendAssociates(lines[0] + [LF], Join(lines[1..]), [LF]);
    }
  }

  lemma {:induction false} AppendAssociates<T>(a: seq<T>, b: seq<T>, c: seq<T>)
    ensures a + (b + c) == a + b + c
  {
  }

  lemma {:induction false} NoneAppended<T>(s: seq<T>)
    ensures s + [] == s && [] + s == s
  {
  }

  /** All chunks, one after the other. */
  function Concat(chunks: seq<string>): string {
    if chunks == [] then "" else chunks[0] + Concat(chunks[1..])
  }
}
