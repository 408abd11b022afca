/**
 When the Go reader and the TypeScript parser read the same messages out of a stream: they
 see the same lines exactly if every CR belongs to a CRLF, and then make the same messages
 of them exactly if no event with data loses an earlier id to a later one that holds a NUL.
 */
module SseAgreement {
  import opened Wrappers
  import opened Text
  import opened SseSyntax
  import opened SseStream
  import Go = SseReader
  import Ts = SseParser
  import SseChunks
  import opened SseGoRoundTrip
  import opened SseTsRoundTrip

  predicate CrOnlyInCrlf(s: string) {
    forall i :: 0 <= i < |s| && s[i] == CR ==> i + 1 < |s| && s[i + 1] == LF
  }

  // ------------------------------------------------------------------ lines

  /** All the lines the push side has seen, the unfinished last one included. */
  function PushLines(s: string): seq<string> {
    var ls := Ts.LinesOf(s);
    ls.complete + if ls.incomplete == "" then [] else [ls.incomplete]
  }

  lemma {:induction false} FirstPushLine(s: string)
    requires Ts.HasLine(s)
    ensures PushLines(s) == [s[..Ts.EolIndex(s)]] + PushLines(s[Ts.NextLine(s)..])
  {
    var rest := Ts.LinesOf(s[Ts.NextLine(s)..]);
    var open := if rest.incomplete == "" then [] else [rest.incomplete];
    AppendAssociates([s[..Ts.EolIndex(s)]], rest.complete, open);
  }

  /** The first line of a stream ends in a CR that does not belong to a CRLF. */
  predicate LoneCrFirst(s: string)
    requires Ts.HasLine(s)
  {
    s[Ts.EolIndex(s)] == CR && s[Ts.EolIndex(s) + 1] != LF
  }

  /** The pull side's first line, `n` bytes with its line feed if it has one. */
  lemma {:induction false} FirstPullLine(s: string, n: nat)
    requires 0 < n <= |s| && (forall k :: 0 <= k < n - 1 ==> s[k] != LF)
    requires s[n - 1] == LF || n == |s|
    ensures Go.RawLine(s) == s[..n]
    ensures GoLines(s) == [TrimEol(s[..n])] + GoLines(s[n..])
  {
    hide TrimEol;
    IndexOfUnique(s, LF, if s[n - 1] == LF then n - 1 else n);
    assert s[..|s|] == s;
  }

  /** A first line that ends in LF or CRLF is the same on both sides. */
  lemma {:induction false} FirstLinesAgree(s: string)
    requires Ts.HasLine(s) && !LoneCrFirst(s)
    ensures GoLines(s) == [s[..Ts.EolIndex(s)]] + GoLines(s[Ts.NextLine(s)..])
  {
    hide GoLines, TrimEol;
    var i, n := Ts.EolIndex(s), Ts.NextLine(s);
    assert s[n - 1] == LF && forall k :: 0 <= k < n - 1 ==> s[k] != LF;
    FirstPullLine(s, n);
    LineAndEnd(s, i, n);
  }

  lemma {:induction false} LineAndEnd(s: string, i: nat, n: nat)
    requires i < n <= |s| && (forall k :: 0 <= k < i ==> s[k] != CR && s[k] != LF)
    requires forall k :: i <= k < n ==> s[k] == CR || s[k] == LF
    ensures TrimEol(s[..n]) == s[..i]
  {
    hide TrimEol;
    assert s[..n] == s[..i] + s[i..n];
    TrimEolIdentity(s[..i], s[i..n]);
  }

  /** The pull side does not see a lone CR: the line goes on. */
  lemma {:induction false} LoneCrIsNoLine(s: string)
    requires Ts.HasLine(s) && LoneCrFirst(s)
    ensures |GoLines(s)| == |GoLines(s[Ts.NextLine(s)..])|
  {
    hide GoLines, TrimEol;
    var n := Ts.NextLine(s);
    var rest := s[n..];
    var i := IndexOf(rest, LF);
    var m := if i < |rest| then i + 1 else i;
    FirstPullLine(rest, m);
    forall k | 0 <= k < n + m - 1
      ensures s[k] != LF
    {
      assert k >= n ==> s[k] == rest[k - n];
    }
    assert s[n + m - 1] == rest[m - 1];
    hide IndexOf;
    FirstPullLine(s, n + m);
    assert s[n + m..] == rest[m..];
  }

  /** A stream without a complete line, to the push side. */
  lemma {:induction false} LastLine(s: string)
    requires !Ts.HasLine(s)
    ensures |GoLines(s)| == |PushLines(s)|
    ensures GoLines(s) == PushLines(s) <==> CrOnlyInCrlf(s)
  {
    PushLast(s);
    if s == "" {
      return;
    }
    var i := Ts.EolIndex(s);
    PullLast(s, i);
    hide GoLines, PushLines;
    assert i < |s| ==> i == |s| - 1 && s[i] == CR && |s[..i]| < |s|;
    assert i == |s| ==> s[..i] == s;
  }

  lemma {:induction false} PushLast(s: string)
    requires !Ts.HasLine(s)
    ensures PushLines(s) == if s == "" then [] else [s]
  {
  }

  lemma {:induction false} PullLast(s: string, i: nat)
    requires s != "" && i <= |s| && (forall k :: 0 <= k < i ==> s[k] != CR && s[k] != LF)
    requires i < |s| ==> i == |s| - 1 && s[i] == CR
    ensures GoLines(s) == [s[..i]]
  {
    hide TrimEol;
    FirstPullLine(s, |s|);
    assert s[|s|..] == "" && s[..|s|] == s[..i] + s[i..];
    TrimEolIdentity(s[..i], s[i..]);
  }

  /** The push side sees a line for every line of the pull side. */
  lemma {:induction false} PushSeesMore(s: string)
    ensures |GoLines(s)| <= |PushLines(s)|
    decreases |s|
  {
    if Ts.HasLine(s) {
      PushSeesMore(s[Ts.NextLine(s)..]);
      FirstPushLine(s);
      if LoneCrFirst(s) {
        LoneCrIsNoLine(s);
      } else {
        FirstLinesAgree(s);
      }
    } else {
      LastLine(s);
    }
  }

  lemma {:induction false} FirstLineIsClean(s: string)
    requires Ts.HasLine(s)
    ensures CrOnlyInCrlf(s) <==> !LoneCrFirst(s) && CrOnlyInCrlf(s[Ts.NextLine(s)..])
  {
    var i, n := Ts.EolIndex(s), Ts.NextLine(s);
    var rest := s[n..];
    assert forall k :: n <= k < |s| ==> s[k] == rest[k - n];
    assert forall k :: 0 <= k < |rest| ==> rest[k] == s[n + k];
  }

  /** Both sides see the same lines if and only if every CR belongs to a CRLF. */
  lemma {:induction false} LinesAgreeExactly(s: string)
    ensures GoLines(s) == PushLines(s) <==> CrOnlyInCrlf(s)
    decreases |s|
  {
    hide GoLines, PushLines, CrOnlyInCrlf;
    if !Ts.HasLine(s) {
      LastLine(s);
    } else {
      var rest := s[Ts.NextLine(s)..];
      var first := [s[..Ts.EolIndex(s)]];
      FirstPushLine(s);
      FirstLineIsClean(s);
      if LoneCrFirst(s) {
        LoneCrIsNoLine(s);
        PushSeesMore(rest);
      } else {
        FirstLinesAgree(s);
        LinesAgreeExactly(rest);
        SameTail(first, GoLines(rest), PushLines(rest));
      }
    }
  }

  lemma {:induction false} SameTail<T>(a: seq<T>, b: seq<T>, c: seq<T>)
    ensures a + b == a + c <==> b == c
  {
    assert (a + b)[|a|..] == b && (a + c)[|a|..] == c;
  }

  /** A last non-blank line closes no block. */
  lemma {:induction false} UnfinishedLineClosesNothing(run: seq<string>, lines: seq<string>, last: string)
    requires last != ""
    ensures BlocksOf(run, lines + [last]).closed == BlocksOf(run, lines).closed
    decreases |lines|
  {
    var all := lines + [last];
    if lines == [] {
      assert all[1..] == [];
    } else {
      assert all[0] == lines[0] && all[1..] == lines[1..] + [last];
      UnfinishedLineClosesNothing(
        if lines[0] == "" then [] else run + [lines[0]], lines[1..], last);
    }
  }

  // --------------------------------------------------------------- messages

  /** What an application is handed; absent and empty are the same. */
  datatype Message = Message(event: string, id: string, data: string)

  function TsMessages(calls: seq<Ts.Callback>): seq<Message> {
    if calls == [] then []
    else MessagesOfOne(calls[0]) + TsMessages(calls[1..])
  }

  function MessagesOfOne(call: Ts.Callback): seq<Message> {
    match call
    case OnEvent(id, event, data) => [Message(event.GetOr(""), id.GetOr(""), data)]
    case _ => []
  }

  lemma {:induction false} TsMessagesAppend(a: seq<Ts.Callback>, b: seq<Ts.Callback>)
    ensures TsMessages(a + b) == TsMessages(a) + TsMessages(b)
  {
    if a == [] {
      assert a + b == b;
    } else {
      TsMessagesAppend(a[1..], b);
      assert (a + b)[0] == a[0] && (a + b)[1..] == a[1..] + b;
      FirstMessage(a);
      FirstMessage(a + b);
      hide TsMessages;
      AppendAssociates(MessagesOfOne(a[0]), TsMessages(a[1..]), TsMessages(b));
    }
  }

  lemma {:induction false} FirstMessage(calls: seq<Ts.Callback>)
    requires calls != []
    ensures TsMessages(calls) == MessagesOfOne(calls[0]) + TsMessages(calls[1..])
  {
  }

  /** The message of a block if it holds a data line, with that id. */
  function MessageOf(block: seq<string>, id: string): seq<Message> {
    if AllOf(block, Go.DataLine) == [] then []
    else [Message(Interpret(block).event, id, Interpret(block).data)]
  }

  function GoMessages(blocks: seq<seq<string>>): seq<Message> {
    if blocks == [] then [] else MessageOf(blocks[0], Interpret(blocks[0]).id) + GoMessages(blocks[1..])
  }

  // ----------------------------------------------------------------- blocks

  function AnyIdLine(line: string): Option<string> { Go.FieldOf(line, "id") }

  /** The value of the last id line, good or not. */
  function LastId(block: seq<string>): string {
    LastOf(block, AnyIdLine, "")
  }

  /** The id the push side makes of it: a NUL leaves it with none. */
  function PushedId(block: seq<string>): string {
    if NUL in LastId(block) then "" else LastId(block)
  }

  function PushedMessages(blocks: seq<seq<string>>): seq<Message> {
    if blocks == [] then [] else MessageOf(blocks[0], PushedId(blocks[0])) + PushedMessages(blocks[1..])
  }

  /** If the last id line of a block holds a NUL, there is no good one to fall back to. */
  predicate IdSettles(block: seq<string>) {
    NUL in LastId(block) ==> LastOf(block, Go.IdLine, "") == ""
  }

  /** That is so for every block with data. */
  predicate IdsSettle(blocks: seq<seq<string>>) {
    forall k :: 0 <= k < |blocks| && AllOf(blocks[k], Go.DataLine) != [] ==> IdSettles(blocks[k])
  }

  lemma {:induction false} LastGoodId(block: seq<string>)
    ensures NUL !in LastId(block) ==> LastOf(block, Go.IdLine, "") == LastId(block)
  {
    if block != [] {
      LastGoodId(block[..|block| - 1]);
    }
  }

  lemma {:induction false} MessagesAgreeExactly(blocks: seq<seq<string>>)
    ensures |PushedMessages(blocks)| == |GoMessages(blocks)|
    ensures PushedMessages(blocks) == GoMessages(blocks) <==> IdsSettle(blocks)
  {
    hide LastId, MessageOf, IdsSettle;
    if blocks != [] {
      var first, rest := blocks[0], blocks[1..];
      MessagesAgreeExactly(rest);
      MessageAgrees(first);
      SameParts(MessageOf(first, PushedId(first)), PushedMessages(rest),
                MessageOf(first, Interpret(first).id), GoMessages(rest));
      FirstSettles(blocks);
    } else {
      NothingToSettle();
    }
  }

  lemma {:induction false} FirstSettles(blocks: seq<seq<string>>)
    requires blocks != []
    ensures IdsSettle(blocks) <==> IdsSettle([blocks[0]]) && IdsSettle(blocks[1..])
  {
    hide IdSettles;
    assert forall k :: 0 <= k < |blocks| ==> blocks[k] == if k == 0 then [blocks[0]][0] else blocks[1..][k - 1];
    assert forall k :: 0 <= k < |blocks| - 1 ==> blocks[1..][k] == blocks[k + 1];
  }

  lemma {:induction false} NothingToSettle()
    ensures IdsSettle([])
  {
  }

  lemma {:induction false} MessageAgrees(block: seq<string>)
    ensures var a, b := MessageOf(block, PushedId(block)), MessageOf(block, Interpret(block).id);
            |a| == |b| && (a == b <==> IdsSettle([block]))
  {
    LastGoodId(block);
    assert [block][0] == block;
  }

  lemma {:induction false} SameParts<T>(a: seq<T>, b: seq<T>, c: seq<T>, d: seq<T>)
    requires |a| == |c|
    ensures a + b == c + d <==> a == c && b == d
  {
    assert (a + b)[..|a|] == a && (a + b)[|a|..] == b;
    assert (c + d)[..|c|] == c && (c + d)[|c|..] == d;
  }

  /** The push parser's variables when it has accumulated `block`. */
  predicate Tracks(f: Ts.Fields, block: seq<string>) {
    && f.eventType == LastOf(block, Go.EventLine, "")
    && f.id.GetOr("") == PushedId(block)
    && f.data == Render(AllOf(block, Go.DataLine))
  }

  lemma {:induction false} RenderSnoc(lines: seq<string>, last: string)
    ensures Render(lines + [last]) == Render(lines) + last + [LF]
  {
    RenderAppend(lines, [last]);
    assert Render([last]) == last + [LF];
  }

  lemma {:induction false} LineEffectByKind(f: Ts.Fields, line: string)
    requires line != ""
    ensures var e := Ts.LineEffect(f, line);
            && e.fields.eventType == Go.EventLine(line).GetOr(f.eventType)
            && e.fields.id.GetOr("") == (match AnyIdLine(line)
                                         case Some(id) => if NUL in id then "" else id
                                         case None => f.id.GetOr(""))
            && e.fields.data == (if Go.DataLine(line).Some? then f.data + FieldValue(line) + [LF] else f.data)
            && TsMessages(e.calls) == []
  {
    assert "event"[0] != "retry"[0];
    var calls := Ts.LineEffect(f, line).calls;
    assert |calls| <= 1;
    assert calls != [] ==> calls[1..] == [];
  }

  lemma {:induction false} TracksLine(f: Ts.Fields, block: seq<string>, line: string)
    requires Tracks(f, block) && line != ""
    ensures var e := Ts.LineEffect(f, line);
            Tracks(e.fields, block + [line]) && TsMessages(e.calls) == []
  {
    LastOfSnoc(block, line, Go.EventLine, "");
    LastOfSnoc(block, line, AnyIdLine, "");
    AllOfSnoc(block, line, Go.DataLine);
    LineEffectByKind(f, line);
    var data := AllOf(block, Go.DataLine);
    if Go.DataLine(line).Some? {
      RenderSnoc(data, FieldValue(line));
    } else {
      assert data + [] == data;
    }
  }

  lemma {:induction false} TracksBlank(f: Ts.Fields, block: seq<string>)
    requires Tracks(f, block)
    ensures TsMessages(Ts.Dispatched(f)) == MessageOf(block, PushedId(block))
  {
    var data := AllOf(block, Go.DataLine);
    if data != [] {
      RenderIsJoin(data);
      assert f.data[..|f.data| - 1] == Join(data);
      assert Ts.Dispatched(f)[1..] == [];
    }
  }

  /** The push parser, too, makes one message of every closed block with data. */
  lemma {:induction false} PushedBlocks(f: Ts.Fields, run: seq<string>, lines: seq<string>)
    requires Tracks(f, run)
    ensures TsMessages(Ts.LinesEffect(f, lines).calls) == PushedMessages(BlocksOf(run, lines).closed)
    decreases |lines|
  {
    hide PushedId, MessageOf, Tracks, Ts.LineEffect, Ts.Dispatched, TsMessages;
    NoMessages();
    if lines != [] {
      var line, rest := lines[0], lines[1..];
      var e := Ts.LineEffect(f, line);
      TsMessagesAppend(e.calls, Ts.LinesEffect(e.fields, rest).calls);
      if line != "" {
        TracksLine(f, run, line);
        PushedBlocks(e.fields, run + [line], rest);
      } else {
        TracksBlank(f, run);
        TracksNothing();
        BlankLineEffect(f);
        PushedBlocks(e.fields, [], rest);
        var closed := BlocksOf([], rest).closed;
        if run != [] {
          assert ([run] + closed)[1..] == closed;
        }
      }
    }
  }

  lemma {:induction false} NoMessages()
    ensures TsMessages([]) == []
  {
  }

  lemma {:induction false} BlankLineEffect(f: Ts.Fields)
    ensures Ts.LineEffect(f, "") == Ts.Effect(Ts.NO_FIELDS, Ts.Dispatched(f))
  {
  }

  lemma {:induction false} TracksNothing()
    ensures Tracks(Ts.NO_FIELDS, []) && forall id :: MessageOf([], id) == []
  {
  }

  /** What the push parser makes of any stream, lone CRs and all, in terms of its own lines. */
  lemma {:induction false} PushMeaning(chunks: seq<string>)
    requires chunks != [] && !SseChunks.MarkSurvives(chunks)
    ensures var input := StripBom(Concat(chunks));
            TsMessages(Ts.FeedAllEffect(Ts.FRESH, chunks).calls) ==
            PushedMessages(BlocksOf([], PushLines(input)).closed)
  {
    var input := StripBom(Concat(chunks));
    SseChunks.ChunkInvariance(Ts.FRESH, chunks);
    assert "" + input == input;
    var ls := Ts.LinesOf(input);
    if ls.incomplete != "" {
      UnfinishedLineClosesNothing([], ls.complete, ls.incomplete);
    } else {
      assert ls.complete + [] == ls.complete;
    }
    TracksNothing();
    PushedBlocks(Ts.NO_FIELDS, [], ls.complete);
  }

  /**
   However a stream whose CRs belong to CRLFs is cut into chunks: the push parser dispatches
   exactly the messages of the blocks the pull reader returns without error, if and only if in
   each of those with data an id line with a NUL that comes last has no good id before it.
   */
  lemma {:induction false} TwoParsersAgree(chunks: seq<string>)
    requires chunks != [] && !SseChunks.MarkSurvives(chunks)
    requires CrOnlyInCrlf(StripBom(Concat(chunks)))
    ensures var input := StripBom(Concat(chunks));
            var closed := BlocksOf([], GoLines(input)).closed;
            && Drain(Go.UNTOUCHED, input).events == InterpretAll(closed)
            && (TsMessages(Ts.FeedAllEffect(Ts.FRESH, chunks).calls) == GoMessages(closed) <==> IdsSettle(closed))
  {
    var input := StripBom(Concat(chunks));
    StreamMeaning(input);
    PushMeaning(chunks);
    LinesAgreeExactly(input);
    MessagesAgreeExactly(BlocksOf([], GoLines(input)).closed);
  }

  // ------------------------------------------------------ where they part ways

  /** The messages of a stream that is fed whole, and those the pull reader makes of it. */
  predicate AgreeOn(input: string) {
    TsMessages(Ts.FeedEffect(Ts.FRESH, input).calls) == GoMessages(BlocksOf([], GoLines(StripBom(input))).closed)
  }

  lemma {:induction false} CleanMessages(calls: seq<Ts.Callback>)
    requires CleanCalls(calls)
    ensures forall m :: m in TsMessages(calls) ==> CR !in m.data && NUL !in m.id
  {
    if calls != [] {
      assert CleanCall(calls[0]);
      CleanMessages(calls[1..]);
    }
  }

  /** Whatever the stream, what the push parser dispatches holds no CR, and its ids no NUL. */
  lemma {:induction false} PushedIsClean(input: string)
    ensures forall m :: m in TsMessages(Ts.FeedEffect(Ts.FRESH, input).calls) ==> CR !in m.data && NUL !in m.id
  {
    var lines := Ts.LinesOf("" + StripBom(input)).complete;
    SplitLinesAreEolFree("" + StripBom(input));
    CleanLines(Ts.NO_FIELDS, lines);
    CleanMessages(Ts.LinesEffect(Ts.NO_FIELDS, lines).calls);
  }

  /** A block on the wire. */
  lemma {:induction false} OneBlockStream(block: seq<string>)
    requires block != [] && NonBlank(block) && CarriedLines(block) && block[0][0] != BOM[0]
    ensures var input := Render(block + [""]);
            StripBom(input) == input && BlocksOf([], GoLines(input)).closed == [block]
  {
    var input := Render(block + [""]);
    RenderedLines(block + [""]);
    OneBlock([], block, []);
    assert block + [""] + [] == block + [""] && [] + block == block;
    assert input[0] == block[0][0];
  }

  lemma {:induction false} OneDataLine(value: string)
    ensures GoMessages([[FieldLine("data", value)]]) == [Message("", "", value)]
  {
    hide FieldLine;
    var line := FieldLine("data", value);
    assert [] + [line] == [line] && [[line]][1..] == [];
    PrintedField([], "data", value);
    assert Accumulated([line]) == Accumulated([]).(dataLines := [value], touched := true);
  }

  /** A data line with a CR inside it stays whole at the pull reader; the push parser ends a line there. */
  lemma {:induction false} LoneCrDisagrees(a: string, b: string)
    requires LF !in a && LF !in b && CR !in b && b != ""
    ensures !AgreeOn(Render([FieldLine("data", a + [CR] + b), ""]))
  {
    hide Render, GoLines, BlocksOf, StripBom, CarriedLines, TsMessages, GoMessages;
    var value := a + [CR] + b;
    var line := FieldLine("data", value);
    CarriedField("data", value);
    CarriedOne(line);
    OneBlockStream([line]);
    assert [line] + [""] == [line, ""];
    OneDataLine(value);
    PushedIsClean(Render([line, ""]));
    assert value[|a|] == CR;
  }

  lemma {:induction false} CarriedOne(line: string)
    requires Carried(line)
    ensures CarriedLines([line])
  {
  }

  /** The lines of an event with a good id, an id with a NUL, and one line of data. */
  function TwoIds(id: string, bad: string, data: string): seq<string> {
    [FieldLine("id", id)] + [FieldLine("id", bad)] + [FieldLine("data", data)]
  }

  lemma {:induction false} TwoIdsClash(id: string, bad: string, data: string)
    requires NUL !in id && NUL in bad
    ensures var block := TwoIds(id, bad, data);
            LastId(block) == bad && LastOf(block, Go.IdLine, "") == id && AllOf(block, Go.DataLine) == [data]
  {
    hide FieldLine;
    var a := [FieldLine("id", id)];
    var b := a + [FieldLine("id", bad)];
    assert [] + a == a;
    PrintedField([], "id", id);
    PrintedField(a, "id", bad);
    PrintedField(b, "data", data);
    assert Accumulated(TwoIds(id, bad, data)).dataLines == [data];
    FieldLineIs("id", bad);
    FieldLineIs("data", data);
    hide Accumulated, LastOf, AllOf;
    LastOfSnoc(a, FieldLine("id", bad), AnyIdLine, "");
    LastOfSnoc(b, FieldLine("data", data), AnyIdLine, "");
  }

  lemma {:induction false} RenderCrFree(lines: seq<string>)
    requires EolFreeLines(lines)
    ensures CR !in Render(lines)
  {
    if lines != [] {
      RenderCrFree(lines[1..]);
    }
  }

  /** After an id with a NUL the pull reader keeps the earlier id; the push parser has none. */
  lemma {:induction false} NulIdDisagrees(id: string, bad: string, data: string)
    requires id != "" && EolFree(id) && NUL !in id
    requires EolFree(bad) && NUL in bad && EolFree(data)
    ensures !AgreeOn(Render(TwoIds(id, bad, data) + [""]))
  {
    hide Render, GoLines, BlocksOf, StripBom, TsMessages, GoMessages, Ts.FeedEffect, LastId;
    var block := TwoIds(id, bad, data);
    var input := Render(block + [""]);
    CarriedField("id", id);
    CarriedField("id", bad);
    CarriedField("data", data);
    EolFreeField("id", id);
    EolFreeField("id", bad);
    EolFreeField("data", data);
    OneBlockStream(block);
    RenderCrFree(block + [""]);
    FedWhole(input);
    TwoParsersAgree([input]);
    TwoIdsClash(id, bad, data);
    assert [block][0] == block;
  }

  lemma {:induction false} FedWhole(input: string)
    ensures Concat([input]) == input && !SseChunks.MarkSurvives([input])
    ensures Ts.FeedAllEffect(Ts.FRESH, [input]).calls == Ts.FeedEffect(Ts.FRESH, input).calls
  {
    assert [input][1..] == [] && Concat([]) == "" && input + "" == input;
    assert Concat([input]) == input;
    SseChunks.ChunkInvariance(Ts.FRESH, [input]);
  }
}
