/**
 The two Go printers of the event-stream format: the Writer callback of
 `BaseSSEConn` (http/sseconn.go) and `writeSSEEvent` (http/streamable.go).
 */
module SsePrinter {
  import opened Wrappers
  import opened Text
  import opened SseSyntax
  import opened Decimal

  /** `Data`, after the codec has run. */
  datatype Payload = NoData | Encoded(bytes: string) | Unencodable

  datatype OutgoingMessage = OutgoingMessage(
    data: Payload, event: string, id: string, retry: GoInt, comment: string)

  /** `Data` of a stream event, with what the codec and `json.Marshal` make of it; `None` is an error. */
  datatype StreamData = NoStreamData | Value(codec: Option<string>, json: Option<string>)

  datatype StreamEvent = StreamEvent(event: string, id: string, data: StreamData)

  /** The bytes of the data: the codec's, or else those of `json.Marshal`, or else none. */
  function StreamBytes(data: StreamData): Option<string> {
    match data
    case NoStreamData => None
    case Value(codec, json) => Some(codec.GetOr(json.GetOr("")))
  }

  /** The lines of a stream event before the blank line. */
  function StreamEventLines(e: StreamEvent): seq<string> {
    OptionalField("event", e.event) + OptionalField("id", e.id) +
    match StreamBytes(e.data)
    case Some(bytes) => DataFields(Split(bytes))
    case None => []
  }

  // ------------------------------------------------------------ what is printed

  function OptionalField(name: string, value: string): seq<string> {
    if value == "" then [] else [FieldLine(name, value)]
  }

  function RetryField(retry: GoInt): seq<string> {
    if retry > 0 then [FieldLine("retry", Print(retry))] else []
  }

  function DataFields(pieces: seq<string>): seq<string> {
    if pieces == [] then [] else [FieldLine("data", pieces[0])] + DataFields(pieces[1..])
  }

  /** The lines of a message before the blank line; none if it prints nothing. */
  function MessageLines(m: OutgoingMessage): seq<string> {
    if m.comment != "" then [FieldLine("", m.comment)]
    else
      match m.data
      case NoData => RetryField(m.retry)
      case Unencodable => []
      case Encoded(bytes) =>
        OptionalField("event", m.event) + OptionalField("id", m.id) + RetryField(m.retry) +
        DataFields(Split(bytes))
  }

  function MessageText(m: OutgoingMessage): string {
    var lines := MessageLines(m);
    if lines == [] then "" else Render(lines + [""])
  }

  function StreamEventText(e: StreamEvent): string {
    Render(StreamEventLines(e) + [""])
  }

  function PrintAll(ms: seq<OutgoingMessage>): string {
    if ms == [] then "" else MessageText(ms[0]) + PrintAll(ms[1..])
  }

  /** The second printer writes what the first does for a message with that data and no hint. */
  lemma {:induction false} PrintersAgree(e: StreamEvent)
    requires e.data.Value?
    ensures var m := OutgoingMessage(Encoded(StreamBytes(e.data).value), e.event, e.id, 0, "");
            StreamEventLines(e) == MessageLines(m) && StreamEventText(e) == MessageText(m)
  {
    var head := OptionalField("event", e.event) + OptionalField("id", e.id);
    assert head + RetryField(0) == head;
  }

  // ------------------------------------------------------------ byte for byte

  /** The data lines of some data, as text. */
  function DataText(bytes: string): string {
    Render(DataFields(Split(bytes)))
  }

  /** Each line of the data becomes a data line; these two facts say so for any data. */
  lemma {:induction false} DataTextIs(a: string, b: string)
    ensures LF !in a ==> DataText(a) == "data: " + a + "\n"
    ensures DataText(a + "\n" + b) == DataText(a) + DataText(b)
  {
    if LF !in a {
      IndexOfAbsent(a, LF);
      assert Split(a)[1..] == [] && DataFields([]) == [];
      FieldTexts(a);
    }
    SplitConcat(a, b);
    DataFieldsAppend(Split(a), Split(b));
    RenderAppend(DataFields(Split(a)), DataFields(Split(b)));
  }

  /** One line, spelled out. */
  lemma {:induction false} FieldTexts(value: string)
    ensures Render([FieldLine("data", value)]) == "data: " + value + "\n"
    ensures Render([FieldLine("event", value)]) == "event: " + value + "\n"
    ensures Render([FieldLine("id", value)]) == "id: " + value + "\n"
    ensures Render([FieldLine("retry", value)]) == "retry: " + value + "\n"
    ensures Render([FieldLine("", value)]) == ": " + value + "\n"
  {
    hide Render;
    OneLineText(FieldLine("data", value));
    OneLineText(FieldLine("event", value));
    OneLineText(FieldLine("id", value));
    OneLineText(FieldLine("retry", value));
    OneLineText(FieldLine("", value));
  }

  lemma {:induction false} OneLineText(line: string)
    ensures Render([line]) == line + "\n"
  {
    assert [line][1..] == [] && line + [LF] + "" == line + "\n";
  }

  lemma {:induction false} SplitWhole(s: string)
    requires LF !in s
    ensures Split(s) == [s]
  {
    IndexOfAbsent(s, LF);
  }

  lemma {:induction false} SplitConcat(a: string, b: string)
    ensures Split(a + "\n" + b) == Split(a) + Split(b)
    decreases |a|
  {
    hide Split;
    var i := IndexOf(a, LF);
    if i == |a| {
      assert a[..i] == a && LF !in a;
      SplitFirst(a, b);
      SplitWhole(a);
    } else {
      var first, rest := a[..i], a[i + 1..];
      assert a == first + [LF] + rest && LF !in first;
      SplitConcat(rest, b);
      assert a + "\n" + b == first + [LF] + (rest + "\n" + b);
      SplitFirst(first, rest + "\n" + b);
      SplitFirst(first, rest);
      AppendAssociates([first], Split(rest), Split(b));
    }
  }

  lemma {:induction false} DataFieldsAppend(a: seq<string>, b: seq<string>)
    ensures DataFields(a + b) == DataFields(a) + DataFields(b)
  {
    if a == [] {
      assert a + b == b;
    } else {
      DataFieldsAppend(a[1..], b);
      assert (a + b)[0] == a[0] && (a + b)[1..] == a[1..] + b;
      AppendAssociates([FieldLine("data", a[0])], DataFields(a[1..]), DataFields(b));
    }
  }

  /** The bytes of a message, field by field in the order they are written. */
  lemma {:induction false} MessageTextIs(m: OutgoingMessage)
    ensures m.comment != "" ==> MessageText(m) == ": " + m.comment + "\n\n"
    ensures m.comment == "" && m.data.Unencodable? ==> MessageText(m) == ""
    ensures m.comment == "" && m.data.NoData? ==>
              MessageText(m) == if m.retry > 0 then "retry: " + Print(m.retry) + "\n\n" else ""
    ensures m.comment == "" && m.data.Encoded? ==>
              MessageText(m) ==
              (if m.event == "" then "" else "event: " + m.event + "\n") +
              (if m.id == "" then "" else "id: " + m.id + "\n") +
              (if m.retry > 0 then "retry: " + Print(m.retry) + "\n" else "") +
              DataText(m.data.bytes) + "\n"
  {
    hide Render, FieldLine;
    RenderAppend(MessageLines(m), [""]);
    OneLineText("");
    if m.comment != "" {
      FieldTexts(m.comment);
    } else if m.data.NoData? {
      FieldTexts(Print(if m.retry > 0 then m.retry else 0));
    } else if m.data.Encoded? {
      DataIsNotEmpty(m.data.bytes);
      HeadText(m.event, m.id, m.retry, DataFields(Split(m.data.bytes)));
    }
  }

  lemma {:induction false} DataIsNotEmpty(bytes: string)
    ensures DataFields(Split(bytes)) != []
  {
  }

  lemma {:induction false} HeadText(event: string, id: string, retry: GoInt, data: seq<string>)
    ensures Render(OptionalField("event", event) + OptionalField("id", id) + RetryField(retry) + data) ==
            (if event == "" then "" else "event: " + event + "\n") +
            (if id == "" then "" else "id: " + id + "\n") +
            (if retry > 0 then "retry: " + Print(retry) + "\n" else "") + Render(data)
  {
    hide Render, FieldLine;
    var a, b, c := OptionalField("event", event), OptionalField("id", id), RetryField(retry);
    RenderAppend(a + b + c, data);
    RenderAppend(a + b, c);
    RenderAppend(a, b);
    RenderNothing();
    FieldTexts(event);
    FieldTexts(id);
    FieldTexts(Print(if retry > 0 then retry else 0));
  }

  lemma {:induction false} RenderNothing()
    ensures Render([]) == ""
  {
  }

  /** The bytes of a stream event: data from the codec, or from `json.Marshal` only if that fails. */
  lemma {:induction false} StreamEventTextIs(event: string, id: string, bytes: string, json: Option<string>)
    ensures var head := (if event == "" then "" else "event: " + event + "\n") +
                        (if id == "" then "" else "id: " + id + "\n");
            && StreamEventText(StreamEvent(event, id, NoStreamData)) == head + "\n"
            && StreamEventText(StreamEvent(event, id, Value(Some(bytes), json))) == head + DataText(bytes) + "\n"
            && StreamEventText(StreamEvent(event, id, Value(None, Some(bytes)))) == head + DataText(bytes) + "\n"
            && StreamEventText(StreamEvent(event, id, Value(None, None))) == head + "data: \n\n"
  {
    DataTextIs("", "");
    StreamHead(event, id, NoStreamData);
    StreamHead(event, id, Value(Some(bytes), json));
    StreamHead(event, id, Value(None, Some(bytes)));
    StreamHead(event, id, Value(None, None));
  }

  lemma {:induction false} StreamHead(event: string, id: string, data: StreamData)
    ensures StreamEventText(StreamEvent(event, id, data)) ==
            (if event == "" then "" else "event: " + event + "\n") +
            (if id == "" then "" else "id: " + id + "\n") +
            (match StreamBytes(data)
             case Some(bytes) => DataText(bytes)
             case None => "") + "\n"
  {
    var lines := match StreamBytes(data)
      case Some(bytes) => DataFields(Split(bytes))
      case None => [];
    var head := OptionalField("event", event) + OptionalField("id", id);
    assert head + RetryField(0) == head;
    HeadText(event, id, 0, lines);
    RenderAppend(head + lines, [""]);
    OneLineText("");
  }

  // ---------------------------------------------------------------- the loops

  /** A ResponseWriter: what has been written to it. */
  class ResponseWriter {
    var written: string

    constructor ()
      ensures written == ""
    {
      written := "";
    }

    /** `fmt.Fprintf(w, "%s\n", line)`, where `lines` have been written since `start`. */
    method PrintLine(line: string, ghost start: string, ghost lines: seq<string>)
      requires written == start + Render(lines)
      modifies this
      ensures written == start + Render(lines + [line])
    {
      RenderSnoc(start, lines, line);
      written := written + (line + [LF]);
    }

    method PrintData(data: string, ghost start: string, ghost lines: seq<string>)
      requires written == start + Render(lines)
      modifies this
      ensures written == start + Render(lines + DataFields(Split(data)))
    {
      var pieces := Split(data);
      assert lines + DataFields([]) == lines;
      for i := 0 to |pieces|
        invariant written == start + Render(lines + DataFields(pieces[..i]))
      {
        DataFieldsSnoc(pieces, i);
        AppendAssociates(lines, DataFields(pieces[..i]), [FieldLine("data", pieces[i])]);
        PrintLine(FieldLine("data", pieces[i]), start, lines + DataFields(pieces[..i]));
      }
      assert pieces[..|pieces|] == pieces;
    }

    /** The Writer callback; `false` is the codec's error. */
    method WriteMessage(msg: OutgoingMessage) returns (ok: bool)
      modifies this
      ensures written == old(written) + MessageText(msg)
      ensures ok == !(msg.comment == "" && msg.data.Unencodable?)
    {
      ghost var start := written;
      assert start + Render([]) == start;
      if msg.comment != "" {
        PrintLine(FieldLine("", msg.comment), start, []);
        PrintLine("", start, MessageLines(msg));
        return true;
      }
      if msg.data.NoData? && msg.retry > 0 {
        PrintLine(FieldLine("retry", Print(msg.retry)), start, []);
        PrintLine("", start, MessageLines(msg));
        return true;
      }
      if !msg.data.NoData? {
        if msg.data.Unencodable? {
          return false;
        }
        ghost var lines := OptionalField("event", msg.event);
        if msg.event != "" {
          PrintLine(FieldLine("event", msg.event), start, []);
        }
        if msg.id != "" {
          PrintLine(FieldLine("id", msg.id), start, lines);
        }
        NoneAppended(lines);
        lines := lines + OptionalField("id", msg.id);
        if msg.retry > 0 {
          PrintLine(FieldLine("retry", Print(msg.retry)), start, lines);
        }
        NoneAppended(lines);
        lines := lines + RetryField(msg.retry);
        PrintData(msg.data.bytes, start, lines);
        lines := lines + DataFields(Split(msg.data.bytes));
        PrintLine("", start, lines);
      }
      return true;
    }

    method WriteStreamEvent(event: StreamEvent)
      modifies this
      ensures written == old(written) + StreamEventText(event)
    {
      ghost var start := written;
      assert start + Render([]) == start;
      ghost var lines := OptionalField("event", event.event);
      if event.event != "" {
        PrintLine(FieldLine("event", event.event), start, []);
      }
      if event.id != "" {
        PrintLine(FieldLine("id", event.id), start, lines);
      }
      NoneAppended(lines);
      lines := lines + OptionalField("id", event.id);
      if event.data.Value? {
        var data := "";
        if event.data.codec.Some? {
          data := event.data.codec.value;
        } else if event.data.json.Some? {
          data := event.data.json.value;
        }
        PrintData(data, start, lines);
      }
      NoneAppended(lines);
      PrintLine("", start, StreamEventLines(event));
    }
  }

  lemma {:induction false} RenderSnoc(start: string, lines: seq<string>, line: string)
    ensures start + Render(lines + [line]) == start + Render(lines) + (line + [LF])
  {
    RenderAppend(lines, [line]);
    assert [line][1..] == [] && Render([line]) == line + [LF];
    AppendAssociates(start, Render(lines), line + [LF]);
  }

  lemma {:induction false} DataFieldsSnoc(pieces: seq<string>, i: nat)
    requires i < |pieces|
    ensures DataFields(pieces[..i + 1]) == DataFields(pieces[..i]) + [FieldLine("data", pieces[i])]
  {
    if i == 0 {
      assert pieces[..1] == [pieces[0]] && [pieces[0]][1..] == [];
    } else {
      DataFieldsSnoc(pieces[1..], i - 1);
      assert pieces[..i + 1][1..] == pieces[1..][..i] && pieces[..i][1..] == pieces[1..][..i - 1];
    }
  }
}
