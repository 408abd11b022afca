/**
 The second Go printer (`writeSSEEvent` in http/streamable.go) followed by either parser. An
 event without data is surfaced by the pull reader, if it has a type or an id, and dropped by
 the push parser.
 */
module SseStreamEvents {
  import opened Wrappers
  import opened Text
  import opened SseSyntax
  import opened SsePrinter
  import opened SseReader
  import opened SseStream
  import opened SseChunks
  import opened SseGoRoundTrip
  import opened SseTsRoundTrip
  import Ts = SseParser

  function PrintEvents(es: seq<StreamEvent>): string {
    if es == [] then "" else StreamEventText(es[0]) + PrintEvents(es[1..])
  }

  function EventLinesAll(es: seq<StreamEvent>): seq<string> {
    if es == [] then [] else StreamEventLines(es[0]) + [""] + EventLinesAll(es[1..])
  }

  lemma {:induction false} PrintEventsIsRender(es: seq<StreamEvent>)
    ensures PrintEvents(es) == Render(EventLinesAll(es))
  {
    hide StreamEventLines;
    if es != [] {
      PrintEventsIsRender(es[1..]);
      RenderAppend(StreamEventLines(es[0]) + [""], EventLinesAll(es[1..]));
    }
  }

  lemma {:induction false} EventsNeverMarked(es: seq<StreamEvent>)
    ensures !StartsWith(PrintEvents(es), BOM)
  {
    if es != [] {
      var lines := StreamEventLines(es[0]) + [""];
      EventStartsPlainly(es[0]);
      assert StreamEventText(es[0]) == lines[0] + [LF] + Render(lines[1..]);
      assert PrintEvents(es)[0] == if lines[0] == "" then LF else lines[0][0];
      assert BOM[0] == '\U{EF}';
    }
  }

  lemma {:induction false} EventStartsPlainly(e: StreamEvent)
    ensures AllStartPlainly(StreamEventLines(e))
  {
    if e.data.Value? {
      DataStartsPlainly(Split(StreamBytes(e.data).value));
    }
  }

  // --------------------------------------------------------- the pull reader

  /** What the caller must check before sending. */
  predicate ReadableEvent(e: StreamEvent) {
    && Carried(e.event) && Carried(e.id) && NUL !in e.id
    && (e.data.Value? ==> CarriedData(StreamBytes(e.data).value))
  }

  /** Events that print nothing but a blank line are not seen. */
  predicate Surfaces(e: StreamEvent) {
    e.event != "" || e.id != "" || e.data.Value?
  }

  function ReceivedEvent(e: StreamEvent): ReadEvent {
    ReadEvent(e.event, StreamBytes(e.data).GetOr(""), e.id, 0, "")
  }

  function ReceivedEvents(es: seq<StreamEvent>): seq<ReadEvent> {
    if es == [] then []
    else (if Surfaces(es[0]) then [ReceivedEvent(es[0])] else []) + ReceivedEvents(es[1..])
  }

  function EventsReadBack(es: seq<StreamEvent>): Drained {
    Drain(UNTOUCHED, StripBom(PrintEvents(es)))
  }

  lemma {:induction false} EventBlock(e: StreamEvent)
    requires NUL !in e.id
    ensures Interpret(StreamEventLines(e)) == ReceivedEvent(e)
    ensures Surfaces(e) <==> StreamEventLines(e) != []
  {
    if e.data.Value? {
      PrintersAgree(e);
      MessageBlock(OutgoingMessage(Encoded(StreamBytes(e.data).value), e.event, e.id, 0, ""));
      assert DataFields(Split(StreamBytes(e.data).value)) != [];
    } else {
      assert Accumulated([]) == UNTOUCHED;
      assert forall l: seq<string> :: [] + l == l;
      PrintedOptional([], "event", e.event);
      PrintedOptional(OptionalField("event", e.event), "id", e.id);
      NoneAppended(OptionalField("event", e.event) + OptionalField("id", e.id));
    }
  }

  lemma {:induction false} ReadableEventLines(e: StreamEvent)
    requires ReadableEvent(e)
    ensures CarriedLines(StreamEventLines(e)) && NonBlank(StreamEventLines(e))
  {
    CarriedField("event", e.event);
    CarriedField("id", e.id);
    if e.data.Value? {
      CarriedDataFields(Split(StreamBytes(e.data).value));
    }
  }

  lemma {:induction false} EventsMean(es: seq<StreamEvent>)
    requires forall e :: e in es ==> ReadableEvent(e)
    ensures Meaning(BlocksOf([], EventLinesAll(es))) == Drained(ReceivedEvents(es), ZERO_EVENT)
    ensures CarriedLines(EventLinesAll(es))
  {
    hide StreamEventLines, ReadableEvent, Interpret, ReceivedEvent, Surfaces;
    if es != [] {
      var e, rest := es[0], EventLinesAll(es[1..]);
      EventsMean(es[1..]);
      IdIsNulFree(e);
      EventBlock(e);
      ReadableEventLines(e);
      if Surfaces(e) {
        FrameOnWire(StreamEventLines(e), rest);
      } else {
        assert [] + [""] + rest == [""] + rest && ([""] + rest)[1..] == rest;
        assert [] + ReceivedEvents(es[1..]) == ReceivedEvents(es[1..]);
      }
    }
  }

  lemma {:induction false} IdIsNulFree(e: StreamEvent)
    requires ReadableEvent(e)
    ensures NUL !in e.id
  {
  }

  lemma {:induction false} EverySurfacedIsReceived(es: seq<StreamEvent>, e: StreamEvent)
    requires e in es && Surfaces(e)
    ensures ReceivedEvent(e) in ReceivedEvents(es)
  {
    if e != es[0] {
      EverySurfacedIsReceived(es[1..], e);
    }
  }

  lemma {:induction false} OnlyReadableEventsComeBack(es: seq<StreamEvent>)
    requires EventsReadBack(es).events == ReceivedEvents(es)
    ensures forall e :: e in es ==> ReadableEvent(e)
  {
    hide ReceivedEvent;
    var input := StripBom(PrintEvents(es));
    StreamMeaning(input);
    StreamLinesAreCarried(input);
    BlocksAreCarried([], GoLines(input));
    InterpretAllCarried(BlocksOf([], GoLines(input)).closed);
    forall e | e in es
      ensures ReadableEvent(e)
    {
      if Surfaces(e) {
        EverySurfacedIsReceived(es, e);
      }
      CarriedIsReadable(e);
    }
  }

  lemma {:induction false} CarriedIsReadable(e: StreamEvent)
    requires Surfaces(e) ==> CarriedEvent(ReceivedEvent(e))
    ensures ReadableEvent(e)
  {
  }

  /**
   The pull reader returns the events in order, those without data too, and nothing else, if
   and only if every printed text is one a line can carry.
   */
  lemma {:induction false} EventsReadBackExactly(es: seq<StreamEvent>)
    ensures EventsReadBack(es) == Drained(ReceivedEvents(es), ZERO_EVENT) <==>
            forall e :: e in es ==> ReadableEvent(e)
  {
    if forall e :: e in es ==> ReadableEvent(e) {
      EventsNeverMarked(es);
      PrintEventsIsRender(es);
      EventsMean(es);
      RenderedLines(EventLinesAll(es));
      StreamMeaning(PrintEvents(es));
    } else if EventsReadBack(es).events == ReceivedEvents(es) {
      OnlyReadableEventsComeBack(es);
    }
  }

  // --------------------------------------------------------- the push parser

  predicate DispatchableEvent(e: StreamEvent) {
    && EolFree(e.event) && EolFree(e.id)
    && (e.data.Value? ==> NUL !in e.id && CR !in StreamBytes(e.data).value)
  }

  function ExpectedEvent(e: StreamEvent): seq<Ts.Callback> {
    match StreamBytes(e.data)
    case Some(bytes) => [Ts.OnEvent(NonEmpty(e.id), NonEmpty(e.event), bytes)]
    case None => []
  }

  function ExpectedEvents(es: seq<StreamEvent>): seq<Ts.Callback> {
    if es == [] then [] else ExpectedEvent(es[0]) + ExpectedEvents(es[1..])
  }

  lemma {:induction false} SilentField(f: Ts.Fields, name: string, value: string)
    requires name == "event" || name == "id"
    ensures var e := Ts.LinesEffect(f, OptionalField(name, value));
            e.calls == [] && e.fields.data == f.data
  {
    if value != "" {
      PrintedEffect(f, name, value);
      OneLineEffect(f, FieldLine(name, value));
    }
  }

  lemma {:induction false} EventEffect(e: StreamEvent)
    requires e.data.Value? ==> NUL !in e.id
    ensures Ts.LinesEffect(Ts.NO_FIELDS, StreamEventLines(e) + [""]) == Ts.Effect(Ts.NO_FIELDS, ExpectedEvent(e))
  {
    if e.data.Value? {
      var m := OutgoingMessage(Encoded(StreamBytes(e.data).value), e.event, e.id, 0, "");
      PrintersAgree(e);
      DataMessageEffect(m);
    } else {
      var a, b := OptionalField("event", e.event), OptionalField("id", e.id);
      var f1 := Ts.LinesEffect(Ts.NO_FIELDS, a).fields;
      var f2 := Ts.LinesEffect(f1, b).fields;
      SilentField(Ts.NO_FIELDS, "event", e.event);
      SilentField(f1, "id", e.id);
      Chain(Ts.NO_FIELDS, a, f1, [], b, f2, []);
      NoneAppended(a + b);
      OneLineEffect(f2, "");
      Chain(Ts.NO_FIELDS, a + b, f2, [], [""], Ts.NO_FIELDS, []);
    }
  }

  lemma {:induction false} DispatchableEventLines(e: StreamEvent)
    requires DispatchableEvent(e)
    ensures EolFreeLines(StreamEventLines(e) + [""])
  {
    EolFreeField("event", e.event);
    EolFreeField("id", e.id);
    if e.data.Value? {
      SplitKeepsCrFree(StreamBytes(e.data).value);
      EolFreeDataFields(Split(StreamBytes(e.data).value));
    }
  }

  lemma {:induction false} EventsEffect(es: seq<StreamEvent>)
    requires forall e :: e in es ==> DispatchableEvent(e)
    ensures EolFreeLines(EventLinesAll(es))
    ensures Ts.LinesEffect(Ts.NO_FIELDS, EventLinesAll(es)) == Ts.Effect(Ts.NO_FIELDS, ExpectedEvents(es))
  {
    hide StreamEventLines, ExpectedEvent;
    if es != [] {
      var e, rest := es[0], es[1..];
      EventsEffect(rest);
      DispatchableEventLines(e);
      EventEffect(e);
      Chain(Ts.NO_FIELDS, StreamEventLines(e) + [""], Ts.NO_FIELDS, ExpectedEvent(e),
            EventLinesAll(rest), Ts.NO_FIELDS, ExpectedEvents(rest));
    }
  }

  lemma {:induction false} WholeEventStream(es: seq<StreamEvent>, chunks: seq<string>)
    requires chunks != [] && Concat(chunks) == PrintEvents(es)
    ensures var ls := Ts.LinesOf(PrintEvents(es));
            var e := Ts.LinesEffect(Ts.NO_FIELDS, ls.complete);
            Ts.FeedAllEffect(Ts.FRESH, chunks) == Ts.Outcome(Ts.State(ls.incomplete, false, e.fields), e.calls)
  {
    EventsNeverMarked(es);
    ChunkInvariance(Ts.FRESH, chunks);
    assert "" + PrintEvents(es) == PrintEvents(es);
  }

  lemma {:induction false} EveryExpectedEvent(es: seq<StreamEvent>, e: StreamEvent)
    requires e in es && CleanCalls(ExpectedEvents(es))
    ensures CleanCalls(ExpectedEvent(e))
  {
    var first, rest := ExpectedEvent(es[0]), ExpectedEvents(es[1..]);
    assert forall k :: 0 <= k < |first| ==> (first + rest)[k] == first[k];
    assert forall k :: 0 <= k < |rest| ==> (first + rest)[|first| + k] == rest[k];
    if e != es[0] {
      EveryExpectedEvent(es[1..], e);
    }
  }

  /**
   Under any chunking the push parser dispatches exactly the events with data, and ends idle,
   if and only if it can carry their texts; the types and ids of events without data, which it
   drops, must not hold line ends.
   */
  lemma {:induction false} EventsArriveExactly(es: seq<StreamEvent>, chunks: seq<string>)
    requires chunks != [] && Concat(chunks) == PrintEvents(es)
    requires forall e :: e in es && e.data.NoStreamData? ==> EolFree(e.event) && EolFree(e.id)
    ensures Ts.FeedAllEffect(Ts.FRESH, chunks) == Ts.Outcome(IDLE, ExpectedEvents(es)) <==>
            forall e :: e in es ==> DispatchableEvent(e)
  {
    hide Ts.LinesOf, Ts.LinesEffect, Ts.FeedAllEffect;
    WholeEventStream(es, chunks);
    if forall e :: e in es ==> DispatchableEvent(e) {
      PrintEventsIsRender(es);
      EventsEffect(es);
      RenderedSplits(EventLinesAll(es));
    } else if Ts.FeedAllEffect(Ts.FRESH, chunks).calls == ExpectedEvents(es) {
      SplitLinesAreEolFree(PrintEvents(es));
      CleanLines(Ts.NO_FIELDS, Ts.LinesOf(PrintEvents(es)).complete);
      forall e | e in es
        ensures DispatchableEvent(e)
      {
        EveryExpectedEvent(es, e);
        if e.data.Value? {
          assert CleanCall(ExpectedEvent(e)[0]);
        }
      }
    }
  }
}
