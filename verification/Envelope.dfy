/**
 The JSON envelope of gRPC over WebSocket: the Go message (grpcws/conn.go) and the two
 TypeScript clients that unwrap it (base-client.ts, grpcws-client.ts). JSON text is
 identified with the tree it denotes.
 */
module Envelope {
  import opened Wrappers
  import Decimal

  datatype Json =
    | Null
    | Boolean(b: bool)
    | Number(n: int)
    | String(s: string)
    | Array(items: seq<Json>)
    | Object(fields: map<string, Json>)

  const DATA: string := "data"
  const ERROR: string := "error"
  const STREAM_END: string := "stream_end"
  const PING: string := "ping"
  const PONG: string := "pong"
  const CANCEL: string := "cancel"
  const END_SEND: string := "end_send"

  /** Go's `ControlMessage`; `Null` data is a nil interface. */
  datatype ControlMessage = ControlMessage(kind: string, data: Json, error: string, pingId: int)

  function DataMessage(data: Json): ControlMessage { ControlMessage(DATA, data, "", 0) }

  function ErrorMessage(error: string): ControlMessage { ControlMessage(ERROR, Null, error, 0) }

  function EndMessage(): ControlMessage { ControlMessage(STREAM_END, Null, "", 0) }

  function PingMessage(id: int): ControlMessage { ControlMessage(PING, Null, "", id) }

  /** `json.Marshal`: every field but the type is omitted when it is zero. */
  function Encode(m: ControlMessage): Json {
    Object(map["type" := String(m.kind)] +
           (if m.data == Null then map[] else map["data" := m.data]) +
           (if m.error == "" then map[] else map["error" := String(m.error)]) +
           (if m.pingId == 0 then map[] else map["pingId" := Number(m.pingId)]))
  }

  /** `json.Unmarshal` into a `ControlMessage`; `None` is its error. */
  function Decode(j: Json): Option<ControlMessage> {
    if j == Null then Some(ControlMessage("", Null, "", 0))
    else if !j.Object? then None
    else
      var kind, error := TextField(j.fields, "type"), TextField(j.fields, "error");
      var pingId := Field(j.fields, "pingId").GetOr(Null);
      if kind.None? || error.None? || !(pingId.Null? || (pingId.Number? && IsInt64(pingId.n))) then None
      else
        Some(ControlMessage(kind.value, Field(j.fields, "data").GetOr(Null), error.value,
                            if pingId.Number? then pingId.n else 0))
  }

  predicate IsInt64(n: int) {
    Decimal.MIN_INT <= n <= Decimal.MAX_INT
  }

  function Field(fields: map<string, Json>, name: string): Option<Json> {
    if name in fields then Some(fields[name]) else None
  }

  function TextField(fields: map<string, Json>, name: string): Option<string> {
    match Field(fields, name)
    case None => Some("")
    case Some(Null) => Some("")
    case Some(String(s)) => Some(s)
    case _ => None
  }

  // ---------------------------------------------------------------- the client

  /**
   A WebSocket frame: `json` is what JSON.parse makes of a text, `decoded` what the client's
   codec makes of the frame; `None` is an exception.
   */
  datatype RawFrame = Text(json: Option<Json>, decoded: Option<Json>) | Binary(decoded: Option<Json>)

  /** A text frame for the JSON codec. */
  function JsonText(j: Json): RawFrame { Text(Some(j), Some(j)) }

  /** What the client does with a frame. `Throws` is an exception out of the handler. */
  datatype ClientCall =
    | OnMessage(data: Option<Json>)
    | OnStreamEnd
    | OnError(error: Json)
    | OnDecodeError
    | OnPing(id: Json)
    | SendPong(id: Json)
    | Throws

  const UNKNOWN_ERROR: Json := String("Unknown error")

  predicate IsPing(j: Json) {
    j.Object? && "type" in j.fields && j.fields["type"] == String(PING)
  }

  function EnvelopeCalls(j: Json): seq<ClientCall> {
    if !(j.Object? && "type" in j.fields && j.fields["type"].String?) then []
    else
      var kind := j.fields["type"].s;
      if kind == DATA then [OnMessage(Field(j.fields, "data"))]
      else if kind == STREAM_END then [OnStreamEnd]
      else if kind == ERROR then
        var e := Field(j.fields, "error");
        [OnError(if e.None? || e.value == Null then UNKNOWN_ERROR else e.value)]
      else []
  }

  function PingCalls(j: Json, autoPong: bool, open: bool): seq<ClientCall>
    requires IsPing(j)
  {
    var id := Field(j.fields, "pingId");
    var ping := OnPing(if id.None? || id.value == Null then Number(0) else id.value);
    if !autoPong || id.None? then [ping]
    else if open then [SendPong(id.value), ping]
    else [Throws]
  }

  function FrameCalls(frame: RawFrame, autoPong: bool, open: bool): seq<ClientCall> {
    if frame.Text? && frame.json.Some? && IsPing(frame.json.value) then PingCalls(frame.json.value, autoPong, open)
    else
      match frame.decoded
      case Some(j) => EnvelopeCalls(j)
      case None => [OnDecodeError]
  }

  function Pong(id: Json): Json {
    Object(map["type" := String(PONG), "pingId" := id])
  }

  /** The pongs among some calls, as they are sent. */
  function PongFrames(calls: seq<ClientCall>): seq<Json> {
    if calls == [] then []
    else (if calls[0].SendPong? then [Pong(calls[0].id)] else []) + PongFrames(calls[1..])
  }

  lemma {:induction false} PongFramesOfFew(calls: seq<ClientCall>)
    ensures |calls| == 1 ==> PongFrames(calls) == if calls[0].SendPong? then [Pong(calls[0].id)] else []
    ensures |calls| == 2 && !calls[1].SendPong? ==>
              PongFrames(calls) == if calls[0].SendPong? then [Pong(calls[0].id)] else []
  {
    if |calls| == 1 {
      assert calls[1..] == [];
    } else if |calls| == 2 {
      var rest := calls[1..];
      assert rest[0] == calls[1] && rest[1..] == [];
      assert PongFrames(rest) == PongFrames(rest[1..]) || calls[1].SendPong?;
    }
  }

  /** `BaseWSClient` with the envelope handler that `GRPCWSClient` installs on it. */
  class GRPCWSClient {
    const autoPong: bool
    var open: bool
    var calls: seq<ClientCall>
    var sent: seq<Json>

    constructor (autoPong: bool)
      ensures this.autoPong == autoPong && !open && calls == [] && sent == []
    {
      this.autoPong, open, calls, sent := autoPong, false, [], [];
    }

    method HandleRawMessage(frame: RawFrame)
      modifies `calls, `sent
      ensures calls == old(calls) + FrameCalls(frame, autoPong, old(open))
      ensures sent == old(sent) + PongFrames(FrameCalls(frame, autoPong, old(open)))
    {
      PongFramesOfFew(FrameCalls(frame, autoPong, open));
      if frame.Text? && frame.json.Some? && IsPing(frame.json.value) {
        var parsed := frame.json.value;
        var pingId := Field(parsed.fields, "pingId");
        if autoPong && pingId.Some? {
          if !open {
            calls := calls + [Throws];
            return;
          }
          sent := sent + [Pong(pingId.value)];
          calls := calls + [SendPong(pingId.value)];
        }
        calls := calls + [OnPing(if pingId.None? || pingId.value == Null then Number(0) else pingId.value)];
        return;
      }
      if frame.decoded.None? {
        calls := calls + [OnDecodeError];
        return;
      }
      HandleEnvelopeMessage(frame.decoded.value);
    }

    method HandleEnvelopeMessage(msg: Json)
      modifies `calls
      ensures calls == old(calls) + EnvelopeCalls(msg)
    {
      if !(msg.Object? && "type" in msg.fields && msg.fields["type"].String?) {
        return;
      }
      match msg.fields["type"].s
      case "data" =>
        calls := calls + [OnMessage(Field(msg.fields, "data"))];
      case "stream_end" =>
        calls := calls + [OnStreamEnd];
      case "error" =>
        var error := Field(msg.fields, "error");
        calls := calls + [OnError(if error.None? || error.value == Null then UNKNOWN_ERROR else error.value)];
      case _ =>
    }

    /** `false` is the exception for a socket that is not open. */
    method Send(data: Json) returns (ok: bool)
      modifies `sent
      ensures ok == open
      ensures sent == old(sent) + if ok then [Object(map["type" := String("data"), "data" := data])] else []
    {
      ok := SendEnvelope(Object(map["type" := String("data"), "data" := data]));
    }

    method EndSend() returns (ok: bool)
      modifies `sent
      ensures ok == open
      ensures sent == old(sent) + if ok then [Object(map["type" := String("end_send")])] else []
    {
      ok := SendEnvelope(Object(map["type" := String("end_send")]));
    }

    method Cancel() returns (ok: bool)
      modifies `sent
      ensures ok == open
      ensures sent == old(sent) + if ok then [Object(map["type" := String("cancel")])] else []
    {
      ok := SendEnvelope(Object(map["type" := String("cancel")]));
    }

    /** The base client's `send`. */
    method SendEnvelope(envelope: Json) returns (ok: bool)
      modifies `sent
      ensures ok == open && sent == old(sent) + if ok then [envelope] else []
    {
      ok := open;
      if ok {
        sent := sent + [envelope];
      }
    }
  }

  /** The client's envelope around a payload. */
  function Wrapped(data: Json): Json {
    Object(map["type" := String(DATA), "data" := data])
  }

  // ------------------------------------------------------- what the client does

  /** What each kind of envelope makes the client do, whatever else it holds. */
  lemma {:induction false} EnvelopeReaction(j: Json)
    ensures var kind := if j.Object? && "type" in j.fields && j.fields["type"].String? then j.fields["type"].s else "";
            && (kind == "data" ==>
                 EnvelopeCalls(j) == [OnMessage(if "data" in j.fields then Some(j.fields["data"]) else None)])
            && (kind == "stream_end" ==> EnvelopeCalls(j) == [OnStreamEnd])
            && (kind == "error" ==>
                 EnvelopeCalls(j) == [OnError(if "error" in j.fields && j.fields["error"] != Null
                                              then j.fields["error"] else String("Unknown error"))])
            && (kind !in ["data", "stream_end", "error"] ==> EnvelopeCalls(j) == [])
  {
  }

  /**
   What each kind of frame makes the client do. A ping in a text frame is answered with its own
   id if auto-pong is on and it has one, which throws on a socket that is not open, and reported
   with its id, or 0; every other frame is what the codec makes of it.
   */
  lemma {:induction false} FrameReaction(frame: RawFrame, autoPong: bool, open: bool)
    ensures var ping := frame.Text? && frame.json.Some? && frame.json.value.Object? &&
                        "type" in frame.json.value.fields && frame.json.value.fields["type"] == String("ping");
            var calls := FrameCalls(frame, autoPong, open);
            && (ping ==>
                 var fields := frame.json.value.fields;
                 if "pingId" !in fields then calls == [OnPing(Number(0))]
                 else
                   var id := fields["pingId"];
                   var reported := OnPing(if id == Null then Number(0) else id);
                   calls == if !autoPong then [reported] else if open then [SendPong(id), reported] else [Throws])
            && (!ping && frame.decoded.None? ==> calls == [OnDecodeError])
            && (!ping && frame.decoded.Some? ==> calls == EnvelopeCalls(frame.decoded.value))
  {
  }

  // --------------------------------------------------------------- across the wire

  /** What an envelope the server queues makes the client do. */
  lemma {:induction false} EnvelopeArrives(m: ControlMessage, autoPong: bool)
    ensures var calls := FrameCalls(JsonText(Encode(m)), autoPong, true);
            && (m.kind == DATA ==> calls == [OnMessage(if m.data == Null then None else Some(m.data))])
            && (m.kind == STREAM_END ==> calls == [OnStreamEnd])
            && (m.kind == ERROR ==> calls == [OnError(if m.error == "" then UNKNOWN_ERROR else String(m.error))])
            && (m.kind == PING && m.pingId != 0 && autoPong ==>
                  calls == [SendPong(Number(m.pingId)), OnPing(Number(m.pingId))])
  {
  }

  /** A payload the client wraps is the data the server unwraps, whatever it looks like. */
  lemma {:induction false} WrappedArrives(data: Json)
    ensures Wrapped(data) == Object(map["type" := String("data"), "data" := data])
    ensures Decode(Wrapped(data)) == Some(ControlMessage("data", data, "", 0))
  {
  }

  /** What the server writes: the type always, and every other field exactly if it is not zero. */
  lemma {:induction false} EncodeExactly(m: ControlMessage)
    ensures var j := Encode(m);
            && j.Object? && j.fields.Keys ==
               {"type"} + (if m.data == Null then {} else {"data"}) + (if m.error == "" then {} else {"error"}) +
               (if m.pingId == 0 then {} else {"pingId"})
            && j.fields["type"] == String(m.kind)
            && ("data" in j.fields ==> j.fields["data"] == m.data)
            && ("error" in j.fields ==> j.fields["error"] == String(m.error))
            && ("pingId" in j.fields ==> j.fields["pingId"] == Number(m.pingId))
  {
  }

  /** The server reads every envelope it can write. */
  lemma {:induction false} EncodeDecode(m: ControlMessage)
    requires IsInt64(m.pingId)
    ensures Decode(Encode(m)) == Some(m)
  {
  }

  /** Which values are no envelope, and what an envelope holds: what is left out or null is zero. */
  lemma {:induction false} DecodeExactly(fields: map<string, Json>)
    ensures Decode(Object(fields)).None? <==>
            || ("type" in fields && fields["type"] != Null && !fields["type"].String?)
            || ("error" in fields && fields["error"] != Null && !fields["error"].String?)
            || ("pingId" in fields && fields["pingId"] != Null &&
                 !(fields["pingId"].Number? && -0x8000_0000_0000_0000 <= fields["pingId"].n < 0x8000_0000_0000_0000))
    ensures var m := Decode(Object(fields));
            m.Some? ==>
              && m.value.kind == (if "type" in fields && fields["type"].String? then fields["type"].s else "")
              && m.value.error == (if "error" in fields && fields["error"].String? then fields["error"].s else "")
              && m.value.data == (if "data" in fields then fields["data"] else Null)
              && m.value.pingId == (if "pingId" in fields && fields["pingId"].Number? then fields["pingId"].n else 0)
    ensures forall j: Json :: j != Null && !j.Object? ==> Decode(j) == None
    ensures Decode(Null) == Some(ControlMessage("", Null, "", 0))
  {
  }

  /** A pong is read as one, with the id of the ping it answers. */
  lemma {:induction false} PongArrives(id: int)
    requires IsInt64(id)
    ensures Pong(Number(id)) == Object(map["type" := String("pong"), "pingId" := Number(id)])
    ensures Decode(Pong(Number(id))) == Some(ControlMessage("pong", Null, "", id))
  {
  }
}
