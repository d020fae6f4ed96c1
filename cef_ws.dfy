/**
 * SISR's own WebSocket endpoint for scripts injected into Steam's CEF
 * tabs: each incoming message is dispatched to its handler, which may
 * write a JSON value into a one-slot response writer; whatever the slot
 * holds afterwards is the response's data.
 */
module CefWs {
  import opened Wrappers

  /** The JSON values the handlers produce. */
  datatype Json =
    | JBool(b: bool)
    | JNat(n: nat)
    | JStr(s: string)
    | JObject(fields: seq<(string, Json)>)

  const SerializeErrorPrefix: string := "Failed to serialize response: "
  const MessageKey: string := "message"

  /** `{"message": m}`. */
  function MessageObject(m: string): (j: Json)
    ensures j.JObject? && |j.fields| == 1 && j.fields[0] == (MessageKey, JStr(m))
  {
    JObject([(MessageKey, JStr(m))])
  }

  /** `ResponseWriter`: a slot for at most one JSON value. */
  class ResponseWriter {
    var response: Option<Json>

    /** `ResponseWriter::new`: the slot starts empty. */
    constructor ()
      ensures response.None?
    {
      response := None;
    }

    /**
     * `write`, given the outcome of serialising the data: a value replaces
     * whatever the slot held; a serialisation error is reported and the slot
     * is left alone.
     */
    method Write(data: Result<Json, string>) returns (r: Result<(), string>)
      modifies this
      ensures data.Ok? ==> r.Ok? && response == Some(data.value)
      ensures data.Err? ==> r == Err(SerializeErrorPrefix + data.error) && response == old(response)
    {
      match data
      case Ok(v) =>
        response := Some(v);
        r := Ok(());
      case Err(e) =>
        r := Err(SerializeErrorPrefix + e);
    }

    /** `write_message`: stores `{"message": m}`. */
    method WriteMessage(m: string) returns (r: Result<(), string>)
      modifies this
      ensures r.Ok? && response == Some(MessageObject(m))
    {
      r := Write(Ok(MessageObject(m)));
    }

    /** `take_response`: hands out the value and empties the slot. */
    method Take() returns (r: Option<Json>)
      modifies this
      ensures r == old(response) && response.None?
    {
      r := response;
      response := None;
    }
  }

  /** The messages injected scripts send. */
  datatype CefMessage = Ping | OverlayStateChanged(open: bool)

  /** The response to every message: success, with the data taken from the writer. */
  datatype WsResponse = Success(data: Option<Json>)

  const PongKey: string := "pong"
  const TimestampKey: string := "timestamp"

  /** `{pong: true, timestamp}`. */
  function PongObject(timestamp: nat): (j: Json)
    ensures j.JObject? && j.fields == [(PongKey, JBool(true)), (TimestampKey, JNat(timestamp))]
  {
    JObject([(PongKey, JBool(true)), (TimestampKey, JNat(timestamp))])
  }

  /** The data each message kind produces: a pong for `Ping`, nothing for `OverlayStateChanged`. */
  function MessageData(m: CefMessage, now: nat): (r: Option<Json>)
    ensures m.Ping? <==> r.Some?
    ensures m.Ping? ==> r == Some(PongObject(now))
  {
    match m
    case Ping => Some(PongObject(now))
    case OverlayStateChanged(_) => None
  }

  /** The ping handler: writes a pong stamped with the current time in seconds. */
  method HandlePing(writer: ResponseWriter, now: nat)
    modifies writer
    ensures writer.response == Some(PongObject(now))
  {
    var _ := writer.Write(Ok(PongObject(now)));
  }

  /**
   * `Handler::handle`: a fresh writer per message, so nothing carries over
   * from an earlier message; `now` is the wall clock in seconds.
   */
  method Handle(m: CefMessage, now: nat) returns (resp: WsResponse)
    ensures resp == Success(MessageData(m, now))
  {
    var writer := new ResponseWriter();
    match m {
      case Ping =>
        HandlePing(writer, now);
      case OverlayStateChanged(_) =>
    }
    var data := writer.Take();
    resp := Success(data);
  }
}
