/**
 * The terminal client's side of the websocket: the wire messages, the
 * decoding of what the server sends (including the command field that may
 * be a string or a list of strings), the routing of each decoded message
 * to the handler registered for its type, and the AgentClient object with
 * its connection state.
 */
module WebSocketClient {
  import opened Wrappers
  import opened Text
  import opened Json

  // Message type names on the wire.
  const TypeMessage := "message"
  const TypeCommandApproval := "command_approval"
  const TypeRetryResponse := "retry_response"
  const TypeCommandOutput := "command_output"
  const TypeRetryRequest := "retry_request"
  const TypeError := "error"

  /** The three kinds of message the client sends. */
  datatype ClientType = ChatType | ApprovalType | RetryType

  /** The type name a client message carries on the wire. */
  function WireType(t: ClientType): string {
    match t
    case ChatType => TypeMessage
    case ApprovalType => TypeCommandApproval
    case RetryType => TypeRetryResponse
  }

  /** What the client sends: a chat message, an approval decision or a retry decision. */
  datatype ClientMessage = ClientMessage(msgType: ClientType, content: string, approved: bool, retry: bool)

  /** What the client decodes from a server frame; absent fields keep Go's zero values. */
  datatype ServerMessage = ServerMessage(
    msgType: string,
    content: string,
    command: seq<string>,
    explanation: string,
    error: string,
    retryCount: int,
    output: string,
    success: bool)

  const ZeroServerMessage := ServerMessage("", "", [], "", "", 0, "", false)

  const CommandShapeError := "command field must be string or []string"

  const NotConnectedError := "client not connected"

  /** Stands for encoding/json's type-mismatch errors, whose wording is only logged. */
  const TypeMismatch := "json: cannot unmarshal"

  // ---------------------------------------------------------------------
  // Encoding

  const ClientKeys: set<string> := {"type", "content", "approved", "retry"}

  /** A ClientMessage field as JSON, and whether it is written (`omitempty` drops zero values). */
  function ClientField(m: ClientMessage, key: string): (Json, bool) {
    if key == "type" then (JString(WireType(m.msgType)), true)
    else if key == "content" then (JString(m.content), m.content != "")
    else if key == "approved" then (JBool(m.approved), m.approved)
    else (JBool(m.retry), m.retry)
  }

  /** The JSON object Go writes for a ClientMessage. */
  function EncodeClientMessage(m: ClientMessage): Json {
    JObject(map key | key in ClientKeys && ClientField(m, key).1 :: ClientField(m, key).0)
  }

  const ServerKeys: set<string> :=
    {"type", "content", "command", "explanation", "error", "retry_count", "output", "success"}

  /** A ServerMessage field as JSON, and whether the field tags write it. */
  function ServerField(m: ServerMessage, key: string): (Json, bool) {
    if key == "type" then (JString(m.msgType), true)
    else if key == "content" then (JString(m.content), m.content != "")
    else if key == "command" then (JArray(StringItems(m.command)), m.command != [])
    else if key == "explanation" then (JString(m.explanation), m.explanation != "")
    else if key == "error" then (JString(m.error), m.error != "")
    else if key == "retry_count" then (JNumber(m.retryCount), m.retryCount != 0)
    else if key == "output" then (JString(m.output), m.output != "")
    else (JBool(m.success), m.success)
  }

  /** The JSON object the ServerMessage field tags describe. */
  function EncodeServerMessage(m: ServerMessage): Json {
    JObject(map key | key in ServerKeys && ServerField(m, key).1 :: ServerField(m, key).0)
  }

  function StringItems(ws: seq<string>): (r: seq<Json>)
    ensures |r| == |ws|
    ensures forall k | 0 <= k < |ws| :: r[k] == JString(ws[k])
  {
    seq(|ws|, k requires 0 <= k < |ws| => JString(ws[k]))
  }

  // ---------------------------------------------------------------------
  // Decoding

  /** A JSON array Go can decode into []string: strings, with null read as "". */
  predicate IsStringList(items: seq<Json>) {
    forall k | 0 <= k < |items| :: items[k].JString? || items[k].JNull?
  }

  function StringsOf(items: seq<Json>): (r: seq<string>)
    ensures |r| == |items|
    ensures forall k | 0 <= k < |items| :: r[k] == (if items[k].JString? then items[k].s else "")
  {
    seq(|items|, k requires 0 <= k < |items| => if items[k].JString? then items[k].s else "")
  }

  /**
   * CommandField.UnmarshalJSON: a string is split into words, a list of
   * strings is taken as it is, null is an empty command, and any other
   * value is rejected with the fixed message.
   */
  function UnmarshalCommand(v: Json): (r: Result<seq<string>, string>)
    ensures v.JString? ==> r == Ok(Fields(v.s))
    ensures v.JNull? ==> r == Ok([])
    ensures v.JArray? && IsStringList(v.items) ==>
              (r.Ok? && |r.value| == |v.items|
               && forall k | 0 <= k < |v.items| :: v.items[k].JString? ==> r.value[k] == v.items[k].s)
    ensures r.Err? <==> !(v.JString? || v.JNull? || (v.JArray? && IsStringList(v.items)))
    ensures r.Err? ==> r.error == CommandShapeError
  {
    match v
    case JString(s) => Ok(Fields(s))
    case JNull => Ok(Fields(""))
    case JArray(items) => if IsStringList(items) then Ok(StringsOf(items)) else Err(CommandShapeError)
    case _ => Err(CommandShapeError)
  }

  /** A string field: absent or null leaves "", anything but a string is a type error. */
  function StringField(m: map<string, Json>, key: string): Result<string, string> {
    if key !in m then Ok("")
    else match m[key]
      case JNull => Ok("")
      case JString(s) => Ok(s)
      case _ => Err(TypeMismatch)
  }

  function IntField(m: map<string, Json>, key: string): Result<int, string> {
    if key !in m then Ok(0)
    else match m[key]
      case JNull => Ok(0)
      case JNumber(n) => Ok(n)
      case _ => Err(TypeMismatch)
  }

  function BoolField(m: map<string, Json>, key: string): Result<bool, string> {
    if key !in m then Ok(false)
    else match m[key]
      case JNull => Ok(false)
      case JBool(b) => Ok(b)
      case _ => Err(TypeMismatch)
  }

  function CommandFieldOf(m: map<string, Json>): Result<seq<string>, string> {
    if "command" !in m then Ok([]) else UnmarshalCommand(m["command"])
  }

  /**
   * json.Unmarshal of a frame into a ServerMessage: null gives the zero
   * message, any value other than an object is rejected, and an object is
   * rejected as soon as one known field has the wrong shape.
   */
  function DecodeServerMessage(v: Json): (r: Result<ServerMessage, string>)
    ensures v.JNull? ==> r == Ok(ZeroServerMessage)
    ensures !v.JObject? && !v.JNull? ==> r.Err?
    ensures v.JObject? && CommandFieldOf(v.fields).Err? ==> r.Err?
    ensures r.Ok? && v.JObject? ==> Ok(r.value.command) == CommandFieldOf(v.fields)
  {
    match v
    case JNull => Ok(ZeroServerMessage)
    case JObject(m) =>
      var t := StringField(m, "type");
      var content := StringField(m, "content");
      var command := CommandFieldOf(m);
      var explanation := StringField(m, "explanation");
      var error := StringField(m, "error");
      var retryCount := IntField(m, "retry_count");
      var output := StringField(m, "output");
      var success := BoolField(m, "success");
      if t.Err? then Err(t.error)
      else if content.Err? then Err(content.error)
      else if command.Err? then Err(command.error)
      else if explanation.Err? then Err(explanation.error)
      else if error.Err? then Err(error.error)
      else if retryCount.Err? then Err(retryCount.error)
      else if output.Err? then Err(output.error)
      else if success.Err? then Err(success.error)
      else Ok(ServerMessage(t.value, content.value, command.value, explanation.value,
                            error.value, retryCount.value, output.value, success.value))
    case _ => Err(TypeMismatch)
  }

  /** Decoding inverts the encoding the field tags describe, for every message. */
  lemma DecodeEncodeServerMessage(m: ServerMessage)
    ensures DecodeServerMessage(EncodeServerMessage(m)) == Ok(m)
  {
    var f := EncodeServerMessage(m).fields;
    if m.command != [] {
      var items := StringItems(m.command);
      assert f["command"] == JArray(items);
      assert StringsOf(items) == m.command;
    }
    assert StringField(f, "type") == Ok(m.msgType);
    assert StringField(f, "content") == Ok(m.content);
    assert CommandFieldOf(f) == Ok(m.command);
    assert StringField(f, "explanation") == Ok(m.explanation);
    assert StringField(f, "error") == Ok(m.error);
    assert IntField(f, "retry_count") == Ok(m.retryCount);
    assert StringField(f, "output") == Ok(m.output);
    assert BoolField(f, "success") == Ok(m.success);
    DecodesAs(f, m);
  }

  /** An object whose every known field decodes to the field of `m` decodes to `m`. */
  lemma DecodesAs(message: map<string, Json>, m: ServerMessage)
    requires StringField(message, "type") == Ok(m.msgType)
    requires StringField(message, "content") == Ok(m.content)
    requires CommandFieldOf(message) == Ok(m.command)
    requires StringField(message, "explanation") == Ok(m.explanation)
    requires StringField(message, "error") == Ok(m.error)
    requires IntField(message, "retry_count") == Ok(m.retryCount)
    requires StringField(message, "output") == Ok(m.output)
    requires BoolField(message, "success") == Ok(m.success)
    ensures DecodeServerMessage(JObject(message)) == Ok(m)
  {
  }

  // ---------------------------------------------------------------------
  // Dispatch

  /** The callback slots of an AgentClient. */
  datatype Handler = OnMessage | OnCommandApproval | OnCommandOutput | OnRetryRequest | OnError | OnConnectionLost

  /** A callback invocation with its arguments. */
  datatype Event =
    | MessageEvent(content: string)
    | CommandApprovalEvent(command: seq<string>, explanation: string)
    | CommandOutputEvent(output: string)
    | RetryRequestEvent(content: string, retryCount: int)
    | ErrorEvent(error: string)
    | ConnectionLostEvent

  /** The slot an event is delivered through. */
  function HandlerOf(e: Event): Handler {
    match e
    case MessageEvent(_) => OnMessage
    case CommandApprovalEvent(_, _) => OnCommandApproval
    case CommandOutputEvent(_) => OnCommandOutput
    case RetryRequestEvent(_, _) => OnRetryRequest
    case ErrorEvent(_) => OnError
    case ConnectionLostEvent => OnConnectionLost
  }

  /** The slot a server message type is routed to; other types are ignored. */
  function HandlerFor(msgType: string): Option<Handler> {
    if msgType == TypeMessage then Some(OnMessage)
    else if msgType == TypeCommandApproval then Some(OnCommandApproval)
    else if msgType == TypeCommandOutput then Some(OnCommandOutput)
    else if msgType == TypeRetryRequest then Some(OnRetryRequest)
    else if msgType == TypeError then Some(OnError)
    else None
  }

  /**
   * The switch in readPump: a message of a known type with a registered
   * handler produces exactly one event on that handler, and command
   * output falls back to the content when the output field is empty.
   */
  function Dispatch(m: ServerMessage, handlers: set<Handler>): (r: Option<Event>)
    ensures r.Some? <==> HandlerFor(m.msgType).Some? && HandlerFor(m.msgType).value in handlers
    ensures r.Some? ==> HandlerOf(r.value) == HandlerFor(m.msgType).value
    ensures r.Some? && r.value.CommandOutputEvent? ==>
              r.value.output == (if m.output != "" then m.output else m.content)
    ensures r.Some? && r.value.CommandApprovalEvent? ==>
              r.value.command == m.command && r.value.explanation == m.explanation
    ensures r.Some? && r.value.RetryRequestEvent? ==>
              r.value.content == m.content && r.value.retryCount == m.retryCount
    ensures r.Some? && r.value.MessageEvent? ==> r.value.content == m.content
    ensures r.Some? && r.value.ErrorEvent? ==> r.value.error == m.error
  {
    match HandlerFor(m.msgType)
    case None => None
    case Some(h) =>
      if h !in handlers then None
      else match h
        case OnMessage => Some(MessageEvent(m.content))
        case OnCommandApproval => Some(CommandApprovalEvent(m.command, m.explanation))
        case OnCommandOutput => Some(CommandOutputEvent(if m.output == "" then m.content else m.output))
        case OnRetryRequest => Some(RetryRequestEvent(m.content, m.retryCount))
        case OnError => Some(ErrorEvent(m.error))
        case OnConnectionLost => None
  }

  /** What one read from the connection yields: a frame, parsed as JSON when it parses, or a read error. */
  datatype Frame = Received(payload: Option<Json>) | ReadFailed

  /**
   * The events the read loop delivers for a stream of frames: frames that
   * do not parse or decode are skipped, and reading stops at the first
   * read error (the end of the stream counts as one).
   */
  function PumpEvents(frames: seq<Frame>, handlers: set<Handler>): (r: seq<Event>)
    ensures |r| <= |frames|
    ensures forall k | 0 <= k < |r| :: HandlerOf(r[k]) in handlers && r[k] != ConnectionLostEvent
  {
    if frames == [] || frames[0].ReadFailed? then []
    else
      var rest := PumpEvents(frames[1..], handlers);
      match FrameEvent(frames[0], handlers)
      case None => rest
      case Some(e) => [e] + rest
  }

  /** The event one received frame produces, if any. */
  function FrameEvent(frame: Frame, handlers: set<Handler>): Option<Event>
    requires frame.Received?
  {
    if frame.payload.None? then None
    else
      var d := DecodeServerMessage(frame.payload.value);
      if d.Err? then None else Dispatch(d.value, handlers)
  }

  /** The events of the frames from `i` on: none at a read error, else those of frame `i` and then the rest. */
  lemma PumpStep(frames: seq<Frame>, i: nat, handlers: set<Handler>)
    requires i < |frames|
    ensures frames[i].ReadFailed? ==> PumpEvents(frames[i..], handlers) == []
    ensures frames[i].Received? && FrameEvent(frames[i], handlers).None? ==>
              PumpEvents(frames[i..], handlers) == PumpEvents(frames[i + 1..], handlers)
    ensures frames[i].Received? && FrameEvent(frames[i], handlers).Some? ==>
              PumpEvents(frames[i..], handlers) == [FrameEvent(frames[i], handlers).value] + PumpEvents(frames[i + 1..], handlers)
  {
    assert frames[i..][1..] == frames[i + 1..];
  }

  /** One received frame of the read loop, with the events delivered before it. */
  lemma DeliverStep(delivered: seq<Event>, frames: seq<Frame>, i: nat, handlers: set<Handler>)
    requires i < |frames| && frames[i].Received?
    ensures var e := FrameEvent(frames[i], handlers);
            delivered + PumpEvents(frames[i..], handlers)
              == (if e.Some? then delivered + [e.value] else delivered) + PumpEvents(frames[i + 1..], handlers)
  {
    PumpStep(frames, i, handlers);
  }

  /** Nothing received after a read error is ever delivered. */
  lemma {:induction false} PumpStopsAtReadError(before: seq<Frame>, after: seq<Frame>, handlers: set<Handler>)
    ensures PumpEvents(before + [ReadFailed] + after, handlers) == PumpEvents(before + [ReadFailed], handlers)
  {
    if before != [] && before[0].Received? {
      assert (before + [ReadFailed] + after)[1..] == before[1..] + [ReadFailed] + after;
      assert (before + [ReadFailed])[1..] == before[1..] + [ReadFailed];
      PumpStopsAtReadError(before[1..], after, handlers);
    }
  }

  /** A frame that is not JSON, or does not decode, is skipped without disturbing the rest of the stream. */
  lemma PumpSkipsUndecodable(frame: Frame, rest: seq<Frame>, handlers: set<Handler>)
    requires frame.Received?
    requires frame.payload.None? || DecodeServerMessage(frame.payload.value).Err?
    ensures PumpEvents([frame] + rest, handlers) == PumpEvents(rest, handlers)
  {
    assert ([frame] + rest)[1..] == rest;
  }

  // ---------------------------------------------------------------------
  // The client object

  /** The outcome a Send method reports: not connected, or the write's own result. */
  function SendOutcome(connected: bool, writeError: Option<string>): Option<string> {
    if !connected then Some(NotConnectedError) else writeError
  }

  /** The messages a Send method puts on the wire: one, when connected and the write succeeds. */
  function Written(connected: bool, writeError: Option<string>, m: ClientMessage): seq<ClientMessage> {
    if connected && writeError.None? then [m] else []
  }

  function ApprovalMessage(approved: bool): ClientMessage {
    ClientMessage(ApprovalType, "", approved, false)
  }

  function RetryMessage(retry: bool): ClientMessage {
    ClientMessage(RetryType, "", false, retry)
  }

  function ChatMessage(content: string): ClientMessage {
    ClientMessage(ChatType, content, false, false)
  }

  /**
   * The connection to the agent server. `sent` is what has been written to
   * the socket and `delivered` the callbacks invoked so far, in order; the
   * outcome of dialling and of each write is a parameter.
   */
  class AgentClient {
    const serverURL: string
    var connected: bool
    var hasConn: bool     // conn != nil
    var connOpen: bool    // the socket has not been closed
    var doneClosed: bool  // the done channel has been closed
    var handlers: set<Handler>
    var sent: seq<ClientMessage>
    var delivered: seq<Event>

    /** The client reports itself connected exactly while it holds an open socket. */
    ghost predicate Valid()
      reads this
    {
      connected == connOpen && (connOpen ==> hasConn)
    }

    constructor (url: string)
      ensures Valid()
      ensures serverURL == url && !connected && !hasConn && !connOpen && !doneClosed
      ensures handlers == {} && sent == [] && delivered == []
    {
      serverURL := url;
      connected := false;
      hasConn := false;
      connOpen := false;
      doneClosed := false;
      handlers := {};
      sent := [];
      delivered := [];
    }

    /** Registers (or, with `present` false, clears) one callback. */
    method SetHandler(h: Handler, present: bool)
      modifies this`handlers
      ensures handlers == if present then old(handlers) + {h} else old(handlers) - {h}
    {
      if present {
        handlers := handlers + {h};
      } else {
        handlers := handlers - {h};
      }
    }

    /**
     * Dials the server unless already connected. A failed dial leaves the
     * client without a connection and wraps the dial error; a successful one
     * marks it connected (the read loop is then started by the caller).
     */
    method Connect(dialError: Option<string>) returns (err: Option<string>)
      requires Valid()
      modifies this`connected, this`hasConn, this`connOpen
      ensures Valid()
      ensures old(connected) ==> err.None? && connected && hasConn == old(hasConn) && connOpen == old(connOpen)
      ensures !old(connected) && dialError.None? ==> err.None? && connected && hasConn
      ensures !old(connected) && dialError.Some? ==>
                err == Some("websocket connection failed: " + dialError.value) && !connected && !hasConn
    {
      if connected {
        return None;
      }
      if dialError.Some? {
        hasConn := false;
        return Some("websocket connection failed: " + dialError.value);
      }
      hasConn := true;
      connOpen := true;
      connected := true;
      err := None;
    }

    /** Sends a chat message; fails without writing when not connected. */
    method SendMessage(content: string, writeError: Option<string>) returns (err: Option<string>)
      modifies this`sent
      ensures err == SendOutcome(connected, writeError)
      ensures sent == old(sent) + Written(connected, writeError, ChatMessage(content))
    {
      if !connected {
        return Some(NotConnectedError);
      }
      if writeError.None? {
        sent := sent + [ChatMessage(content)];
      }
      err := writeError;
    }

    /** Sends the user's decision on a suggested command. */
    method SendApproval(approved: bool, writeError: Option<string>) returns (err: Option<string>)
      modifies this`sent
      ensures err == SendOutcome(connected, writeError)
      ensures sent == old(sent) + Written(connected, writeError, ApprovalMessage(approved))
    {
      if !connected {
        return Some(NotConnectedError);
      }
      if writeError.None? {
        sent := sent + [ApprovalMessage(approved)];
      }
      err := writeError;
    }

    /** The same as SendApproval. */
    method SendCommandApproval(approved: bool, writeError: Option<string>) returns (err: Option<string>)
      modifies this`sent
      ensures err == SendOutcome(connected, writeError)
      ensures sent == old(sent) + Written(connected, writeError, ApprovalMessage(approved))
    {
      err := SendApproval(approved, writeError);
    }

    /** Sends the user's decision on retrying a failed command. */
    method SendRetryResponse(retry: bool, writeError: Option<string>) returns (err: Option<string>)
      modifies this`sent
      ensures err == SendOutcome(connected, writeError)
      ensures sent == old(sent) + Written(connected, writeError, RetryMessage(retry))
    {
      if !connected {
        return Some(NotConnectedError);
      }
      if writeError.None? {
        sent := sent + [RetryMessage(retry)];
      }
      err := writeError;
    }

    /**
     * Closes the done channel and, when connected, the socket. Closing an
     * already closed channel panics in Go: a second call reports `panicked`
     * and changes nothing.
     */
    method Close() returns (panicked: bool)
      requires Valid()
      modifies this`connected, this`connOpen, this`doneClosed
      ensures Valid()
      ensures panicked == old(doneClosed)
      ensures doneClosed
      ensures !panicked ==> !connected
      ensures panicked ==> connected == old(connected) && connOpen == old(connOpen)
    {
      if doneClosed {
        return true;
      }
      doneClosed := true;
      panicked := false;
      if !connected || !hasConn {
        return;
      }
      connOpen := false;
      connected := false;
    }

    /** The same as Close. */
    method Disconnect() returns (panicked: bool)
      requires Valid()
      modifies this`connected, this`connOpen, this`doneClosed
      ensures Valid()
      ensures panicked == old(doneClosed)
      ensures doneClosed
      ensures !panicked ==> !connected
      ensures panicked ==> connected == old(connected) && connOpen == old(connOpen)
    {
      panicked := Close();
    }

    method IsConnected() returns (b: bool)
      ensures b == connected
    {
      b := connected;
    }

    /**
     * The read loop started by a successful Connect: unless done is
     * already closed, it delivers the events of the frames it reads until
     * a read error; then it closes the socket, marks the client
     * disconnected and, if it had been connected, reports the loss.
     */
    method ReadPump(frames: seq<Frame>)
      requires Valid() && hasConn
      modifies this`connected, this`connOpen, this`delivered
      ensures Valid() && !connected
      ensures delivered == old(delivered)
                + (if old(doneClosed) then [] else PumpEvents(frames, handlers))
                + (if old(connected) && OnConnectionLost in handlers then [ConnectionLostEvent] else [])
    {
      if !doneClosed {
        DeliverFrames(frames);
      }
      // The deferred clean-up.
      connOpen := false;
      var wasConnected := connected;
      connected := false;
      if wasConnected && OnConnectionLost in handlers {
        delivered := delivered + [ConnectionLostEvent];
      }
    }

    /** The loop of ReadPump: the events of the frames read before the first read error, in order. */
    method DeliverFrames(frames: seq<Frame>)
      modifies this`delivered
      ensures delivered == old(delivered) + PumpEvents(frames, handlers)
    {
      var i := 0;
      while i < |frames|
        invariant 0 <= i <= |frames|
        invariant delivered + PumpEvents(frames[i..], handlers) == old(delivered) + PumpEvents(frames, handlers)
      {
        PumpStep(frames, i, handlers);
        if frames[i].ReadFailed? {
          break;
        }
        var e := FrameEvent(frames[i], handlers);
        DeliverStep(delivered, frames, i, handlers);
        if e.Some? {
          delivered := delivered + [e.value];
        }
        i := i + 1;
      }
    }
  }
}
