/**
 * The agent's websocket server. It keeps the connected clients and, per
 * client, at most one active session: the graph thread it runs on and
 * which interrupt, if any, is waiting for the client's reply. It forwards
 * the graph's interrupts to the client, accepts an approval or retry reply
 * only while the matching interrupt is pending, reports the final result,
 * and forgets the session when the graph completes or the client leaves.
 *
 * The graph is an oracle: each call to it is recorded, and its outcome (an
 * exception, or a list of interrupts and the final state) is an input.
 * Sockets are a flag per client saying whether the connection is still
 * open; messages sent on an open one are recorded in an outbox.
 */
module Server {
  import opened Wrappers
  import opened Json
  import opened Text

  type ClientId = string

  datatype InterruptKind = Approval | Retry

  /** An entry of active_sessions. */
  datatype Session = Session(thread: string, waiting: bool, interrupt: Option<InterruptKind>)

  /** A message sent to a client. */
  datatype Delivery = Delivery(client: ClientId, message: map<string, Json>)

  /** A call into the graph: a fresh run, or a resumption with the human's reply. */
  datatype GraphCall = Invoke(thread: string, prompt: Json) | Resume(thread: string, response: string)

  /** What a graph call gave back: an exception, or its interrupts and the final state. */
  datatype InvokeResult =
    | Raised(error: string)
    | Returned(interrupts: seq<map<string, Json>>, final: map<string, Json>)

  datatype ServerState = ServerState(
    clients: map<ClientId, bool>,
    sessions: map<ClientId, Session>,
    outbox: seq<Delivery>,
    calls: seq<GraphCall>)

  const WelcomeText := "Connected to Cloud Assist Agent"
  const NoSessionText := "No active session found"
  const InvalidJsonText := "Invalid JSON message"

  // ---------------------------------------------------------------------
  // Outgoing messages

  /** The message send_message builds: type and content, then the extra fields. */
  function OutMessage(msgType: string, content: string, extra: map<string, Json>): map<string, Json> {
    map["type" := JString(msgType), "content" := JString(content)] + extra
  }

  function ErrorMessage(text: string): map<string, Json> {
    OutMessage("error", text, map[])
  }

  /** The messages that reach a client with an open connection, and only those. */
  function Posted(s: ServerState, id: ClientId, msg: map<string, Json>): seq<Delivery> {
    if id in s.clients && s.clients[id] then [Delivery(id, msg)] else []
  }

  /**
   * send_message. An unknown client gets nothing and nothing changes; an
   * open connection gets the message; a closed one is unregistered.
   */
  function Send(s: ServerState, id: ClientId, msg: map<string, Json>): (r: ServerState)
    ensures r.sessions == s.sessions && r.calls == s.calls
    ensures r.outbox == s.outbox + Posted(s, id, msg)
    ensures id !in s.clients ==> r == s
    ensures id in r.clients <==> id in s.clients && s.clients[id]
    ensures forall c | c != id :: (c in r.clients <==> c in s.clients) && (c in r.clients ==> r.clients[c] == s.clients[c])
  {
    if id !in s.clients then s
    else if s.clients[id] then s.(outbox := s.outbox + [Delivery(id, msg)])
    else s.(clients := s.clients - {id})
  }

  // ---------------------------------------------------------------------
  // Interrupts

  /** How handle_interrupt reads a payload: "command" means approval, else "error" means retry. */
  function Classify(v: map<string, Json>): (r: Option<InterruptKind>)
    ensures r == Some(Approval) <==> "command" in v
    ensures r == Some(Retry) <==> "command" !in v && "error" in v
    ensures r.None? <==> "command" !in v && "error" !in v
  {
    if "command" in v then Some(Approval)
    else if "error" in v then Some(Retry)
    else None
  }

  /** The message an interrupt payload becomes. */
  function InterruptMessage(v: map<string, Json>, kind: InterruptKind): map<string, Json> {
    match kind
    case Approval =>
      OutMessage("command_approval", "", map[
        "command" := Get(v, "command", JString("")),
        "explanation" := Get(v, "question", JString("")),
        "retry_count" := Get(v, "retry_count", JNumber(0))])
    case Retry =>
      OutMessage("retry_request", "", map[
        "command" := Get(v, "command", JString("")),
        "error" := Get(v, "error", JString("")),
        "output" := Get(v, "output", JString("")),
        "retry_count" := Get(v, "retry_count", JNumber(0))])
  }

  /** One payload: a recognised one marks the session waiting for its kind and is forwarded. */
  function HandleOne(s: ServerState, id: ClientId, v: map<string, Json>): (r: ServerState)
    requires id in s.sessions
  {
    match Classify(v)
    case None => s
    case Some(k) =>
      var session := Session(s.sessions[id].thread, true, Some(k));
      Send(s.(sessions := s.sessions[id := session]), id, InterruptMessage(v, k))
  }

  /** The kind of the last recognised payload. */
  function LastKind(vs: seq<map<string, Json>>): Option<InterruptKind> {
    if vs == [] then None
    else if Classify(vs[|vs| - 1]).Some? then Classify(vs[|vs| - 1])
    else LastKind(vs[..|vs| - 1])
  }

  /** The messages the recognised payloads become, in order, addressed to the client. */
  function Forwarded(id: ClientId, vs: seq<map<string, Json>>): seq<Delivery>
    decreases |vs|
  {
    if vs == [] then []
    else
      var v := vs[|vs| - 1];
      Forwarded(id, vs[..|vs| - 1])
        + match Classify(v) case None => [] case Some(k) => [Delivery(id, InterruptMessage(v, k))]
  }

  /**
   * handle_interrupt over the payloads in order. The client's session ends
   * up waiting for the kind of the last recognised payload, on the same
   * thread, or unchanged when none is recognised; other sessions and the
   * graph calls are untouched. An open connection is sent one
   * command_approval or retry_request message per recognised payload, in
   * order, and stays open; a closed or unknown one is sent nothing.
   */
  function Forward(s: ServerState, id: ClientId, vs: seq<map<string, Json>>): (r: ServerState)
    requires id in s.sessions
    ensures id in r.sessions && r.sessions == s.sessions[id := r.sessions[id]]
    ensures r.sessions[id] == if LastKind(vs).Some? then Session(s.sessions[id].thread, true, LastKind(vs)) else s.sessions[id]
    ensures r.calls == s.calls
    ensures id in s.clients && s.clients[id] ==> r.clients == s.clients && r.outbox == s.outbox + Forwarded(id, vs)
    ensures !(id in s.clients && s.clients[id]) ==> r.outbox == s.outbox && !(id in r.clients && r.clients[id])
    decreases |vs|
  {
    if vs == [] then s
    else HandleOne(Forward(s, id, vs[..|vs| - 1]), id, vs[|vs| - 1])
  }

  // ---------------------------------------------------------------------
  // Completion

  /** Whether the final state reports an error (a truthy command_error). */
  predicate CommandFailed(final: map<string, Json>) {
    Truthy(Get(final, "command_error", JNull))
  }

  /**
   * The completion report: a command_output message with the output; it
   * carries the error and success false exactly when the command failed,
   * success true otherwise.
   */
  function CompletionMessage(final: map<string, Json>): (r: map<string, Json>)
    ensures r.Keys == {"type", "content", "output", "success"} + (if CommandFailed(final) then {"error"} else {})
    ensures r["type"] == JString("command_output")
    ensures r["output"] == Get(final, "command_output", JString(""))
    ensures r["success"] == JBool(!CommandFailed(final))
    ensures CommandFailed(final) ==> r["error"] == final["command_error"]
  {
    var output := Get(final, "command_output", JString(""));
    if CommandFailed(final) then
      OutMessage("command_output", "", map[
        "output" := output,
        "error" := Get(final, "command_error", JString("")),
        "success" := JBool(false)])
    else
      OutMessage("command_output", "", map["output" := output, "success" := JBool(true)])
  }

  /** The graph completed: report the result and forget the session. */
  function Complete(s: ServerState, id: ClientId, final: map<string, Json>): (r: ServerState)
    ensures r.sessions == s.sessions - {id} && r.calls == s.calls
    ensures r.outbox == s.outbox + Posted(s, id, CompletionMessage(final))
  {
    var sent := Send(s, id, CompletionMessage(final));
    sent.(sessions := sent.sessions - {id})
  }

  /**
   * continue_after_response, and the tail of run_agent_graph: pending
   * interrupts are forwarded, otherwise the graph has completed.
   */
  function AfterResult(s: ServerState, id: ClientId, vs: seq<map<string, Json>>, final: map<string, Json>): ServerState
    requires id in s.sessions
  {
    if vs != [] then Forward(s, id, vs) else Complete(s, id, final)
  }

  // ---------------------------------------------------------------------
  // Sessions

  /** The graph thread of a session: "session_<client>_<uuid>". */
  function ThreadId(id: ClientId, uuid: string): (r: string)
    ensures StartsWith(r, "session_" + id + "_")
  {
    var p := "session_" + id + "_";
    assert (p + uuid)[..|p|] == p;
    p + uuid
  }

  /** run_agent_graph: a fresh run; an exception is reported and ends the session. */
  function RunGraph(s: ServerState, id: ClientId, prompt: Json, result: InvokeResult): ServerState
    requires id in s.sessions
  {
    var called := s.(calls := s.calls + [Invoke(s.sessions[id].thread, prompt)]);
    match result
    case Raised(e) =>
      var sent := Send(called, id, ErrorMessage(e));
      sent.(sessions := sent.sessions - {id})
    case Returned(vs, final) => AfterResult(called, id, vs, final)
  }

  /** start_agent_session: a new session, not waiting, replaces any earlier one and runs. */
  function StartSession(s: ServerState, id: ClientId, prompt: Json, uuid: string, result: InvokeResult): ServerState {
    RunGraph(s.(sessions := s.sessions[id := Session(ThreadId(id, uuid), false, None)]), id, prompt, result)
  }

  /** The reply the graph is resumed with. */
  function ResumeResponse(kind: InterruptKind, decision: bool): (r: string)
    ensures kind == Approval ==> (r == "approve" <==> decision) && (r == "reject" <==> !decision)
    ensures kind == Retry ==> (r == "retry" <==> decision) && (r == "cancel" <==> !decision)
  {
    match kind
    case Approval => if decision then "approve" else "reject"
    case Retry => if decision then "retry" else "cancel"
  }

  function NotWaitingText(kind: InterruptKind): string {
    match kind
    case Approval => "Not waiting for approval"
    case Retry => "Not waiting for retry response"
  }

  /** The client's session waits for a reply of this kind. */
  predicate Pending(s: ServerState, id: ClientId, kind: InterruptKind) {
    id in s.sessions && s.sessions[id].waiting && s.sessions[id].interrupt == Some(kind)
  }

  /**
   * handle_approval_response and handle_retry_response. Without a session,
   * or with one not waiting for this kind of reply, the client gets an
   * error. Otherwise the graph resumes with the decision; if that raises,
   * the error is reported and the session left waiting; if not, the
   * session stops waiting and the result is processed.
   */
  function Respond(s: ServerState, id: ClientId, kind: InterruptKind, decision: bool, result: InvokeResult)
    : ServerState
  {
    if id !in s.sessions then Send(s, id, ErrorMessage(NoSessionText))
    else if !Pending(s, id, kind) then Send(s, id, ErrorMessage(NotWaitingText(kind)))
    else
      var session := s.sessions[id];
      var called := s.(calls := s.calls + [Resume(session.thread, ResumeResponse(kind, decision))]);
      match result
      case Raised(e) => Send(called, id, ErrorMessage(e))
      case Returned(vs, final) =>
        AfterResult(called.(sessions := called.sessions[id := session.(waiting := false, interrupt := None)]), id, vs, final)
  }

  // ---------------------------------------------------------------------
  // Incoming messages

  /** A client message as handle_client_message reads it. */
  datatype Request =
    | UserMessage(content: Json)
    | ApprovalReply(approved: bool)
    | RetryReply(retry: bool)
    | UnknownType(msgType: Json)
    | NotADict(typeName: string)

  /**
   * The dispatch on "type": "message" starts a session with the content
   * (default ""), "command_approval" and "retry_response" carry the
   * truth value of "approved" and "retry" (default False), anything else
   * is unknown. A value that is not an object has no .get.
   */
  function ParseRequest(v: Json): (r: Request)
    ensures r.NotADict? <==> !v.JObject?
    ensures r.UserMessage? <==> v.JObject? && Get(v.fields, "type", JNull) == JString("message")
    ensures r.UserMessage? ==> r.content == Get(v.fields, "content", JString(""))
    ensures r.ApprovalReply? <==> v.JObject? && Get(v.fields, "type", JNull) == JString("command_approval")
    ensures r.ApprovalReply? ==> (r.approved <==> "approved" in v.fields && Truthy(v.fields["approved"]))
    ensures r.RetryReply? <==> v.JObject? && Get(v.fields, "type", JNull) == JString("retry_response")
    ensures r.RetryReply? ==> (r.retry <==> "retry" in v.fields && Truthy(v.fields["retry"]))
    ensures r.UnknownType? ==> r.msgType == Get(v.fields, "type", JNull)
  {
    if !v.JObject? then NotADict(PyTypeName(v))
    else
      var m := v.fields;
      var t := Get(m, "type", JNull);
      if t == JString("message") then UserMessage(Get(m, "content", JString("")))
      else if t == JString("command_approval") then ApprovalReply(Truthy(Get(m, "approved", JBool(false))))
      else if t == JString("retry_response") then RetryReply(Truthy(Get(m, "retry", JBool(false))))
      else UnknownType(t)
  }

  /** Python's str() of a scalar; lists and dicts are not rendered. */
  function PyStr(v: Json): string {
    match v
    case JNull => "None"
    case JBool(b) => if b then "True" else "False"
    case JNumber(n) => IntToString(n)
    case JString(s) => s
    case JArray(_) => "[...]"
    case JObject(_) => "{...}"
  }

  /**
   * handle_client_message. `uuid` names the thread of a session it starts
   * and `result` is what the graph call, if any, gives back.
   */
  function HandleMessage(s: ServerState, id: ClientId, v: Json, uuid: string, result: InvokeResult): ServerState {
    match ParseRequest(v)
    case NotADict(t) => Send(s, id, ErrorMessage("'" + t + "' object has no attribute 'get'"))
    case UserMessage(content) => StartSession(s, id, content, uuid, result)
    case ApprovalReply(b) => Respond(s, id, Approval, b, result)
    case RetryReply(b) => Respond(s, id, Retry, b, result)
    case UnknownType(t) => Send(s, id, ErrorMessage("Unknown message type: " + PyStr(t)))
  }

  /** A frame read from a client: parsed JSON, or text that is not JSON. */
  datatype Inbound = Inbound(payload: Option<Json>, uuid: string, result: InvokeResult)

  function HandleFrame(s: ServerState, id: ClientId, f: Inbound): ServerState {
    match f.payload
    case None => Send(s, id, ErrorMessage(InvalidJsonText))
    case Some(v) => HandleMessage(s, id, v, f.uuid, f.result)
  }

  /** The frames of one connection, in order. */
  function HandleFrames(s: ServerState, id: ClientId, fs: seq<Inbound>): ServerState
    decreases |fs|
  {
    if fs == [] then s else HandleFrame(HandleFrames(s, id, fs[..|fs| - 1]), id, fs[|fs| - 1])
  }

  /**
   * handle_websocket: register the client, greet it, process its frames
   * until the connection ends, then unregister it and drop its session.
   */
  function Connection(s: ServerState, id: ClientId, fs: seq<Inbound>): ServerState {
    var greeted := Send(s.(clients := s.clients[id := true]), id, OutMessage("message", WelcomeText, map[]));
    var done := HandleFrames(greeted, id, fs);
    done.(clients := done.clients - {id}, sessions := done.sessions - {id})
  }

  // ---------------------------------------------------------------------
  // Properties

  /**
   * A session waits exactly when it records the kind of interrupt, and
   * its thread belongs to its client.
   */
  ghost predicate ValidState(s: ServerState) {
    forall c | c in s.sessions ::
      (s.sessions[c].waiting <==> s.sessions[c].interrupt.Some?)
      && StartsWith(s.sessions[c].thread, "session_" + c + "_")
  }

  /**
   * `r` differs from `s` only for client `id`: the outbox only grows, by
   * messages to `id`, and every other client's connection and session are
   * as they were.
   */
  ghost predicate OnlyTouches(s: ServerState, r: ServerState, id: ClientId) {
    |s.outbox| <= |r.outbox| && r.outbox[..|s.outbox|] == s.outbox
    && (forall k | |s.outbox| <= k < |r.outbox| :: r.outbox[k].client == id)
    && (forall c | c != id :: (c in r.clients <==> c in s.clients) && (c in r.clients ==> r.clients[c] == s.clients[c]))
    && (forall c | c != id :: (c in r.sessions <==> c in s.sessions) && (c in r.sessions ==> r.sessions[c] == s.sessions[c]))
  }

  lemma OnlyTouchesTrans(a: ServerState, b: ServerState, c: ServerState, id: ClientId)
    requires OnlyTouches(a, b, id) && OnlyTouches(b, c, id)
    ensures OnlyTouches(a, c, id)
  {
    assert c.outbox[..|a.outbox|] == c.outbox[..|b.outbox|][..|a.outbox|];
    forall k | |a.outbox| <= k < |c.outbox| ensures c.outbox[k].client == id {
      if k < |b.outbox| {
        assert c.outbox[k] == c.outbox[..|b.outbox|][k];
      }
    }
  }

  lemma SendTouches(s: ServerState, id: ClientId, msg: map<string, Json>)
    ensures OnlyTouches(s, Send(s, id, msg), id)
  {
    assert (s.outbox + Posted(s, id, msg))[..|s.outbox|] == s.outbox;
  }

  lemma {:induction false} InterruptTouches(s: ServerState, id: ClientId, vs: seq<map<string, Json>>)
    requires id in s.sessions
    ensures OnlyTouches(s, Forward(s, id, vs), id)
    decreases |vs|
  {
    if vs != [] {
      var mid := Forward(s, id, vs[..|vs| - 1]);
      InterruptTouches(s, id, vs[..|vs| - 1]);
      var v := vs[|vs| - 1];
      if Classify(v).Some? {
        var marked := mid.(sessions := mid.sessions[id := Session(mid.sessions[id].thread, true, Classify(v))]);
        SendTouches(marked, id, InterruptMessage(v, Classify(v).value));
        OnlyTouchesTrans(s, mid, Send(marked, id, InterruptMessage(v, Classify(v).value)), id);
      }
    }
  }

  lemma AfterResultTouches(s: ServerState, id: ClientId, vs: seq<map<string, Json>>, final: map<string, Json>)
    requires id in s.sessions
    ensures OnlyTouches(s, AfterResult(s, id, vs, final), id)
  {
    if vs != [] {
      InterruptTouches(s, id, vs);
    } else {
      SendTouches(s, id, CompletionMessage(final));
    }
  }

  lemma HandleMessageTouches(s: ServerState, id: ClientId, v: Json, uuid: string, result: InvokeResult)
    ensures OnlyTouches(s, HandleMessage(s, id, v, uuid, result), id)
  {
    match ParseRequest(v)
    case NotADict(t) => SendTouches(s, id, ErrorMessage("'" + t + "' object has no attribute 'get'"));
    case UnknownType(t) => SendTouches(s, id, ErrorMessage("Unknown message type: " + PyStr(t)));
    case UserMessage(content) =>
      var started := s.(sessions := s.sessions[id := Session(ThreadId(id, uuid), false, None)]);
      RunGraphTouches(started, id, content, result);
      OnlyTouchesTrans(s, started, RunGraph(started, id, content, result), id);
    case ApprovalReply(b) => HandleResponseTouches(s, id, Approval, b, result);
    case RetryReply(b) => HandleResponseTouches(s, id, Retry, b, result);
  }

  lemma RunGraphTouches(s: ServerState, id: ClientId, prompt: Json, result: InvokeResult)
    requires id in s.sessions
    ensures OnlyTouches(s, RunGraph(s, id, prompt, result), id)
  {
    var called := s.(calls := s.calls + [Invoke(s.sessions[id].thread, prompt)]);
    match result
    case Raised(e) => SendTouches(called, id, ErrorMessage(e));
    case Returned(vs, final) => AfterResultTouches(called, id, vs, final);
  }

  lemma HandleResponseTouches(s: ServerState, id: ClientId, kind: InterruptKind, decision: bool, result: InvokeResult)
    ensures OnlyTouches(s, Respond(s, id, kind, decision, result), id)
  {
    if id !in s.sessions {
      SendTouches(s, id, ErrorMessage(NoSessionText));
    } else if !Pending(s, id, kind) {
      SendTouches(s, id, ErrorMessage(NotWaitingText(kind)));
    } else {
      var session := s.sessions[id];
      var called := s.(calls := s.calls + [Resume(session.thread, ResumeResponse(kind, decision))]);
      match result
      case Raised(e) => SendTouches(called, id, ErrorMessage(e));
      case Returned(vs, final) =>
        var resumed := called.(sessions := called.sessions[id := session.(waiting := false, interrupt := None)]);
        AfterResultTouches(resumed, id, vs, final);
        OnlyTouchesTrans(s, resumed, AfterResult(resumed, id, vs, final), id);
    }
  }

  lemma {:induction false} FramesTouch(s: ServerState, id: ClientId, fs: seq<Inbound>)
    ensures OnlyTouches(s, HandleFrames(s, id, fs), id)
    decreases |fs|
  {
    if fs != [] {
      var mid := HandleFrames(s, id, fs[..|fs| - 1]);
      FramesTouch(s, id, fs[..|fs| - 1]);
      var f := fs[|fs| - 1];
      match f.payload
      case None => SendTouches(mid, id, ErrorMessage(InvalidJsonText));
      case Some(v) => HandleMessageTouches(mid, id, v, f.uuid, f.result);
      OnlyTouchesTrans(s, mid, HandleFrames(s, id, fs), id);
    }
  }

  /**
   * When a connection ends the client and its session are gone, it was
   * greeted first, and no other client's connection, session or messages
   * were affected.
   */
  lemma ConnectionCleanup(s: ServerState, id: ClientId, fs: seq<Inbound>)
    ensures var r := Connection(s, id, fs);
            id !in r.clients && id !in r.sessions
            && |r.outbox| > |s.outbox| && r.outbox[|s.outbox|] == Delivery(id, OutMessage("message", WelcomeText, map[]))
            && OnlyTouches(s, r, id)
  {
    var registered := s.(clients := s.clients[id := true]);
    var greeted := Send(registered, id, OutMessage("message", WelcomeText, map[]));
    SendTouches(registered, id, OutMessage("message", WelcomeText, map[]));
    var done := HandleFrames(greeted, id, fs);
    FramesTouch(greeted, id, fs);
    OnlyTouchesTrans(registered, greeted, done, id);
    var r := Connection(s, id, fs);
    assert r.outbox[|s.outbox|] == done.outbox[..|greeted.outbox|][|s.outbox|];
  }
  /**
   * A new request always calls the graph on the thread
   * session_<client>_<uuid>, for the uuid it is given.
   * The session survives only if the graph stopped at interrupts; it then
   * waits for the last recognised one, or for nothing if none was
   * recognised. Any earlier session of the client is gone either way.
   */
  lemma StartSessionOutcome(s: ServerState, id: ClientId, prompt: Json, uuid: string, result: InvokeResult)
    ensures var r := StartSession(s, id, prompt, uuid, result);
            r.calls == s.calls + [Invoke(ThreadId(id, uuid), prompt)]
            && (id in r.sessions <==> result.Returned? && result.interrupts != [])
            && (id in r.sessions ==>
                  r.sessions[id] == Session(ThreadId(id, uuid), LastKind(result.interrupts).Some?, LastKind(result.interrupts)))
  {
  }

  /**
   * A reply without a pending interrupt of its kind changes no session and
   * calls no graph: the client only gets "No active session found", or
   * "Not waiting for approval" / "Not waiting for retry response".
   */
  lemma RejectedResponse(s: ServerState, id: ClientId, kind: InterruptKind, decision: bool, result: InvokeResult)
    requires !Pending(s, id, kind)
    ensures var r := Respond(s, id, kind, decision, result);
            r.sessions == s.sessions && r.calls == s.calls
            && r.outbox == s.outbox + Posted(s, id, ErrorMessage(if id in s.sessions then NotWaitingText(kind) else NoSessionText))
  {
  }

  /**
   * A reply to the pending interrupt resumes the session's thread with
   * the decision. If the graph raises, the session keeps waiting; if it
   * completes, the session is gone; if it interrupts again, the session
   * waits for the new interrupt, and for nothing if none was recognised.
   */
  lemma AcceptedResponse(s: ServerState, id: ClientId, kind: InterruptKind, decision: bool, result: InvokeResult)
    requires Pending(s, id, kind)
    ensures var r := Respond(s, id, kind, decision, result);
            var thread := s.sessions[id].thread;
            r.calls == s.calls + [Resume(thread, ResumeResponse(kind, decision))]
            && (result.Raised? ==> r.sessions == s.sessions)
            && (result.Returned? && result.interrupts == [] ==> r.sessions == s.sessions - {id})
            && (result.Returned? && result.interrupts != [] ==>
                  r.sessions == s.sessions[id := Session(thread, LastKind(result.interrupts).Some?, LastKind(result.interrupts))])
  {
  }

  lemma InterruptKeepsValid(s: ServerState, id: ClientId, vs: seq<map<string, Json>>)
    requires ValidState(s) && id in s.sessions
    ensures ValidState(Forward(s, id, vs))
  {
    var r := Forward(s, id, vs);
    forall c | c in r.sessions
      ensures (r.sessions[c].waiting <==> r.sessions[c].interrupt.Some?)
              && StartsWith(r.sessions[c].thread, "session_" + c + "_")
    {
      if c != id {
        assert r.sessions[c] == s.sessions[c];
      }
    }
  }

  lemma AfterResultKeepsValid(s: ServerState, id: ClientId, vs: seq<map<string, Json>>, final: map<string, Json>)
    requires ValidState(s) && id in s.sessions
    ensures ValidState(AfterResult(s, id, vs, final))
  {
    if vs != [] {
      InterruptKeepsValid(s, id, vs);
    }
  }

  /** Every request keeps the sessions valid. */
  lemma HandleMessageKeepsValid(s: ServerState, id: ClientId, v: Json, uuid: string, result: InvokeResult)
    requires ValidState(s)
    ensures ValidState(HandleMessage(s, id, v, uuid, result))
  {
    match ParseRequest(v)
    case UserMessage(content) =>
      var started := s.(sessions := s.sessions[id := Session(ThreadId(id, uuid), false, None)]);
      assert ValidState(started);
      var called := started.(calls := started.calls + [Invoke(ThreadId(id, uuid), content)]);
      if result.Returned? {
        AfterResultKeepsValid(called, id, result.interrupts, result.final);
      }
    case ApprovalReply(b) => HandleResponseKeepsValid(s, id, Approval, b, result);
    case RetryReply(b) => HandleResponseKeepsValid(s, id, Retry, b, result);
    case _ =>
  }

  lemma HandleResponseKeepsValid(s: ServerState, id: ClientId, kind: InterruptKind, decision: bool, result: InvokeResult)
    requires ValidState(s)
    ensures ValidState(Respond(s, id, kind, decision, result))
  {
    if Pending(s, id, kind) && result.Returned? {
      var session := s.sessions[id];
      var called := s.(calls := s.calls + [Resume(session.thread, ResumeResponse(kind, decision))]);
      var resumed := called.(sessions := called.sessions[id := session.(waiting := false, interrupt := None)]);
      assert ValidState(resumed);
      AfterResultKeepsValid(resumed, id, result.interrupts, result.final);
    }
  }

  lemma {:induction false} FramesKeepValid(s: ServerState, id: ClientId, fs: seq<Inbound>)
    requires ValidState(s)
    ensures ValidState(HandleFrames(s, id, fs))
    decreases |fs|
  {
    if fs != [] {
      FramesKeepValid(s, id, fs[..|fs| - 1]);
      var f := fs[|fs| - 1];
      if f.payload.Some? {
        HandleMessageKeepsValid(HandleFrames(s, id, fs[..|fs| - 1]), id, f.payload.value, f.uuid, f.result);
      }
    }
  }

  lemma ConnectionKeepsValid(s: ServerState, id: ClientId, fs: seq<Inbound>)
    requires ValidState(s)
    ensures ValidState(Connection(s, id, fs))
  {
    var greeted := Send(s.(clients := s.clients[id := true]), id, OutMessage("message", WelcomeText, map[]));
    FramesKeepValid(greeted, id, fs);
  }
  // ---------------------------------------------------------------------
  // The server object

  /**
   * AgentServer: the connected clients, the active sessions, and what was
   * sent and asked of the graph so far. Each method is proved to move the
   * state exactly as the function of the same step above.
   */
  class AgentServer {
    var clients: map<ClientId, bool>
    var sessions: map<ClientId, Session>
    var outbox: seq<Delivery>
    var calls: seq<GraphCall>

    function State(): ServerState
      reads this
    {
      ServerState(clients, sessions, outbox, calls)
    }

    ghost predicate Valid()
      reads this
    {
      ValidState(State())
    }

    constructor()
      ensures State() == ServerState(map[], map[], [], []) && Valid()
    {
      clients := map[];
      sessions := map[];
      outbox := [];
      calls := [];
    }

    /** register_client. */
    method RegisterClient(id: ClientId)
      modifies this`clients
      ensures clients == old(clients)[id := true]
    {
      clients := clients[id := true];
    }

    /** unregister_client: removing an unknown client changes nothing. */
    method UnregisterClient(id: ClientId)
      modifies this`clients
      ensures clients == old(clients) - {id}
    {
      if id in clients {
        clients := clients - {id};
      }
    }

    /** The client's side of the connection closes; sends to it fail from now on. */
    method PeerClosed(id: ClientId)
      modifies this`clients
      ensures clients == if id in old(clients) then old(clients)[id := false] else old(clients)
    {
      if id in clients {
        clients := clients[id := false];
      }
    }

    /** send_message. */
    method SendMessage(id: ClientId, msg: map<string, Json>)
      modifies this`clients, this`outbox
      ensures State() == Send(old(State()), id, msg)
    {
      if id !in clients {
        return;
      }
      if clients[id] {
        outbox := outbox + [Delivery(id, msg)];
      } else {
        UnregisterClient(id);
      }
    }

    /** handle_interrupt. */
    method HandleInterrupt(id: ClientId, vs: seq<map<string, Json>>)
      requires id in sessions
      modifies this`clients, this`outbox, this`sessions
      ensures State() == Forward(old(State()), id, vs)
    {
      var i := 0;
      while i < |vs|
        invariant 0 <= i <= |vs|
        invariant State() == Forward(old(State()), id, vs[..i])
      {
        var v := vs[i];
        assert vs[..i + 1][..i] == vs[..i];
        match Classify(v) {
          case None =>
          case Some(k) =>
            sessions := sessions[id := Session(sessions[id].thread, true, Some(k))];
            SendMessage(id, InterruptMessage(v, k));
        }
        i := i + 1;
      }
      assert vs[..|vs|] == vs;
    }

    /** continue_after_response. */
    method ContinueAfterResponse(id: ClientId, vs: seq<map<string, Json>>, final: map<string, Json>)
      requires id in sessions
      modifies this`clients, this`outbox, this`sessions
      ensures State() == AfterResult(old(State()), id, vs, final)
    {
      if vs != [] {
        HandleInterrupt(id, vs);
        return;
      }
      SendMessage(id, CompletionMessage(final));
      if id in sessions {
        sessions := sessions - {id};
      }
    }

    /** run_agent_graph. */
    method RunAgentGraph(id: ClientId, prompt: Json, result: InvokeResult)
      requires id in sessions
      modifies this
      ensures State() == RunGraph(old(State()), id, prompt, result)
    {
      calls := calls + [Invoke(sessions[id].thread, prompt)];
      match result {
        case Raised(e) =>
          SendMessage(id, ErrorMessage(e));
          if id in sessions {
            sessions := sessions - {id};
          }
        case Returned(vs, final) =>
          ContinueAfterResponse(id, vs, final);
      }
    }

    /** start_agent_session. */
    method StartAgentSession(id: ClientId, prompt: Json, uuid: string, result: InvokeResult)
      modifies this
      ensures State() == StartSession(old(State()), id, prompt, uuid, result)
    {
      sessions := sessions[id := Session(ThreadId(id, uuid), false, None)];
      RunAgentGraph(id, prompt, result);
    }

    /** handle_approval_response. */
    method HandleApprovalResponse(id: ClientId, approved: bool, result: InvokeResult)
      modifies this
      ensures State() == Respond(old(State()), id, Approval, approved, result)
    {
      if id !in sessions {
        SendMessage(id, ErrorMessage(NoSessionText));
        return;
      }
      var session := sessions[id];
      if !session.waiting || session.interrupt != Some(Approval) {
        SendMessage(id, ErrorMessage(NotWaitingText(Approval)));
        return;
      }
      calls := calls + [Resume(session.thread, ResumeResponse(Approval, approved))];
      match result {
        case Raised(e) =>
          SendMessage(id, ErrorMessage(e));
        case Returned(vs, final) =>
          sessions := sessions[id := session.(waiting := false, interrupt := None)];
          ContinueAfterResponse(id, vs, final);
      }
    }

    /** handle_retry_response. */
    method HandleRetryResponse(id: ClientId, retry: bool, result: InvokeResult)
      modifies this
      ensures State() == Respond(old(State()), id, Retry, retry, result)
    {
      if id !in sessions {
        SendMessage(id, ErrorMessage(NoSessionText));
        return;
      }
      var session := sessions[id];
      if !session.waiting || session.interrupt != Some(Retry) {
        SendMessage(id, ErrorMessage(NotWaitingText(Retry)));
        return;
      }
      calls := calls + [Resume(session.thread, ResumeResponse(Retry, retry))];
      match result {
        case Raised(e) =>
          SendMessage(id, ErrorMessage(e));
        case Returned(vs, final) =>
          sessions := sessions[id := session.(waiting := false, interrupt := None)];
          ContinueAfterResponse(id, vs, final);
      }
    }

    /** handle_client_message; it keeps the sessions valid. */
    method HandleClientMessage(id: ClientId, v: Json, uuid: string, result: InvokeResult)
      modifies this
      ensures State() == HandleMessage(old(State()), id, v, uuid, result)
      ensures old(Valid()) ==> Valid()
    {
      if Valid() {
        HandleMessageKeepsValid(State(), id, v, uuid, result);
      }
      match ParseRequest(v) {
        case NotADict(t) =>
          SendMessage(id, ErrorMessage("'" + t + "' object has no attribute 'get'"));
        case UserMessage(content) =>
          StartAgentSession(id, content, uuid, result);
        case ApprovalReply(b) =>
          HandleApprovalResponse(id, b, result);
        case RetryReply(b) =>
          HandleRetryResponse(id, b, result);
        case UnknownType(t) =>
          SendMessage(id, ErrorMessage("Unknown message type: " + PyStr(t)));
      }
    }

    /** One frame of the receive loop: text that is not JSON is answered with an error. */
    method HandleInboundFrame(id: ClientId, f: Inbound)
      modifies this
      ensures State() == HandleFrame(old(State()), id, f)
    {
      match f.payload {
        case None =>
          SendMessage(id, ErrorMessage(InvalidJsonText));
        case Some(v) =>
          HandleClientMessage(id, v, f.uuid, f.result);
      }
    }

    /** The receive loop of handle_websocket, until the connection ends. */
    method HandleFrameSequence(id: ClientId, frames: seq<Inbound>)
      modifies this
      ensures State() == HandleFrames(old(State()), id, frames)
    {
      var i := 0;
      while i < |frames|
        invariant 0 <= i <= |frames|
        invariant State() == HandleFrames(old(State()), id, frames[..i])
      {
        assert frames[..i + 1][..i] == frames[..i];
        HandleInboundFrame(id, frames[i]);
        i := i + 1;
      }
      assert frames[..|frames|] == frames;
    }

    /**
     * handle_websocket: the connection's frames in order, then the cleanup.
     * The client and its session are gone afterwards, and nothing of any
     * other client changed.
     */
    method HandleWebsocket(id: ClientId, frames: seq<Inbound>)
      requires Valid()
      modifies this
      ensures State() == Connection(old(State()), id, frames)
      ensures Valid()
      ensures id !in clients && id !in sessions
      ensures OnlyTouches(old(State()), State(), id)
    {
      ghost var start := State();
      RegisterClient(id);
      SendMessage(id, OutMessage("message", WelcomeText, map[]));
      assert State() == Send(start.(clients := start.clients[id := true]), id, OutMessage("message", WelcomeText, map[]));
      HandleFrameSequence(id, frames);
      ghost var done := State();
      UnregisterClient(id);
      if id in sessions {
        sessions := sessions - {id};
      } else {
        assert sessions == done.sessions - {id};
      }
      assert State() == done.(clients := done.clients - {id}, sessions := done.sessions - {id});
      ConnectionKeepsValid(start, id, frames);
      ConnectionCleanup(start, id, frames);
    }
  }
}
