/**
 * The two ends of the websocket together: what the terminal client writes
 * is read by the agent server as the request it stands for, and what the
 * server sends for the graph's interrupts and results is decoded by the
 * client and routed to the handler for it.
 */
module Protocol {
  import opened Wrappers
  import opened Json
  import opened Text
  import Prompts
  import WebSocketClient
  import Server

  // ---------------------------------------------------------------------
  // Client to server

  /**
   * A chat message reaches the server as a request to start a session with
   * that text, including the empty text, whose field the client leaves out.
   */
  lemma ChatReachesServer(content: string)
    ensures Server.ParseRequest(WebSocketClient.EncodeClientMessage(WebSocketClient.ChatMessage(content)))
              == Server.UserMessage(JString(content))
  {
    var f := WebSocketClient.EncodeClientMessage(WebSocketClient.ChatMessage(content)).fields;
    assert f["type"] == JString("message");
    assert "content" in f <==> content != "";
  }

  /** An approval decision reaches the server as that decision, a false one included. */
  lemma ApprovalReachesServer(approved: bool)
    ensures Server.ParseRequest(WebSocketClient.EncodeClientMessage(WebSocketClient.ApprovalMessage(approved)))
              == Server.ApprovalReply(approved)
  {
    var f := WebSocketClient.EncodeClientMessage(WebSocketClient.ApprovalMessage(approved)).fields;
    assert f["type"] == JString("command_approval");
    assert "approved" in f <==> approved;
  }

  /** A retry decision reaches the server as that decision, a false one included. */
  lemma RetryReachesServer(retry: bool)
    ensures Server.ParseRequest(WebSocketClient.EncodeClientMessage(WebSocketClient.RetryMessage(retry)))
              == Server.RetryReply(retry)
  {
    var f := WebSocketClient.EncodeClientMessage(WebSocketClient.RetryMessage(retry)).fields;
    assert f["type"] == JString("retry_response");
    assert "retry" in f <==> retry;
  }

  // ---------------------------------------------------------------------
  // Server to client

  /** The client's view of a message the server sends as a JSON object. */
  function Received(message: map<string, Json>): Result<WebSocketClient.ServerMessage, string> {
    WebSocketClient.DecodeServerMessage(JObject(message))
  }

  /**
   * An approval interrupt of the graph is forwarded as a command_approval
   * message; the client decodes the command as its words and the question
   * as the explanation, and raises a command approval with them.
   */
  lemma ApprovalInterruptReachesClient(command: string, userPrompt: string, retryCount: int,
                                       handlers: set<WebSocketClient.Handler>)
    ensures var payload := Prompts.ApprovalRequestData(command, userPrompt, retryCount);
            Server.Classify(payload) == Some(Server.Approval)
            && Received(Server.InterruptMessage(payload, Server.Approval))
                 == Ok(WebSocketClient.ServerMessage(WebSocketClient.TypeCommandApproval, "", Fields(command),
                                                   Prompts.ApprovalQuestion, "", retryCount, "", false))
    ensures WebSocketClient.OnCommandApproval in handlers ==>
              var payload := Prompts.ApprovalRequestData(command, userPrompt, retryCount);
              var m := Received(Server.InterruptMessage(payload, Server.Approval)).value;
              WebSocketClient.Dispatch(m, handlers)
                == Some(WebSocketClient.CommandApprovalEvent(Fields(command), Prompts.ApprovalQuestion))
  {
    ApprovalForwarded(command, userPrompt, retryCount);
    ApprovalMessageDecodes(Server.InterruptMessage(Prompts.ApprovalRequestData(command, userPrompt, retryCount), Server.Approval),
                           command, retryCount, handlers);
  }

  /**
   * An approval interrupt reaching an open connection is sent to it as
   * exactly one message, the one the client decodes above.
   */
  lemma ApprovalInterruptSent(s: Server.ServerState, id: Server.ClientId, command: string, userPrompt: string,
                              retryCount: int)
    requires id in s.sessions && id in s.clients && s.clients[id]
    ensures var payload := Prompts.ApprovalRequestData(command, userPrompt, retryCount);
            Server.Forward(s, id, [payload]).outbox
              == s.outbox + [Server.Delivery(id, Server.InterruptMessage(payload, Server.Approval))]
  {
    var payload := Prompts.ApprovalRequestData(command, userPrompt, retryCount);
    assert Server.Classify(payload) == Some(Server.Approval);
    assert [payload][..0] == [];
  }

  /** The fields of the message an approval interrupt is forwarded as. */
  lemma ApprovalForwarded(command: string, userPrompt: string, retryCount: int)
    ensures var msg := Server.InterruptMessage(Prompts.ApprovalRequestData(command, userPrompt, retryCount), Server.Approval);
            msg.Keys == {"type", "content", "command", "explanation", "retry_count"}
            && "error" !in msg && "output" !in msg && "success" !in msg
            && msg["type"] == JString("command_approval") && msg["content"] == JString("")
            && msg["command"] == JString(command) && msg["explanation"] == JString(Prompts.ApprovalQuestion)
            && msg["retry_count"] == JNumber(retryCount)
  {
    var payload := Prompts.ApprovalRequestData(command, userPrompt, retryCount);
    assert payload["question"] == JString(Prompts.ApprovalQuestion);
  }

  /** A command_approval message with these fields decodes and is routed as a command approval. */
  lemma ApprovalMessageDecodes(msg: map<string, Json>, command: string, retryCount: int,
                               handlers: set<WebSocketClient.Handler>)
    requires "type" in msg && "content" in msg && "command" in msg && "explanation" in msg && "retry_count" in msg
    requires "error" !in msg && "output" !in msg && "success" !in msg
    requires msg["type"] == JString("command_approval") && msg["content"] == JString("")
    requires msg["command"] == JString(command) && msg["explanation"] == JString(Prompts.ApprovalQuestion)
    requires msg["retry_count"] == JNumber(retryCount)
    ensures Received(msg) == Ok(WebSocketClient.ServerMessage(WebSocketClient.TypeCommandApproval, "", Fields(command),
                                                              Prompts.ApprovalQuestion, "", retryCount, "", false))
    ensures WebSocketClient.OnCommandApproval in handlers ==>
              WebSocketClient.Dispatch(Received(msg).value, handlers)
                == Some(WebSocketClient.CommandApprovalEvent(Fields(command), Prompts.ApprovalQuestion))
  {
    WebSocketClient.DecodesAs(msg, WebSocketClient.ServerMessage(WebSocketClient.TypeCommandApproval, "", Fields(command),
                                                 Prompts.ApprovalQuestion, "", retryCount, "", false));
  }

  /**
   * A retry interrupt is forwarded as a retry_request message whose
   * content is empty; the client decodes the error and output but hands
   * its retry handler only that empty content and the retry count.
   */
  lemma RetryInterruptReachesClient(original: string, error: string, output: string, retryCount: int,
                                    handlers: set<WebSocketClient.Handler>)
    ensures var payload := Prompts.RetryRequestData(original, error, output, retryCount);
            Server.Classify(payload) == Some(Server.Retry)
            && Received(Server.InterruptMessage(payload, Server.Retry))
                 == Ok(WebSocketClient.ServerMessage(WebSocketClient.TypeRetryRequest, "", [], "",
                                                   error, retryCount, output, false))
    ensures WebSocketClient.OnRetryRequest in handlers ==>
              var payload := Prompts.RetryRequestData(original, error, output, retryCount);
              var m := Received(Server.InterruptMessage(payload, Server.Retry)).value;
              WebSocketClient.Dispatch(m, handlers) == Some(WebSocketClient.RetryRequestEvent("", retryCount))
  {
    RetryForwarded(original, error, output, retryCount);
    RetryMessageDecodes(Server.InterruptMessage(Prompts.RetryRequestData(original, error, output, retryCount), Server.Retry),
                        error, output, retryCount, handlers);
  }

  /** A retry interrupt reaching an open connection is sent to it as exactly one message. */
  lemma RetryInterruptSent(s: Server.ServerState, id: Server.ClientId, original: string, error: string,
                           output: string, retryCount: int)
    requires id in s.sessions && id in s.clients && s.clients[id]
    ensures var payload := Prompts.RetryRequestData(original, error, output, retryCount);
            Server.Forward(s, id, [payload]).outbox
              == s.outbox + [Server.Delivery(id, Server.InterruptMessage(payload, Server.Retry))]
  {
    var payload := Prompts.RetryRequestData(original, error, output, retryCount);
    assert Server.Classify(payload) == Some(Server.Retry);
    assert [payload][..0] == [];
  }

  /** The fields of the message a retry interrupt is forwarded as; its command is empty. */
  lemma RetryForwarded(original: string, error: string, output: string, retryCount: int)
    ensures var msg := Server.InterruptMessage(Prompts.RetryRequestData(original, error, output, retryCount), Server.Retry);
            msg.Keys == {"type", "content", "command", "error", "output", "retry_count"}
            && "explanation" !in msg && "success" !in msg
            && msg["type"] == JString("retry_request") && msg["content"] == JString("")
            && msg["command"] == JString("") && msg["error"] == JString(error) && msg["output"] == JString(output)
            && msg["retry_count"] == JNumber(retryCount)
  {
  }

  /** A retry_request message with these fields decodes and is routed as a retry request. */
  lemma RetryMessageDecodes(msg: map<string, Json>, error: string, output: string, retryCount: int,
                            handlers: set<WebSocketClient.Handler>)
    requires "type" in msg && "content" in msg && "command" in msg && "error" in msg && "output" in msg
    requires "retry_count" in msg && "explanation" !in msg && "success" !in msg
    requires msg["type"] == JString("retry_request") && msg["content"] == JString("")
    requires msg["command"] == JString("") && msg["error"] == JString(error) && msg["output"] == JString(output)
    requires msg["retry_count"] == JNumber(retryCount)
    ensures Received(msg) == Ok(WebSocketClient.ServerMessage(WebSocketClient.TypeRetryRequest, "", [], "",
                                                              error, retryCount, output, false))
    ensures WebSocketClient.OnRetryRequest in handlers ==>
              WebSocketClient.Dispatch(Received(msg).value, handlers) == Some(WebSocketClient.RetryRequestEvent("", retryCount))
  {
    WebSocketClient.DecodesAs(msg, WebSocketClient.ServerMessage(WebSocketClient.TypeRetryRequest, "", [], "",
                                                 error, retryCount, output, false));
  }

  /**
   * The completion report decodes on the client with the command's output,
   * its error when it failed, and success exactly when it did not; the
   * output handler receives the output. The graph's final state holds
   * strings under both keys.
   */
  lemma CompletionReachesClient(final: map<string, Json>, handlers: set<WebSocketClient.Handler>)
    requires Get(final, "command_output", JString("")).JString?
    requires "command_error" in final ==> final["command_error"].JString?
    ensures var out := Get(final, "command_output", JString("")).s;
            var err := Get(final, "command_error", JString("")).s;
            Received(Server.CompletionMessage(final))
              == Ok(WebSocketClient.ServerMessage(WebSocketClient.TypeCommandOutput, "", [], "", err, 0, out, err == ""))
    ensures WebSocketClient.OnCommandOutput in handlers ==>
              var m := Received(Server.CompletionMessage(final)).value;
              WebSocketClient.Dispatch(m, handlers)
                == Some(WebSocketClient.CommandOutputEvent(Get(final, "command_output", JString("")).s))
  {
    var msg := Server.CompletionMessage(final);
    var out := Get(final, "command_output", JString("")).s;
    var err := Get(final, "command_error", JString("")).s;
    assert msg["content"] == JString("");
    if "command_error" in final {
      assert Server.CommandFailed(final) <==> err != "";
    } else {
      assert !Server.CommandFailed(final);
    }
    WebSocketClient.DecodesAs(msg, WebSocketClient.ServerMessage(WebSocketClient.TypeCommandOutput, "", [], "", err, 0, out, err == ""));
  }

  /**
   * An error the server reports reaches the client's error handler as the
   * empty text: the server puts the text under "content" and the client
   * hands its error handler the "error" field.
   */
  lemma ServerErrorReachesClientEmpty(text: string, handlers: set<WebSocketClient.Handler>)
    requires WebSocketClient.OnError in handlers
    ensures Received(Server.ErrorMessage(text)).Ok?
    ensures WebSocketClient.Dispatch(Received(Server.ErrorMessage(text)).value, handlers)
              == Some(WebSocketClient.ErrorEvent(""))
  {
    var msg := Server.ErrorMessage(text);
    assert msg.Keys == {"type", "content"};
    assert msg["type"] == JString("error") && msg["content"] == JString(text);
    WebSocketClient.DecodesAs(msg, WebSocketClient.ServerMessage(WebSocketClient.TypeError, text, [], "", "", 0, "", false));
  }
}
