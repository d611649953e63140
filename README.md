# Cloud Assist: the command-approval protocol in Dafny

Cloud Assist is a DevOps assistant split into two programs that talk over a
websocket.

- **The agent** (Python) runs a LangGraph workflow:
  - it asks a language model for a shell command;
  - it interrupts to ask a human whether to run the command;
  - it runs the command;
  - when the command fails, it interrupts again to ask whether to retry with a different command, at most three times.

  Its websocket server keeps one session per client and forwards each interrupt to the client. It accepts an approval or retry reply only while the matching interrupt is pending, and reports the final result.
- **The terminal client** (Go) has two parts:
  - a websocket client that decodes the server's JSON messages and routes each to a handler;
  - a chat screen that shows each suggestion and turns the keys y, n, enter and ctrl+c into approval and retry decisions.

  A mock agent and a mock Docker service can stand in for the real agent while the interface is developed.

This project models that protocol from both ends and proves what each step
promises. Each source file becomes one module:

| module | file | source |
|---|---|---|
| `WebSocketClient` | `websocket_client.dfy` | `cli/client/websocket_client.go` |
| `Chat` | `chat.dfy` | `cli/ui/chat.go` |
| `Server` | `server.dfy` | `agent/src/server.py` |
| `Graph` | `graph.dfy` | `agent/src/graph.py` |
| `AgentMain` | `agent_main.dfy` | `agent/main.py` |
| `AgentUtils` | `utils.dfy` | `agent/src/utils.py` |
| `Prompts` | `prompts.dfy` | `agent/src/prompts.py` |
| `MockAgent` | `agent_service.dfy` | `cli/internal/mock/agent_service.go` |
| `DockerCommands` | `docker_commands.dfy` | `cli/internal/mock/docker_commands.go` |

`Protocol` (`protocol.dfy`) joins the two ends of the protocol. It proves that:

- what the client encodes, the server reads as the request it stands for;
- what the server sends for an interrupt or a result, the client decodes and routes to the right handler.

`Text`, `Json` and `Wrappers` are shared helpers:

- `Text` covers Go's and Python's white space, `strings.Fields`, `str.strip`, `str.split`, prefixes and ASCII lower-casing.
- `Json` is a JSON value with Python truthiness.
- `Wrappers` provides `Option` and `Result`.

**Form of the model**

- **Objects that update their fields in place are classes.**
  - `AgentServer` has the `clients` and `sessions` maps and an outbox of sent messages.
  - `AgentClient` has the `connected` flag and the recorded writes and handler calls.
  - `ChatModel` has the three mode flags and the message log.
  - `AgentService` and `DockerCommandService` are the two mocks.
- **Each class method is proved against a function on values.** Examples:
  - `Server.HandleMessage` for the server;
  - `Chat.React` for the screen;
  - `WebSocketClient.PumpEvents` for the read loop.

  Lemmas prove the invariants those functions keep.
- **The graph's nodes are pure functions.** A run is a configuration that one input at a time moves forward. An input is:
  - a language-model reply;
  - a shell outcome;
  - a human reply.
- **Outside calls are modelled as inputs.**
  - The language model, the shell, LangGraph's `invoke`, the websocket's reads and write failures are parameters.
  - The mocks' `rand.Intn` and Go's map iteration order are nondeterministic choices.

**Behaviours of the code worth knowing.** The model does what the code does in each case.

- **`Close` is not idempotent.** The first call closes the `done` channel. A second call panics: the model returns this as a flag and leaves the state as it was. `done` is never re-created, so after a reconnect the read loop delivers nothing.
- **ctrl+c sends no decline.** It clears both modes before the branches that would send a rejection test them, so no decision is sent.
- **A second approval request replaces the first.** The screen overwrites the pending suggestion rather than rejecting the request. The model proves the resulting bound instead: decisions sent never outnumber approval requests received (`Chat.ApprovalsNeverExceedRequests`).
- **Losing the connection keeps a pending decision pending.** The screen still shows it, but y and n do nothing until the client reconnects.

**The two ends disagree on two fields.** The Protocol lemmas state both facts as they are.

- The server reports errors under `content`. The client hands its error handler the `error` field, so every server error reaches the user as the empty text (`Protocol.ServerErrorReachesClientEmpty`).
- The server forwards a retry interrupt with an empty `content`. The client's retry handler therefore receives an empty text, and only the retry count (`Protocol.RetryInterruptReachesClient`).

## Model

| member | source | states |
|---|---|---|
| WebSocketClient.UnmarshalCommand | cli/client/websocket_client.go:49-66 | a JSON string decodes to its whitespace-separated words, an array of strings to exactly that list, null to the empty list; every other shape fails with "command field must be string or []string" |
| Text.Fields | cli/client/websocket_client.go:54 | strings.Fields: every word is non-empty and free of white space, and the words concatenate to the input with its white space removed |
| Text.WordLength | cli/client/websocket_client.go:54 | the length of the leading word: no white space before it and white space (or the end) right after it |
| Text.FieldsOfJoin | cli/client/websocket_client.go:49-66 | words joined with single spaces split back into exactly those words, so a command sent as a string comes back as the same token list |
| WebSocketClient.DecodeServerMessage | cli/client/websocket_client.go:33-43 | JSON null decodes to the zero message, any non-object fails, an object fails when its command field has the wrong shape, and a decoded command is the one the command field gives |
| WebSocketClient.DecodeEncodeServerMessage | cli/client/websocket_client.go:33-43 | every server message survives encoding and decoding unchanged |
| WebSocketClient.DecodesAs | cli/client/websocket_client.go:286-290 | an object whose eight fields decode to a message's fields unmarshals to that message |
| WebSocketClient.Dispatch | cli/client/websocket_client.go:292-319 | a message produces an event exactly when its type is known and that type's handler is registered, and on that handler only; command output falls back to the content when the output is empty; approval and retry events carry the message's command, explanation, content and count; a message event carries the content and an error event the error field |
| WebSocketClient.PumpEvents | cli/client/websocket_client.go:267-321 | the read loop never delivers more events than frames, and every event goes to a registered handler and is never the connection-lost event |
| WebSocketClient.PumpStep | cli/client/websocket_client.go:267-290 | one frame of the loop: a read error ends it, a frame without an event is skipped, and a frame with one puts it first |
| WebSocketClient.PumpStopsAtReadError | cli/client/websocket_client.go:273-283 | nothing after a read error is read |
| WebSocketClient.PumpSkipsUndecodable | cli/client/websocket_client.go:285-290 | a frame that does not parse or decode is skipped and the loop continues |
| WebSocketClient.AgentClient.constructor | cli/client/websocket_client.go:85-90 | a new client is disconnected, holds the URL, has no handlers, and has written and delivered nothing |
| WebSocketClient.AgentClient.SetHandler | cli/client/websocket_client.go:220-248 | setting a handler registers it and clearing one removes it |
| WebSocketClient.AgentClient.Connect | cli/client/websocket_client.go:93-112 | on a connected client, returns nil and changes nothing; a successful dial connects; a failed dial returns the wrapped dial error and leaves the client disconnected |
| WebSocketClient.AgentClient.SendMessage | cli/client/websocket_client.go:115-136 | returns "client not connected" and writes nothing when disconnected; otherwise attempts to write the chat message and returns the write error, if any |
| WebSocketClient.AgentClient.SendApproval | cli/client/websocket_client.go:139-156 | the same guard for an approval decision |
| WebSocketClient.AgentClient.SendCommandApproval | cli/client/websocket_client.go:159-161 | behaves exactly as SendApproval |
| WebSocketClient.AgentClient.SendRetryResponse | cli/client/websocket_client.go:164-181 | the same guard for a retry decision |
| WebSocketClient.AgentClient.Close | cli/client/websocket_client.go:189-211 | the first call disconnects the client and closes done; a second call panics, reported as a flag, and changes nothing else |
| WebSocketClient.AgentClient.Disconnect | cli/client/websocket_client.go:184-186 | behaves exactly as Close |
| WebSocketClient.AgentClient.IsConnected | cli/client/websocket_client.go:214-218 | reports the connected flag |
| WebSocketClient.AgentClient.ReadPump | cli/client/websocket_client.go:251-322 | delivers the events of the frames read before the first read error, unless done is already closed; leaves the client disconnected; reports the loss exactly when it had been connected and the handler is registered |
| WebSocketClient.AgentClient.DeliverFrames | cli/client/websocket_client.go:267-321 | the loop's deliveries are exactly PumpEvents of the frames |
| Chat.Decide | cli/ui/chat.go:276-320 | y/n send an approval only while a suggestion is pending and connected, or else a retry decision only while a retry is pending and connected; at most one message; the log only grows; the input box is untouched; suggestion mode stays exactly when it was on and the screen is disconnected |
| Chat.Submit | cli/ui/chat.go:246-274 | enter sends at most one message, and only a chat message; the log only grows; suggestion mode and retry mode are both unchanged |
| Chat.ReactToKey | cli/ui/chat.go:224-327 | a key sends at most one message; an approval only as a y/n answer to a pending suggestion while connected, and it leaves suggestion mode; suggestion mode is never entered by a key; the screen quits exactly on ctrl+c with no mode active |
| Chat.Receipt | cli/ui/chat.go:180-222 | an update that is not a key press only appends to the log and enters suggestion mode only for a command approval request |
| Chat.React | cli/ui/chat.go:176-343 | one update sends at most one message and only appends to the log; an approval or retry decision is sent only in the matching mode while connected; the screen quits exactly on ctrl+c with no mode active |
| Chat.KeyKeepsConsistent | cli/ui/chat.go:224-327 | a key press keeps the screen invariant: a pending suggestion hides the input box, the box is hidden only while some decision is pending, and the pending request is on the log |
| Chat.DecideKeepsConsistent | cli/ui/chat.go:276-320 | answering keeps that invariant |
| Chat.ReactKeepsConsistent | cli/ui/chat.go:176-343 | every update keeps that invariant |
| Chat.ApprovalRequestEntersSuggestionMode | cli/ui/chat.go:202-207 | a command approval request enters suggestion mode, stores the command and explanation, appends one suggestion entry, hides the input box and sends nothing |
| Chat.RetryRequestEntersRetryMode | cli/ui/chat.go:213-218 | a retry request enters retry mode, stores the content and count, appends one retry entry and hides the input box |
| Chat.AnswerSuggestion | cli/ui/chat.go:276-286 | y/Y or n/N with a suggestion pending while connected sends exactly one approval (true for y) and leaves suggestion mode with the input shown; a pending retry stays pending |
| Chat.AnswerRetry | cli/ui/chat.go:287-297 | with only a retry pending while connected, y/Y or n/N sends exactly one retry decision and leaves retry mode |
| Chat.DecisionKeysNeedConnection | cli/ui/chat.go:276-320 | while disconnected, y and n change nothing and send nothing |
| Chat.DecisionKeysNeverReachInput | cli/ui/chat.go:276-327 | y, Y, n and N are never typed into the input box |
| Chat.CtrlCLeavesModes | cli/ui/chat.go:227-244 | ctrl+c in either mode clears both, shows the input and sends nothing (no decline); with no mode active it quits |
| Chat.EnterSendsTrimmedInput | cli/ui/chat.go:246-259 | enter sends exactly when the box is active, the trimmed input is non-empty and the screen is connected; it sends the trimmed text, logs it and clears the box |
| Chat.DisconnectKeepsModes | cli/ui/chat.go:193-196 | losing the connection marks the screen disconnected, appends one error entry and keeps both modes |
| Chat.RunKeepsConsistent | cli/ui/chat.go:176-343 | along any run of updates the invariant holds and the log only grows |
| Chat.StepApprovals | cli/ui/chat.go:276-309 | one update sends an approval only by answering a pending suggestion, and only an approval request makes one pending |
| Chat.ApprovalsNeverExceedRequests | cli/ui/chat.go:202-207 | over any run, approval decisions sent plus the one still pending never exceed the approval requests received plus the one pending at the start |
| Chat.ChatModel.constructor | cli/ui/chat.go:73-139 | a new screen starts with an empty log and the input shown, and its client is fresh, disconnected, and has all six handlers registered |
| Chat.ChatModel.AddMessage | cli/ui/chat.go:373-379 | appends exactly one entry |
| Chat.ChatModel.AddCommandSuggestion | cli/ui/chat.go:382-391 | appends one suggestion entry and hides the input box |
| Chat.ChatModel.AddRetryRequest | cli/ui/chat.go:394-402 | appends one retry entry and hides the input box |
| Chat.ChatModel.ConnectToAgent | cli/ui/chat.go:142-149 | yields AgentConnected when the client is or becomes connected, else the error prefixed with "Failed to connect to agent: " |
| Chat.ChatModel.DisconnectFromAgent | cli/ui/chat.go:152-157 | marks the screen disconnected and closes the client, which panics on a second close |
| Chat.ChatModel.SendAndReport | cli/ui/chat.go:253-256 | hands the message to the client and logs the send error with its prefix when the send fails |
| Chat.ChatModel.Update | cli/ui/chat.go:176-343 | the new screen state and quit flag are React's, the client writes React's messages, and the invariant is kept |
| Chat.ChatModel.Receive | cli/ui/chat.go:180-222 | non-key updates change the screen as Receipt says |
| Chat.ChatModel.ReceiveScreenEvent | cli/ui/chat.go:181-196 | window size and connection events change the screen as Receipt says |
| Chat.ChatModel.ReceiveAgentEvent | cli/ui/chat.go:198-222 | agent events change the screen as Receipt says |
| Chat.ChatModel.ReceiveCommandApproval | cli/ui/chat.go:202-207 | a command approval request changes the screen as Receipt says |
| Chat.ChatModel.ReceiveRetryRequest | cli/ui/chat.go:213-218 | a retry request changes the screen as Receipt says |
| Chat.ChatModel.SubmitInput | cli/ui/chat.go:246-274 | enter changes the screen and writes as Submit says |
| Chat.ChatModel.Answer | cli/ui/chat.go:276-320 | y/n changes the screen and writes as Decide says |
| Chat.ChatModel.AnswerPendingSuggestion | cli/ui/chat.go:277-286 | the answer to a pending suggestion, as Decide says |
| Chat.ChatModel.AnswerPendingRetry | cli/ui/chat.go:287-297 | the answer to a pending retry, as Decide says |
| Chat.ChatModel.PressKey | cli/ui/chat.go:224-327 | a key press changes the screen and writes as ReactToKey says |
| Server.Send | agent/src/server.py:40-57 | an unknown client gets nothing and nothing changes; an open connection gets the message; a closed one is unregistered; no other client and no session is touched |
| Server.Classify | agent/src/server.py:162-192 | an interrupt is an approval exactly when it has "command", a retry exactly when it has "error" and no "command", and unrecognised otherwise |
| Server.Forward | agent/src/server.py:158-192 | forwarding the interrupts keeps the session and its thread; it waits for the last recognised interrupt, or is unchanged if none was recognised; the graph is not called; an open connection is sent one command_approval or retry_request message per recognised payload, in order, and a closed or unknown one is sent nothing |
| Server.CompletionMessage | agent/src/server.py:265-279 | the completion report carries the output, success exactly when command_error is empty, and the error only when there is one |
| Server.Complete | agent/src/server.py:128-150 | completion sends that report and deletes the session |
| Server.ThreadId | agent/src/server.py:101 | a session's thread id starts with "session_" followed by its client id and "_" |
| Server.ResumeResponse | agent/src/server.py:207-212 | an approval resumes the graph with "approve" or "reject", a retry with "retry" or "cancel", according to the decision |
| Server.ParseRequest | agent/src/server.py:59-80 | a non-dict is reported; "message" starts a session with the content (default ""); "command_approval" and "retry_response" take the truthiness of approved and retry (default false); any other type is unknown |
| Server.SendTouches | agent/src/server.py:40-57 | sending touches only that client's connection and outbox |
| Server.InterruptTouches | agent/src/server.py:158-192 | forwarding interrupts touches only that client |
| Server.AfterResultTouches | agent/src/server.py:254-283 | handling a graph result touches only that client |
| Server.HandleMessageTouches | agent/src/server.py:59-84 | handling one message touches only the sending client |
| Server.RunGraphTouches | agent/src/server.py:117-156 | running the graph touches only that client |
| Server.HandleResponseTouches | agent/src/server.py:194-252 | an approval or retry reply touches only that client |
| Server.FramesTouch | agent/src/server.py:294-302 | a connection's whole message stream touches only that client |
| Server.ConnectionCleanup | agent/src/server.py:285-309 | a connection first sends the welcome; afterwards the client and its session are gone and no other client was affected |
| Server.StartSessionOutcome | agent/src/server.py:86-115 | a new request calls the graph on the thread session_<client>_<uuid>, for the uuid given; the session survives only if the graph interrupted, and then waits for the last recognised interrupt; any earlier session is replaced |
| Server.RejectedResponse | agent/src/server.py:194-203 | a reply without a pending interrupt of its kind calls no graph, changes no session and gets "No active session found" or "Not waiting for ..." |
| Server.AcceptedResponse | agent/src/server.py:205-222 | a reply to the pending interrupt resumes the session's thread with the decision; the session is kept if the graph raises, deleted if it completes, and waits again if it interrupts again |
| Server.InterruptKeepsValid | agent/src/server.py:158-192 | forwarding keeps every session's waiting flag in step with its interrupt kind, and its thread belonging to its client |
| Server.AfterResultKeepsValid | agent/src/server.py:254-283 | handling a result keeps that invariant |
| Server.HandleMessageKeepsValid | agent/src/server.py:59-84 | handling any message keeps that invariant |
| Server.HandleResponseKeepsValid | agent/src/server.py:194-252 | handling a reply keeps that invariant |
| Server.FramesKeepValid | agent/src/server.py:294-302 | a stream of messages keeps that invariant |
| Server.ConnectionKeepsValid | agent/src/server.py:285-309 | a whole connection keeps that invariant |
| Server.AgentServer.constructor | agent/src/server.py:22-27 | a new server has no clients, no sessions, and has sent and called nothing |
| Server.AgentServer.RegisterClient | agent/src/server.py:29-32 | registers the client with an open connection |
| Server.AgentServer.UnregisterClient | agent/src/server.py:34-38 | removes the client |
| Server.AgentServer.PeerClosed | agent/src/server.py:54-55 | marks a known client's connection closed |
| Server.AgentServer.SendMessage | agent/src/server.py:40-57 | updates the state as Send says |
| Server.AgentServer.HandleInterrupt | agent/src/server.py:158-192 | updates the state as Forward says |
| Server.AgentServer.ContinueAfterResponse | agent/src/server.py:254-283 | updates the state as AfterResult says |
| Server.AgentServer.RunAgentGraph | agent/src/server.py:117-156 | updates the state as RunGraph says |
| Server.AgentServer.StartAgentSession | agent/src/server.py:86-115 | updates the state as StartSession says |
| Server.AgentServer.HandleApprovalResponse | agent/src/server.py:194-222 | updates the state as Respond says for an approval |
| Server.AgentServer.HandleRetryResponse | agent/src/server.py:224-252 | updates the state as Respond says for a retry |
| Server.AgentServer.HandleClientMessage | agent/src/server.py:59-84 | updates the state as HandleMessage says and keeps the invariant |
| Server.AgentServer.HandleInboundFrame | agent/src/server.py:295-302 | a frame that is not JSON gets "Invalid JSON message"; any other is handled as a message |
| Server.AgentServer.HandleFrameSequence | agent/src/server.py:294-302 | the loop handles the frames in order, as HandleFrames says |
| Server.AgentServer.HandleWebsocket | agent/src/server.py:285-309 | a connection updates the state as Connection says, keeps the invariant, leaves the client and its session removed, and touches no other client |
| Graph.GenerateCommandNode | agent/src/graph.py:27-41 | stores the cleaned reply as the command and carries the retry count and the rest of the state unchanged |
| Graph.HumanApprovalNode | agent/src/graph.py:43-62 | "approve" goes to execute_command and approves; "reject" goes to generate_command and disapproves; any other reply ends the run with the state unchanged |
| Graph.ExecuteCommandNode | agent/src/graph.py:64-67 | the shell update marks the command approved, keeps the command and count, and records an error exactly when the run failed |
| Graph.CheckResultNode | agent/src/graph.py:69-95 | goes to retry_command exactly when the command failed, fewer than 3 retries were made and the reply is "retry", and then adds one to the count; otherwise ends with the state unchanged |
| Graph.RetryCommandNode | agent/src/graph.py:97-117 | stores the new command and keeps the count, error and output |
| Graph.StartConsistent | agent/src/graph.py:119-148 | a run starts at generate_command (the entry point) with the initial state, and is consistent |
| Graph.StepConsistent | agent/src/graph.py:119-148 | each step along the fixed edges and the routing keeps the run consistent: the count stays within 0..3, a run pauses only at the two routing nodes, and a command is about to run only once approved |
| Graph.StepRetryCount | agent/src/graph.py:86-92 | the retry count changes only when the human answers a pending retry with "retry", and then by exactly one |
| Graph.ExecutionNeedsApproval | agent/src/graph.py:43-62 | a command comes up for execution only right after the human approved it, and it is the command the approval request showed |
| Graph.RunConsistent | agent/src/graph.py:119-148 | every run from a consistent configuration stays consistent |
| Graph.RetryBound | agent/src/graph.py:69-95 | on any run, the retry count stays within 0..3 |
| Graph.FinishedIsFinal | agent/src/graph.py:119-148 | a finished run ignores all further inputs |
| AgentMain.StripFences | agent/main.py:57-64 | the script's inline cleaning returns an unfenced reply stripped |
| AgentMain.ExecuteCommandNode | agent/main.py:99-139 | the script's result shaping always approves, keeps the command, and reports "Command timed out after 30 seconds" on a timeout |
| AgentMain.ExecuteAgrees | agent/main.py:99-139 | the script's result shaping equals the packaged agent's with its 30-second default |
| AgentMain.AgreesOnStrippedReplies | agent/main.py:57-64 | on a reply without surrounding white space, the two cleanings agree up to the final strip |
| AgentMain.FencedCommandKeepsSpace | agent/main.py:57-64 | white space around a fenced command survives the script's cleaning but not clean_command_output's |
| AgentMain.RetryBound | agent/main.py:141-172 | the script's graph, with its own cleaning, retries at most three times too |
| AgentUtils.DropOpeningFence | agent/src/utils.py:7-9 | a command opening with a fence becomes its second line, which holds no line break; other input is unchanged |
| AgentUtils.DropClosingFence | agent/src/utils.py:10-11 | a closing fence is cut off and the rest stripped; input without one is unchanged; no line break is introduced |
| AgentUtils.CleanCommandOutput | agent/src/utils.py:5-12 | the result has no surrounding white space; unfenced input is only stripped; fenced input over several lines comes out as one line |
| AgentUtils.OpeningFenceLine | agent/src/utils.py:7-9 | the line after an opening fence, with or without a language tag, is what survives when more lines follow |
| AgentUtils.OpeningFenceLastLine | agent/src/utils.py:7-9 | a fence followed by exactly one more line is replaced by that line |
| AgentUtils.CleanFencedBlock | agent/src/utils.py:5-12 | a fenced block cleans to its first body line, stripped |
| AgentUtils.ExecuteShellCommand | agent/src/utils.py:15-50 | always approves; reports an error exactly when the run did not exit normally, or exited nonzero with stderr; a nonzero exit reports stderr; only an exited run keeps its output; a timeout reports "Command timed out after <timeout> seconds" and an exception "Error executing command: <reason>" |
| AgentUtils.OptionKeys | agent/src/utils.py:88-96 | the valid replies are present exactly when the payload has options |
| AgentUtils.ReadReply | agent/src/utils.py:94-104 | with options, the reply is the first line that, stripped and lower-cased, is an option key, and every earlier line was not; without options, the first line stripped; absent when input runs out |
| AgentUtils.PayloadOptions | agent/src/prompts.py:36-63 | the approval payload offers exactly approve, reject and cancel, and the retry payload exactly retry and stop |
| Prompts.ApprovalRequestData | agent/src/prompts.py:36-48 | the approval payload has exactly the question, command, user_prompt, retry_count and options keys, with the given values and the three options |
| Prompts.RetryRequestData | agent/src/prompts.py:51-63 | the retry payload has the question, original_command, error, output, retry_count and options keys, no "command" key, and the two options |
| Prompts.RetryCommandPrompt | agent/src/prompts.py:20-33 | the retry prompt quotes the original request, the failed command, its error and "k/3" |
| Prompts.FourLines | agent/src/prompts.py:20-33 | each of the four embedded lines occurs in the text |
| Protocol.ChatReachesServer | agent/src/server.py:59-80 | a chat message from the client reaches the server as a session request with the same text, the empty text included |
| Protocol.ApprovalReachesServer | cli/client/websocket_client.go:139-156 | an approval decision reaches the server as that decision, even a false one that the client leaves out of the JSON |
| Protocol.RetryReachesServer | cli/client/websocket_client.go:164-181 | a retry decision reaches the server as that decision, false included |
| Protocol.ApprovalInterruptReachesClient | agent/src/server.py:162-192 | an approval interrupt is classified as approval, forwarded, decoded by the client with the command split into words and the question as explanation, and raised on the approval handler |
| Protocol.ApprovalInterruptSent | agent/src/server.py:165-177 | an approval interrupt reaching an open connection is sent as exactly one message, the approval message the client decodes |
| Protocol.ApprovalForwarded | agent/src/server.py:165-177 | the forwarded approval message has exactly the type, content, command, explanation and retry_count fields |
| Protocol.ApprovalMessageDecodes | cli/client/websocket_client.go:286-300 | such a message decodes and is routed to the approval handler with its command and explanation |
| Protocol.RetryInterruptReachesClient | agent/src/server.py:179-192 | a retry interrupt is classified as retry and reaches the client's retry handler with empty content and the retry count |
| Protocol.RetryInterruptSent | agent/src/server.py:179-192 | a retry interrupt reaching an open connection is sent as exactly one message |
| Protocol.RetryForwarded | agent/src/server.py:179-192 | the forwarded retry message has an empty command and content, and carries the error, output and count |
| Protocol.RetryMessageDecodes | cli/client/websocket_client.go:286-312 | such a message decodes and is routed to the retry handler |
| Protocol.CompletionReachesClient | agent/src/server.py:265-279 | the completion report decodes on the client with the output, the error, and success exactly when there is no error; the output handler receives the output |
| Protocol.ServerErrorReachesClientEmpty | cli/client/websocket_client.go:315-318 | every error the server sends reaches the client's error handler as the empty text |
| MockAgent.NewResponseTemplates | cli/internal/mock/agent_service.go:67-111 | every state the service can be in after a command has templates except after_command, and every template list is non-empty |
| MockAgent.NewExplanations | cli/internal/mock/agent_service.go:114-202 | the explanation table has the registered prefixes and "default", with distinct explanations for "docker ps" and "docker ps -a" |
| MockAgent.FormatIntFills | cli/internal/mock/agent_service.go:409 | formatting a template with one %d puts the number in its place |
| MockAgent.ContainerCountOfListing | cli/internal/mock/agent_service.go:400-409 | the container count of a listing is its number of lines minus the header |
| MockAgent.StateAfter | cli/internal/mock/agent_service.go:385-398 | the state after a command is never initial or awaiting approval, and is after_command exactly when the command has none of the known prefixes |
| MockAgent.DetectIntent | cli/internal/mock/agent_service.go:273-291 | the detected intent's keyword rule matches and no rule tried before it does |
| MockAgent.GeneralDockerExactly | cli/internal/mock/agent_service.go:273-291 | a message is general_docker exactly when no keyword rule matches it |
| MockAgent.LongestPrefixUnique | cli/internal/mock/agent_service.go:461-471 | there is at most one most specific prefix |
| MockAgent.MostSpecificKey | cli/internal/mock/agent_service.go:461-471 | the key chosen is the longest registered prefix, or "default" when there is none |
| MockAgent.MostSpecificExists | cli/internal/mock/agent_service.go:461-471 | a command with a registered prefix has a longest one |
| MockAgent.LongestPrefixKey | cli/internal/mock/agent_service.go:461-471 | the loop finds the longest registered prefix, and nothing exactly when there is none |
| MockAgent.AgentService.constructor | cli/internal/mock/agent_service.go:49-205 | a new service is in the initial state with no history, the three welcome texts, the template table and the explanation table |
| MockAgent.AgentService.PickComment | cli/internal/mock/agent_service.go:400-415 | a comment is given exactly when the state has templates, and then it is one of them, with the container count filled in after docker ps |
| MockAgent.AgentService.ReplyToOutput | cli/internal/mock/agent_service.go:384-458 | two or three replies: the output, a comment exactly when the new state has templates, and the suggested next docker command |
| MockAgent.AgentService.RunCommand | cli/internal/mock/agent_service.go:371-458 | the replies start with the output or the error and end with the suggestion; an error gives the error, the apology and "docker ps -a"; a docker command never fails |
| MockAgent.AgentService.ExecuteSuggestedCommand | cli/internal/mock/agent_service.go:371-458 | runs the suggested command and ends awaiting approval of the new suggestion, which is the next command for it or "docker ps -a" after an error |
| MockAgent.AgentService.ExplainCommand | cli/internal/mock/agent_service.go:461-471 | the explanation under the most specific registered prefix, or the default one (corrected) |
| MockAgent.AgentService.ExplainCommandAsWritten | cli/internal/mock/agent_service.go:461-471 | the explanation under some registered prefix, or the default one when none matches |
| MockAgent.AgentService.ProcessUserMessage | cli/internal/mock/agent_service.go:208-368 | records the message unless it is a short reply; while awaiting approval, y/yes runs the pending command, replies with its output (the registered response when it is a known command) and a comment exactly when templates exist for the state it leads to, and makes the suggestion for it the new pending command; e/explain explains it and changes nothing else; the first message gets three replies ending with docker ps; otherwise the intent's reply and suggestion; always ends awaiting approval |
| MockAgent.AgentService.OpenConversation | cli/internal/mock/agent_service.go:234-263 | exactly three replies, a welcome, an opening line and "docker ps", which becomes the pending command |
| MockAgent.AgentService.AnswerIntent | cli/internal/mock/agent_service.go:266-367 | two replies, the intent's text and its docker command; the command becomes pending, and the intent and suggestion are recorded |
| MockAgent.AsWrittenMayExplainLessSpecific | cli/internal/mock/agent_service.go:461-471 | "docker ps -a" has the less specific registered prefix "docker ps", whose explanation differs from that of its most specific key |
| MockAgent.PsAllIsMostSpecific | cli/internal/mock/agent_service.go:121-126 | "docker ps -a" is the most specific key for itself |
| MockAgent.PsExplanationsDiffer | cli/internal/mock/agent_service.go:114-126 | the two explanations differ for every command |
| DockerCommands.NewSuggestionTable | cli/internal/mock/docker_commands.go:180-194 | every suggestion in the table is a docker command |
| DockerCommands.PickPrefixKey | cli/internal/mock/docker_commands.go:166-172 | the loop returns some key that prefixes the command, and nothing exactly when there is none |
| DockerCommands.DockerCommandService.constructor | cli/internal/mock/docker_commands.go:25-135 | a new service succeeds for every registered docker command, falls back on "docker", and suggests only docker commands |
| DockerCommands.DockerCommandService.AddDefaultCommands | cli/internal/mock/docker_commands.go:32-125 | the default commands all succeed |
| DockerCommands.DockerCommandService.AddDefaultFallbacks | cli/internal/mock/docker_commands.go:128-132 | "docker" becomes a fallback prefix |
| DockerCommands.DockerCommandService.AddCommand | cli/internal/mock/docker_commands.go:138-145 | stores or overwrites the entry for the command, so the last add wins |
| DockerCommands.DockerCommandService.AddFallbackResponse | cli/internal/mock/docker_commands.go:148-150 | stores or overwrites the fallback for the prefix |
| DockerCommands.DockerCommandService.ExecuteCommand | cli/internal/mock/docker_commands.go:153-176 | an exact match wins and fails with "command failed: cmd" unless it succeeds; otherwise some matching fallback succeeds; otherwise "unknown command: cmd"; a docker command never fails |
| DockerCommands.DockerCommandService.SuggestNextCommand | cli/internal/mock/docker_commands.go:179-205 | the suggestion is the table entry of some prefix of the command, or "docker ps" when none matches, and is always a docker command |
| Text.Strip | agent/src/utils.py:12 | str.strip: the result has no white space at either end, is the input's middle, and is the input itself when that has none |
| Text.StripKeepsPrefix | agent/src/utils.py:7-12 | stripping keeps a prefix that has no white space |
| Text.StripKeepsSuffix | agent/src/utils.py:7-12 | stripping keeps a suffix that has no white space |
| Text.Split | agent/src/utils.py:8 | str.split on one character: pieces without the separator that join back to the input |
| Text.SplitJoin | agent/src/utils.py:8 | pieces without the separator, joined with it, split back into those pieces |
| Text.Lower | cli/internal/mock/agent_service.go:268 | lower-casing maps each character and keeps the length |
| Text.NatToString | cli/internal/mock/agent_service.go:409 | a decimal rendering: digits only, no leading zero |
| Text.ParseNatToString | cli/internal/mock/agent_service.go:409 | reading the rendering back gives the number |
| Text.ContainsMiddle | cli/internal/mock/agent_service.go:273-287 | a string contains whatever sits in its middle |

## Left out

- Transport I/O: the websocket dial, reads and writes, and the close frame with normal-closure code 1000 (section 7.4.1 of RFC 6455). Writes are recorded, reads are an input sequence, and dial and write failures are parameters.
- Concurrency: the read-loop goroutine, the client's mutexes, asyncio, signal handlers, and the chat bridge's channel of capacity 100 that drops events when full. The model is one sequential interleaving, and `done` is never closed while the read loop runs.
- The language model and LangGraph: `llm.invoke`, `interrupt`, `invoke`, `get_state` and the checkpointer. The graph is an oracle whose result (an exception, or its interrupts and final state) is an input, and the server takes the final state from that result rather than from `get_state`.
- `subprocess.run`: only the mapping from its outcome to the state update is modelled.
- Delays, `time.Sleep`, and the timestamps on mock messages.
- `rand.Intn` and Go map iteration order: modelled as arbitrary choices among the allowed values.
- The interactive console loops of `main` in both agent scripts, and the printing in `print_result` and `handle_user_interrupt`.
- Rendering, widgets, screen routing, credentials and configuration of the terminal client, and `agent/src/configuration.py` and `agent/src/state.py`.
- The message history that the agent's graph nodes accumulate: no node reads it.
- Go JSON details: case-insensitive field matching, duplicate keys (objects are maps), floating-point numbers and 64-bit integer overflow.
- Python JSON details: `json.loads` on the server also yields floats (a float `approved` or `retry` is truthy unless it is zero); `Json` numbers are integers only.
- Server.PyStr: Python's `str` of a list or dict is rendered as "[...]" or "{...}" rather than in full, in the "Unknown message type" error text.
- Text.Lower: lower-cases ASCII letters only, not all of Unicode.
- MockAgent.FormatIntFills: only the `%d` verb of `fmt.Sprintf` is modelled, the only one the templates use.
- The mock agent's unused fields `scenario`, `userPreferences` and `scenarioProgress`, and its log and network analysis templates, which nothing looks up.
- DockerCommands.DockerCommandService.SuggestNextCommand: the suggestion table is built once per service rather than on every call; it never changes, so the results are the same.
- DockerCommands.DockerCommandService.constructor: the full default tables are stated only by the constructor's body; its contract states their docker-only and all-succeed properties.
- MockAgent.AgentService.constructor: likewise, the texts of the explanation and template tables are stated only by the body.
- "docker restart web-server" is not a registered mock command, so in the model (as in the code) it gets the "docker" fallback response.
- MockAgent.AgentService.ProcessUserMessage: answers "e"/"explain" with the corrected lookup (`ExplainCommand`, the most specific prefix), not the map-order lookup the code calls; for a pending "docker ps -a" the code may give the plain `docker ps` explanation instead (see Findings).
- WebSocketClient.AgentClient.Close: a second call panics in Go; the model reports that panic as a returned flag.

## Findings

| source | as written | input that shows it | evidently intended | confidence | as-written member | corrected member |
|---|---|---|---|---|---|---|
| cli/internal/mock/agent_service.go:461-471 | ranges over the explanation map and returns the first registered prefix it meets, in Go's random map order | "docker ps -a": both "docker ps" and "docker ps -a" are registered prefixes with different explanations, so the plain `docker ps` explanation can be returned | the explanation of the most specific (longest) registered prefix, as the comment on line 462 says | high; not executed | MockAgent.AgentService.ExplainCommandAsWritten | MockAgent.AgentService.ExplainCommand |
