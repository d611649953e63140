/**
 * The terminal chat screen: its message log, the input box and the two
 * modes in which a key press answers the agent instead of editing the
 * input (a pending command suggestion, a pending retry request).
 *
 * `React` is the transition of one update: the next screen state, the
 * decisions handed to the AgentClient, and whether the program quits.
 * `ChatModel.Update` performs it step by step on the model's fields.
 */
module Chat {
  import opened Wrappers
  import opened Text
  import WS = WebSocketClient

  datatype EntryKind = UserEntry | AgentEntry | SuggestionEntry | OutputEntry | ErrorEntry | RetryEntry

  /** One line of the chat log. */
  datatype Entry = Entry(content: string, kind: EntryKind, command: seq<string>, explanation: string, retryCount: int)

  function Plain(content: string, kind: EntryKind): Entry {
    Entry(content, kind, [], "", 0)
  }

  function SuggestionEntryOf(command: seq<string>, explanation: string): Entry {
    Entry(explanation, SuggestionEntry, command, explanation, 0)
  }

  function RetryEntryOf(content: string, retryCount: int): Entry {
    Entry(content, RetryEntry, [], "", retryCount)
  }

  const Greeting := "How can I help you today?"
  const ServerURL := "ws://localhost:8765"

  /** The updates the screen receives: terminal events and the agent events bridged from the client. */
  datatype UiMsg =
    | WindowSize(width: int, height: int)
    | AgentConnected
    | AgentDisconnected
    | AgentMessage(content: string)
    | CommandApproval(command: seq<string>, explanation: string)
    | CommandOutput(output: string)
    | RetryRequest(content: string, retryCount: int)
    | AgentError(error: string)
    | Key(name: string)
    | OtherMsg

  /** The handlers the screen registers on its client turn each callback into the update carrying the same data. */
  function MsgOfEvent(e: WS.Event): UiMsg {
    match e
    case MessageEvent(content) => AgentMessage(content)
    case CommandApprovalEvent(command, explanation) => CommandApproval(command, explanation)
    case CommandOutputEvent(output) => CommandOutput(output)
    case RetryRequestEvent(content, retryCount) => RetryRequest(content, retryCount)
    case ErrorEvent(error) => AgentError(error)
    case ConnectionLostEvent => AgentDisconnected
  }

  const AllHandlers: set<WS.Handler> :=
    {WS.OnMessage, WS.OnCommandApproval, WS.OnCommandOutput, WS.OnRetryRequest, WS.OnError, WS.OnConnectionLost}

  /** The screen's state, without rendering. */
  datatype ChatState = ChatState(
    messages: seq<Entry>,
    input: string,
    width: int,
    height: int,
    showInput: bool,
    suggestionMode: bool,
    retryMode: bool,
    currentCommand: seq<string>,
    currentExplanation: string,
    currentRetryContent: string,
    currentRetryCount: int,
    connected: bool)

  function Initial(width: int, height: int): ChatState {
    ChatState([], "", width, height, true, false, false, [], "", "", 0, false)
  }

  /** Whether a key press edits the input box. */
  predicate Typing(st: ChatState) {
    st.showInput && !st.suggestionMode && !st.retryMode
  }

  /**
   * The screen's invariant: a pending suggestion hides the input box, the
   * box is hidden only while some decision is pending, and the pending
   * suggestion or retry request is on the log.
   */
  predicate Consistent(st: ChatState) {
    (st.suggestionMode ==> !st.showInput && SuggestionEntryOf(st.currentCommand, st.currentExplanation) in st.messages)
    && (st.retryMode ==> RetryEntryOf(st.currentRetryContent, st.currentRetryCount) in st.messages)
    && (!st.showInput ==> st.suggestionMode || st.retryMode)
  }

  /** What a send through the AgentClient meets: whether the client is connected, and whether the write fails. */
  datatype Link = Link(clientConnected: bool, writeError: Option<string>)

  /** The result of one update. */
  datatype Reaction = Reaction(next: ChatState, sends: seq<WS.ClientMessage>, quit: bool)

  function Add(st: ChatState, e: Entry): ChatState {
    st.(messages := st.messages + [e])
  }

  /** Adds the error line of a failed send, if the send fails. */
  function Report(st: ChatState, prefix: string, link: Link): ChatState {
    match WS.SendOutcome(link.clientConnected, link.writeError)
    case None => st
    case Some(err) => Add(st, Plain(prefix + err, ErrorEntry))
  }

  /** y/Y (`yes`) or n/N: answers a pending suggestion first, else a pending retry request, and only while connected. */
  function Decide(st: ChatState, yes: bool, link: Link): (r: Reaction)
    ensures st.messages <= r.next.messages && |r.sends| <= 1 && !r.quit
    ensures r.next.input == st.input
    ensures r.next.suggestionMode <==> st.suggestionMode && !st.connected
    ensures r.sends != [] && r.sends[0].msgType == WS.ApprovalType ==> st.suggestionMode && st.connected
    ensures r.sends != [] && r.sends[0].msgType == WS.RetryType ==> !st.suggestionMode && st.retryMode && st.connected
  {
    if st.suggestionMode && st.connected then
      var st1 := Add(st.(suggestionMode := false, showInput := true),
                     Plain(if yes then "Command approved and executing..." else "Command rejected", UserEntry));
      Reaction(Report(st1, if yes then "Error sending approval: " else "Error sending rejection: ", link),
               [WS.ApprovalMessage(yes)], false)
    else if st.retryMode && st.connected then
      var st1 := Add(st.(retryMode := false, showInput := true),
                     Plain(if yes then "Retrying with a different approach..." else "Retry cancelled", UserEntry));
      Reaction(Report(st1, "Error sending retry response: ", link), [WS.RetryMessage(yes)], false)
    else Reaction(st, [], false)
  }

  predicate IsDecisionKey(key: string) {
    key == "y" || key == "Y" || key == "n" || key == "N"
  }

  /** Enter and ctrl+enter: send the trimmed input as a chat message. */
  function Submit(st: ChatState, link: Link): (r: Reaction)
    ensures st.messages <= r.next.messages && |r.sends| <= 1 && !r.quit
    ensures r.next.suggestionMode == st.suggestionMode && r.next.retryMode == st.retryMode
    ensures r.sends != [] ==> r.sends[0].msgType == WS.ChatType
  {
    var text := TrimSpace(st.input);
    if Typing(st) && text != "" && st.connected then
      var st1 := Add(st, Plain(text, UserEntry)).(input := "");
      Reaction(Report(st1, "Error sending message: ", link), [WS.ChatMessage(text)], false)
    else Reaction(st, [], false)
  }

  function ReactToKey(st: ChatState, key: string, widget: string, link: Link): (r: Reaction)
    ensures st.messages <= r.next.messages && |r.sends| <= 1
    ensures r.next.suggestionMode ==> st.suggestionMode
    ensures r.sends != [] && r.sends[0].msgType == WS.ApprovalType ==> !r.next.suggestionMode
    ensures r.sends != [] && r.sends[0].msgType == WS.ApprovalType ==> st.suggestionMode && st.connected && IsDecisionKey(key)
    ensures r.sends != [] && r.sends[0].msgType == WS.RetryType ==>
              !st.suggestionMode && st.retryMode && st.connected && IsDecisionKey(key)
    ensures r.quit <==> key == "ctrl+c" && !st.suggestionMode && !st.retryMode
  {
    if key == "ctrl+c" then
      // The modes are cleared before the code that would decline them
      // tests them, so leaving a pending decision sends nothing.
      if st.suggestionMode || st.retryMode then
        Reaction(st.(suggestionMode := false, retryMode := false, showInput := true), [], false)
      else Reaction(st, [], true)
    else if key == "enter" || key == "ctrl+enter" then Submit(st, link)
    else if key == "y" || key == "Y" then Decide(st, true, link)
    else if key == "n" || key == "N" then Decide(st, false, link)
    else Reaction(if Typing(st) then st.(input := widget) else st, [], false)
  }

  /**
   * The updates other than key presses: the window size, the connection
   * events and the agent's messages. The log only grows.
   */
  function Receipt(st: ChatState, msg: UiMsg, widget: string): (r: ChatState)
    requires !msg.Key?
    ensures st.messages <= r.messages
    ensures r.suggestionMode ==> st.suggestionMode || msg.CommandApproval?
  {
    match msg
    case WindowSize(w, h) => st.(width := w, height := h)
    case AgentConnected => Add(st.(connected := true), Plain(Greeting, AgentEntry))
    case AgentDisconnected => Add(st.(connected := false), Plain("Disconnected from agent", ErrorEntry))
    case AgentMessage(content) => Add(st, Plain(content, AgentEntry))
    case CommandApproval(command, explanation) =>
      var st1 := st.(suggestionMode := true, currentCommand := command, currentExplanation := explanation);
      Add(st1, SuggestionEntryOf(command, explanation)).(showInput := false)
    case CommandOutput(output) => Add(st, Plain(output, OutputEntry))
    case RetryRequest(content, count) =>
      var st1 := st.(retryMode := true, currentRetryContent := content, currentRetryCount := count);
      Add(st1, RetryEntryOf(content, count)).(showInput := false)
    case AgentError(error) => Add(st, Plain("Error: " + error, ErrorEntry))
    case OtherMsg => if Typing(st) then st.(input := widget) else st
  }

  /**
   * ChatModel.Update without rendering. `widget` is the text the input
   * widget would hold after handling the update itself; `link` is what
   * sends through the client meet.
   *
   * The log only grows; at most one decision or message is sent, and an
   * approval (retry answer) is sent only while a suggestion (retry
   * request) is pending and the screen is connected.
   */
  function React(st: ChatState, msg: UiMsg, widget: string, link: Link): (r: Reaction)
    ensures st.messages <= r.next.messages
    ensures |r.sends| <= 1
    ensures r.sends != [] && r.sends[0].msgType == WS.ApprovalType ==>
              st.suggestionMode && st.connected && msg.Key? && IsDecisionKey(msg.name)
    ensures r.sends != [] && r.sends[0].msgType == WS.RetryType ==>
              !st.suggestionMode && st.retryMode && st.connected && msg.Key? && IsDecisionKey(msg.name)
    ensures r.quit <==> msg == Key("ctrl+c") && !st.suggestionMode && !st.retryMode
  {
    if msg.Key? then ReactToKey(st, msg.name, widget, link)
    else Reaction(Receipt(st, msg, widget), [], false)
  }

  // ---------------------------------------------------------------------
  // Properties of one update

  lemma StillLogged(e: Entry, before: seq<Entry>, after: seq<Entry>)
    requires e in before && before <= after
    ensures e in after
  {
    var i :| 0 <= i < |before| && before[i] == e;
    assert after[i] == e;
  }

  /** Keeps the invariant for an update that leaves the pending request fields alone and only appends to the log. */
  lemma PendingStillLogged(st: ChatState, next: ChatState)
    requires Consistent(st)
    requires st.messages <= next.messages
    requires next.suggestionMode ==> st.suggestionMode && !next.showInput
    requires next.retryMode ==> st.retryMode
    requires !next.showInput ==> next.suggestionMode || next.retryMode
    requires next.currentCommand == st.currentCommand && next.currentExplanation == st.currentExplanation
    requires next.currentRetryContent == st.currentRetryContent && next.currentRetryCount == st.currentRetryCount
    ensures Consistent(next)
  {
    if next.suggestionMode {
      StillLogged(SuggestionEntryOf(st.currentCommand, st.currentExplanation), st.messages, next.messages);
    }
    if next.retryMode {
      StillLogged(RetryEntryOf(st.currentRetryContent, st.currentRetryCount), st.messages, next.messages);
    }
  }

  /** Every key press keeps the screen's invariant. */
  lemma KeyKeepsConsistent(st: ChatState, key: string, widget: string, link: Link)
    requires Consistent(st)
    ensures Consistent(ReactToKey(st, key, widget, link).next)
  {
    if key == "enter" || key == "ctrl+enter" {
      PendingStillLogged(st, Submit(st, link).next);
    } else if key != "ctrl+c" && IsDecisionKey(key) {
      DecideKeepsConsistent(st, key == "y" || key == "Y", link);
    }
  }

  /** An answer, or a y or n with nothing pending, keeps the screen's invariant. */
  lemma DecideKeepsConsistent(st: ChatState, yes: bool, link: Link)
    requires Consistent(st)
    ensures Consistent(Decide(st, yes, link).next)
  {
    PendingStillLogged(st, Decide(st, yes, link).next);
  }

  /** Every update keeps the screen's invariant. */
  lemma ReactKeepsConsistent(st: ChatState, msg: UiMsg, widget: string, link: Link)
    requires Consistent(st)
    ensures Consistent(React(st, msg, widget, link).next)
  {
    var next := React(st, msg, widget, link).next;
    match msg {
      case Key(key) =>
        KeyKeepsConsistent(st, key, widget, link);
      case CommandApproval(command, explanation) =>
        assert next.messages[|st.messages|] == SuggestionEntryOf(command, explanation);
        if next.retryMode {
          StillLogged(RetryEntryOf(st.currentRetryContent, st.currentRetryCount), st.messages, next.messages);
        }
      case RetryRequest(content, count) =>
        assert next.messages[|st.messages|] == RetryEntryOf(content, count);
        if next.suggestionMode {
          StillLogged(SuggestionEntryOf(st.currentCommand, st.currentExplanation), st.messages, next.messages);
        }
      case _ =>
        if next.suggestionMode {
          StillLogged(SuggestionEntryOf(st.currentCommand, st.currentExplanation), st.messages, next.messages);
        }
        if next.retryMode {
          StillLogged(RetryEntryOf(st.currentRetryContent, st.currentRetryCount), st.messages, next.messages);
        }
    }
  }

  /** A command approval request enters suggestion mode, replacing any pending suggestion, and shows the suggestion. */
  lemma ApprovalRequestEntersSuggestionMode(st: ChatState, command: seq<string>, explanation: string, widget: string, link: Link)
    ensures var r := React(st, CommandApproval(command, explanation), widget, link);
      r.next.suggestionMode && !r.next.showInput && r.sends == []
      && r.next.currentCommand == command && r.next.currentExplanation == explanation
      && r.next.messages == st.messages + [SuggestionEntryOf(command, explanation)]
      && r.next.retryMode == st.retryMode && r.next.connected == st.connected
  {
  }

  /** A retry request enters retry mode and shows the request. */
  lemma RetryRequestEntersRetryMode(st: ChatState, content: string, count: int, widget: string, link: Link)
    ensures var r := React(st, RetryRequest(content, count), widget, link);
      r.next.retryMode && !r.next.showInput && r.sends == []
      && r.next.currentRetryContent == content && r.next.currentRetryCount == count
      && r.next.messages == st.messages + [RetryEntryOf(content, count)]
      && r.next.suggestionMode == st.suggestionMode
  {
  }

  /** y or n answers a pending suggestion with exactly one approval decision and leaves suggestion mode. */
  lemma AnswerSuggestion(st: ChatState, key: string, widget: string, link: Link)
    requires st.suggestionMode && st.connected
    requires IsDecisionKey(key)
    ensures var r := React(st, Key(key), widget, link);
      r.sends == [WS.ApprovalMessage(key == "y" || key == "Y")]
      && !r.next.suggestionMode && r.next.showInput && r.next.retryMode == st.retryMode && !r.quit
  {
  }

  /** With no suggestion pending, y or n answers a pending retry request with exactly one retry decision. */
  lemma AnswerRetry(st: ChatState, key: string, widget: string, link: Link)
    requires !st.suggestionMode && st.retryMode && st.connected
    requires IsDecisionKey(key)
    ensures var r := React(st, Key(key), widget, link);
      r.sends == [WS.RetryMessage(key == "y" || key == "Y")] && !r.next.retryMode && r.next.showInput
  {
  }

  /** While disconnected, y and n change nothing and send nothing. */
  lemma DecisionKeysNeedConnection(st: ChatState, key: string, widget: string, link: Link)
    requires !st.connected
    requires IsDecisionKey(key)
    ensures React(st, Key(key), widget, link) == Reaction(st, [], false)
  {
  }

  /**
   * y, Y, n and N are never typed into the input box: even with no
   * decision pending they are taken as answers, and then do nothing.
   */
  lemma DecisionKeysNeverReachInput(st: ChatState, key: string, widget: string, link: Link)
    requires IsDecisionKey(key)
    ensures React(st, Key(key), widget, link).next.input == st.input
  {
    assert React(st, Key(key), widget, link) == Decide(st, key == "y" || key == "Y", link);
  }

  /** ctrl+c leaves both modes and shows the input without sending anything; with no mode active it quits. */
  lemma CtrlCLeavesModes(st: ChatState, widget: string, link: Link)
    ensures var r := React(st, Key("ctrl+c"), widget, link);
      r.sends == [] && r.next.messages == st.messages
      && (st.suggestionMode || st.retryMode ==>
            !r.next.suggestionMode && !r.next.retryMode && r.next.showInput && !r.quit)
      && (!st.suggestionMode && !st.retryMode ==> r.next == st && r.quit)
  {
  }

  /** Enter sends the trimmed input exactly when the box is active, the trimmed input is non-empty and the screen is connected. */
  lemma EnterSendsTrimmedInput(st: ChatState, widget: string, link: Link)
    ensures var r := React(st, Key("enter"), widget, link);
      var text := TrimSpace(st.input);
      (r.sends != [] <==> Typing(st) && text != "" && st.connected)
      && (r.sends != [] ==> r.sends == [WS.ChatMessage(text)] && r.next.input == ""
                            && r.next.messages[|st.messages|] == Plain(text, UserEntry))
  {
    var r := React(st, Key("enter"), widget, link);
    if r.sends != [] {
      assert r.next.messages[..|st.messages| + 1] == st.messages + [Plain(TrimSpace(st.input), UserEntry)];
    }
  }

  /** Losing the connection keeps a pending suggestion or retry request pending. */
  lemma DisconnectKeepsModes(st: ChatState, widget: string, link: Link)
    ensures var r := React(st, AgentDisconnected, widget, link);
      !r.next.connected && r.next.suggestionMode == st.suggestionMode && r.next.retryMode == st.retryMode
      && r.next.messages == st.messages + [Plain("Disconnected from agent", ErrorEntry)]
  {
  }

  // ---------------------------------------------------------------------
  // Runs of updates

  /** One update as the screen receives it. */
  datatype Input = Input(msg: UiMsg, widget: string, link: Link)

  function Run(st: ChatState, inputs: seq<Input>): ChatState
    decreases |inputs|
  {
    if inputs == [] then st
    else Run(React(st, inputs[0].msg, inputs[0].widget, inputs[0].link).next, inputs[1..])
  }

  function RunSends(st: ChatState, inputs: seq<Input>): seq<WS.ClientMessage>
    decreases |inputs|
  {
    if inputs == [] then []
    else
      var r := React(st, inputs[0].msg, inputs[0].widget, inputs[0].link);
      r.sends + RunSends(r.next, inputs[1..])
  }

  /** The number of approval decisions in a list of outgoing messages. */
  function Approvals(ms: seq<WS.ClientMessage>): nat {
    if ms == [] then 0
    else (if ms[0].msgType == WS.ApprovalType then 1 else 0) + Approvals(ms[1..])
  }

  /** The number of command approval requests among the inputs. */
  function ApprovalRequests(inputs: seq<Input>): nat {
    if inputs == [] then 0
    else (if inputs[0].msg.CommandApproval? then 1 else 0) + ApprovalRequests(inputs[1..])
  }

  lemma ApprovalsAppend(a: seq<WS.ClientMessage>, b: seq<WS.ClientMessage>)
    ensures Approvals(a + b) == Approvals(a) + Approvals(b)
  {
    if a == [] {
      assert a + b == b;
    } else {
      assert (a + b)[0] == a[0];
      assert (a + b)[1..] == a[1..] + b;
      ApprovalsAppend(a[1..], b);
    }
  }

  /** From any consistent state, every update along a run keeps the invariant and the log only grows. */
  lemma {:induction false} RunKeepsConsistent(st: ChatState, inputs: seq<Input>)
    requires Consistent(st)
    ensures Consistent(Run(st, inputs))
    ensures st.messages <= Run(st, inputs).messages
    decreases |inputs|
  {
    if inputs != [] {
      var next := React(st, inputs[0].msg, inputs[0].widget, inputs[0].link).next;
      ReactKeepsConsistent(st, inputs[0].msg, inputs[0].widget, inputs[0].link);
      RunKeepsConsistent(next, inputs[1..]);
    }
  }

  /**
   * One update sends an approval only by answering the pending suggestion,
   * and only a command approval request makes one pending.
   */
  lemma StepApprovals(st: ChatState, msg: UiMsg, widget: string, link: Link)
    ensures var r := React(st, msg, widget, link);
            Approvals(r.sends) + (if r.next.suggestionMode then 1 else 0)
            <= (if msg.CommandApproval? then 1 else 0) + (if st.suggestionMode then 1 else 0)
  {
    if msg.Key? {
      var r := ReactToKey(st, msg.name, widget, link);
      if r.sends != [] {
        assert r.sends[1..] == [];
      }
    }
  }

  /**
   * The screen never sends more approval decisions than it received
   * approval requests: each request is answered at most once, and a
   * request that arrives while another is pending replaces it.
   */
  lemma {:induction false} ApprovalsNeverExceedRequests(st: ChatState, inputs: seq<Input>)
    ensures Approvals(RunSends(st, inputs)) + (if Run(st, inputs).suggestionMode then 1 else 0)
            <= ApprovalRequests(inputs) + (if st.suggestionMode then 1 else 0)
    decreases |inputs|
  {
    if inputs != [] {
      var i := inputs[0];
      var r := React(st, i.msg, i.widget, i.link);
      StepApprovals(st, i.msg, i.widget, i.link);
      ApprovalsNeverExceedRequests(r.next, inputs[1..]);
      ApprovalsAppend(r.sends, RunSends(r.next, inputs[1..]));
    }
  }

  // ---------------------------------------------------------------------
  // The screen object

  /** What the client writes for a list of attempted sends that all meet the same connection and write result. */
  function WrittenAll(sends: seq<WS.ClientMessage>, connected: bool, writeError: Option<string>): seq<WS.ClientMessage> {
    if sends == [] then []
    else WS.Written(connected, writeError, sends[0]) + WrittenAll(sends[1..], connected, writeError)
  }

  class ChatModel {
    var messages: seq<Entry>
    var input: string
    var width: int
    var height: int
    var showInput: bool
    var suggestionMode: bool
    var retryMode: bool
    var currentCommand: seq<string>
    var currentExplanation: string
    var currentRetryContent: string
    var currentRetryCount: int
    var connected: bool
    const agentClient: WS.AgentClient

    function State(): ChatState
      reads this
    {
      ChatState(messages, input, width, height, showInput, suggestionMode, retryMode,
                currentCommand, currentExplanation, currentRetryContent, currentRetryCount, connected)
    }

    ghost predicate Valid()
      reads this, agentClient
    {
      agentClient.Valid() && Consistent(State())
    }

    /** NewChatModel: an empty log, the input box shown, and a fresh client with all six handlers registered. */
    constructor (w: int, h: int)
      ensures Valid() && fresh(agentClient)
      ensures State() == Initial(w, h)
      ensures agentClient.serverURL == ServerURL && agentClient.handlers == AllHandlers
      ensures !agentClient.connected && !agentClient.doneClosed && agentClient.sent == [] && agentClient.delivered == []
    {
      var c := new WS.AgentClient(ServerURL);
      c.SetHandler(WS.OnMessage, true);
      c.SetHandler(WS.OnCommandApproval, true);
      c.SetHandler(WS.OnCommandOutput, true);
      c.SetHandler(WS.OnRetryRequest, true);
      c.SetHandler(WS.OnError, true);
      c.SetHandler(WS.OnConnectionLost, true);
      agentClient := c;
      messages := [];
      input := "";
      width := w;
      height := h;
      showInput := true;
      suggestionMode := false;
      retryMode := false;
      currentCommand := [];
      currentExplanation := "";
      currentRetryContent := "";
      currentRetryCount := 0;
      connected := false;
    }

    method AddMessage(content: string, kind: EntryKind)
      modifies this`messages
      ensures messages == old(messages) + [Plain(content, kind)]
    {
      messages := messages + [Plain(content, kind)];
    }

    method AddCommandSuggestion(command: seq<string>, explanation: string)
      modifies this`messages, this`showInput
      ensures messages == old(messages) + [SuggestionEntryOf(command, explanation)] && !showInput
    {
      messages := messages + [SuggestionEntryOf(command, explanation)];
      showInput := false;
    }

    method AddRetryRequest(content: string, retryCount: int)
      modifies this`messages, this`showInput
      ensures messages == old(messages) + [RetryEntryOf(content, retryCount)] && !showInput
    {
      messages := messages + [RetryEntryOf(content, retryCount)];
      showInput := false;
    }

    /** Connects the client; the update it yields reports the outcome. */
    method ConnectToAgent(dialError: Option<string>) returns (msg: UiMsg)
      requires Valid()
      modifies agentClient`connected, agentClient`hasConn, agentClient`connOpen
      ensures Valid()
      ensures old(agentClient.connected) || dialError.None? ==> msg == AgentConnected && agentClient.connected
      ensures !old(agentClient.connected) && dialError.Some? ==>
                msg == AgentError("Failed to connect to agent: " + ("websocket connection failed: " + dialError.value))
    {
      var err := agentClient.Connect(dialError);
      if err.Some? {
        msg := AgentError("Failed to connect to agent: " + err.value);
      } else {
        msg := AgentConnected;
      }
    }

    /** Closes the client and marks the screen disconnected. */
    method DisconnectFromAgent() returns (panicked: bool)
      requires Valid()
      modifies this`connected, agentClient`connected, agentClient`connOpen, agentClient`doneClosed
      ensures Valid() && !connected
      ensures panicked == old(agentClient.doneClosed)
      ensures !panicked ==> !agentClient.connected
    {
      panicked := agentClient.Disconnect();
      connected := false;
    }

    /** Sends a decision or message and logs the error line when the send fails. */
    method SendAndReport(m: WS.ClientMessage, prefix: string, writeError: Option<string>)
      requires m == WS.ChatMessage(m.content) || m == WS.ApprovalMessage(m.approved) || m == WS.RetryMessage(m.retry)
      modifies this`messages, agentClient`sent
      ensures agentClient.sent == old(agentClient.sent) + WS.Written(agentClient.connected, writeError, m)
      ensures State() == Report(old(State()), prefix, Link(agentClient.connected, writeError))
    {
      var err;
      if m.msgType == WS.ChatType {
        err := agentClient.SendMessage(m.content, writeError);
      } else if m.msgType == WS.ApprovalType {
        err := agentClient.SendCommandApproval(m.approved, writeError);
      } else {
        err := agentClient.SendRetryResponse(m.retry, writeError);
      }
      if err.Some? {
        AddMessage(prefix + err.value, ErrorEntry);
      }
    }

    /**
     * ChatModel.Update: performs React on the fields, hands its decisions
     * to the client, and keeps the screen's invariant.
     */
    method Update(msg: UiMsg, widget: string, writeError: Option<string>) returns (quit: bool)
      requires Valid()
      modifies this, agentClient`sent
      ensures Valid()
      ensures var r := React(old(State()), msg, widget, Link(agentClient.connected, writeError));
        State() == r.next && quit == r.quit
        && agentClient.sent == old(agentClient.sent) + WrittenAll(r.sends, agentClient.connected, writeError)
    {
      ReactKeepsConsistent(State(), msg, widget, Link(agentClient.connected, writeError));
      if msg.Key? {
        quit := PressKey(msg.name, widget, writeError);
      } else {
        Receive(msg, widget);
        quit := false;
      }
    }

    /** The branches of Update for everything but key presses: none of them sends. */
    method Receive(msg: UiMsg, widget: string)
      requires !msg.Key?
      modifies this
      ensures State() == Receipt(old(State()), msg, widget)
    {
      if msg.WindowSize? || msg.AgentConnected? || msg.AgentDisconnected? || msg.OtherMsg? {
        ReceiveScreenEvent(msg, widget);
      } else {
        ReceiveAgentEvent(msg);
      }
    }

    /** The window size, the connection events and updates no branch handles. */
    method ReceiveScreenEvent(msg: UiMsg, widget: string)
      requires msg.WindowSize? || msg.AgentConnected? || msg.AgentDisconnected? || msg.OtherMsg?
      modifies this
      ensures State() == Receipt(old(State()), msg, widget)
    {
      match msg {
        case WindowSize(w, h) =>
          width := w;
          height := h;
        case AgentConnected =>
          connected := true;
          AddMessage(Greeting, AgentEntry);
        case AgentDisconnected =>
          connected := false;
          AddMessage("Disconnected from agent", ErrorEntry);
        case OtherMsg =>
          if showInput && !suggestionMode && !retryMode {
            input := widget;
          }
      }
    }

    /** The messages the agent client's handlers bridge to the screen. */
    method ReceiveAgentEvent(msg: UiMsg)
      requires msg.AgentMessage? || msg.CommandApproval? || msg.CommandOutput? || msg.RetryRequest? || msg.AgentError?
      modifies this
      ensures State() == Receipt(old(State()), msg, "")
    {
      match msg {
        case AgentMessage(content) =>
          AddMessage(content, AgentEntry);
        case CommandApproval(command, explanation) =>
          ReceiveCommandApproval(command, explanation);
        case CommandOutput(output) =>
          AddMessage(output, OutputEntry);
        case RetryRequest(content, count) =>
          ReceiveRetryRequest(content, count);
        case AgentError(error) =>
          AddMessage("Error: " + error, ErrorEntry);
      }
    }

    /** A command suggestion to approve: it becomes the pending one and is shown. */
    method ReceiveCommandApproval(command: seq<string>, explanation: string)
      modifies this`suggestionMode, this`currentCommand, this`currentExplanation, this`messages, this`showInput
      ensures State() == Receipt(old(State()), CommandApproval(command, explanation), "")
    {
      suggestionMode := true;
      currentCommand := command;
      currentExplanation := explanation;
      AddCommandSuggestion(command, explanation);
    }

    /** A retry request: it becomes the pending one and is shown. */
    method ReceiveRetryRequest(content: string, count: int)
      modifies this`retryMode, this`currentRetryContent, this`currentRetryCount, this`messages, this`showInput
      ensures State() == Receipt(old(State()), RetryRequest(content, count), "")
    {
      retryMode := true;
      currentRetryContent := content;
      currentRetryCount := count;
      AddRetryRequest(content, count);
    }

    /** Enter and ctrl+enter. */
    method SubmitInput(writeError: Option<string>)
      modifies this`messages, this`input, agentClient`sent
      ensures var r := Submit(old(State()), Link(agentClient.connected, writeError));
        State() == r.next
        && agentClient.sent == old(agentClient.sent) + WrittenAll(r.sends, agentClient.connected, writeError)
    {
      if showInput && !suggestionMode && !retryMode {
        var text := TrimSpace(input);
        if text != "" && connected {
          AddMessage(text, UserEntry);
          input := "";
          SendAndReport(WS.ChatMessage(text), "Error sending message: ", writeError);
        }
      }
    }

    /** y/Y (`yes`) and n/N. */
    method Answer(yes: bool, writeError: Option<string>)
      modifies this`messages, this`showInput, this`suggestionMode, this`retryMode, agentClient`sent
      ensures var r := Decide(old(State()), yes, Link(agentClient.connected, writeError));
        State() == r.next
        && agentClient.sent == old(agentClient.sent) + WrittenAll(r.sends, agentClient.connected, writeError)
    {
      if suggestionMode && connected {
        AnswerPendingSuggestion(yes, writeError);
      } else if retryMode && connected {
        AnswerPendingRetry(yes, writeError);
      }
    }

    /** Approves or rejects the pending suggestion. */
    method AnswerPendingSuggestion(yes: bool, writeError: Option<string>)
      requires suggestionMode && connected
      modifies this`messages, this`showInput, this`suggestionMode, agentClient`sent
      ensures var r := Decide(old(State()), yes, Link(agentClient.connected, writeError));
        State() == r.next
        && agentClient.sent == old(agentClient.sent) + WrittenAll(r.sends, agentClient.connected, writeError)
    {
      suggestionMode := false;
      showInput := true;
      AddMessage(if yes then "Command approved and executing..." else "Command rejected", UserEntry);
      SendAndReport(WS.ApprovalMessage(yes),
                    if yes then "Error sending approval: " else "Error sending rejection: ", writeError);
    }

    /** Accepts or declines the pending retry request. */
    method AnswerPendingRetry(yes: bool, writeError: Option<string>)
      requires !suggestionMode && retryMode && connected
      modifies this`messages, this`showInput, this`retryMode, agentClient`sent
      ensures var r := Decide(old(State()), yes, Link(agentClient.connected, writeError));
        State() == r.next
        && agentClient.sent == old(agentClient.sent) + WrittenAll(r.sends, agentClient.connected, writeError)
    {
      retryMode := false;
      showInput := true;
      AddMessage(if yes then "Retrying with a different approach..." else "Retry cancelled", UserEntry);
      SendAndReport(WS.RetryMessage(yes), "Error sending retry response: ", writeError);
    }

    /** The key branch of Update. */
    method PressKey(key: string, widget: string, writeError: Option<string>) returns (quit: bool)
      modifies this`messages, this`input, this`showInput, this`suggestionMode, this`retryMode, agentClient`sent
      ensures var r := ReactToKey(old(State()), key, widget, Link(agentClient.connected, writeError));
        State() == r.next && quit == r.quit
        && agentClient.sent == old(agentClient.sent) + WrittenAll(r.sends, agentClient.connected, writeError)
    {
      quit := false;
      if key == "ctrl+c" {
        if suggestionMode || retryMode {
          suggestionMode := false;
          retryMode := false;
          showInput := true;
        } else {
          quit := true;
        }
      } else if key == "enter" || key == "ctrl+enter" {
        SubmitInput(writeError);
      } else if key == "y" || key == "Y" {
        Answer(true, writeError);
      } else if key == "n" || key == "N" {
        Answer(false, writeError);
      } else if showInput && !suggestionMode && !retryMode {
        input := widget;
      }
    }
  }
}
