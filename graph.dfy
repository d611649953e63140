/**
 * The agent's LangGraph workflow: five nodes, the fixed edges between them,
 * and the two routing nodes that interrupt for a human decision. Running
 * the graph is modelled as a configuration that one input at a time moves
 * forward: a reply from the language model, the outcome of a shell run, or
 * the human's reply to an interrupt.
 */
module Graph {
  import opened Wrappers
  import opened Json
  import AgentUtils
  import Prompts

  /** The workflow state (the message history is not modelled). */
  datatype AgentState = AgentState(
    userPrompt: string,
    generatedCommand: string,
    commandOutput: string,
    commandError: string,
    executionApproved: bool,
    retryCount: int)

  /** The state a session starts from. */
  function InitialState(prompt: string): AgentState {
    AgentState(prompt, "", "", "", false, 0)
  }

  datatype Node = GenerateCommand | HumanApproval | ExecuteCommand | CheckResult | RetryCommand

  /** Where a routing node sends the run next. */
  datatype Goto = To(node: Node) | End

  /** The number of retries check_result allows. */
  const MaxRetries := 3

  // ---------------------------------------------------------------------
  // Nodes

  /**
   * generate_command: stores the cleaned reply of the language model as
   * the command. The retry count, like the rest of the state, is carried.
   */
  function GenerateCommandNode(st: AgentState, command: string): (r: AgentState)
    ensures r.generatedCommand == command
    ensures r.retryCount == st.retryCount && r.userPrompt == st.userPrompt
    ensures r.commandOutput == st.commandOutput && r.commandError == st.commandError
    ensures r.executionApproved == st.executionApproved
  {
    st.(generatedCommand := command)
  }

  /** The payload human_approval interrupts with. */
  function ApprovalPayload(st: AgentState): map<string, Json> {
    Prompts.ApprovalRequestData(st.generatedCommand, st.userPrompt, st.retryCount)
  }

  /**
   * human_approval, once resumed: "approve" goes on to execute_command
   * with the command approved, "reject" back to generate_command with it
   * not approved, and any other reply ends the run.
   */
  function HumanApprovalNode(st: AgentState, response: string): (r: (Goto, AgentState))
    ensures r.0 == To(ExecuteCommand) <==> response == "approve"
    ensures r.0 == To(GenerateCommand) <==> response == "reject"
    ensures r.0 == End <==> response != "approve" && response != "reject"
    ensures response == "approve" ==> r.1 == st.(executionApproved := true)
    ensures response == "reject" ==> r.1 == st.(executionApproved := false)
    ensures r.0 == End ==> r.1 == st
  {
    if response == "approve" then (To(ExecuteCommand), st.(executionApproved := true))
    else if response == "reject" then (To(GenerateCommand), st.(executionApproved := false))
    else (End, st)
  }

  /** execute_command: the shell run's update, with the default timeout. */
  function ExecuteCommandNode(st: AgentState, outcome: AgentUtils.ShellOutcome): (r: AgentState)
    ensures r.executionApproved
    ensures r.generatedCommand == st.generatedCommand && r.userPrompt == st.userPrompt
    ensures r.retryCount == st.retryCount
    ensures r.commandError == "" <==> outcome.Exited? && (outcome.returnCode == 0 || outcome.stderr == "")
  {
    var u := AgentUtils.ExecuteShellCommand(outcome, AgentUtils.DefaultTimeout);
    st.(commandOutput := u.commandOutput, commandError := u.commandError, executionApproved := u.executionApproved)
  }

  /** check_result interrupts exactly when the command failed and retries are left. */
  predicate NeedsRetry(st: AgentState) {
    st.commandError != "" && st.retryCount < MaxRetries
  }

  /** The payload check_result interrupts with. */
  function RetryPayload(st: AgentState): map<string, Json> {
    Prompts.RetryRequestData(st.generatedCommand, st.commandError, st.commandOutput, st.retryCount)
  }

  /**
   * check_result. Without a pending retry it ends the run; otherwise the
   * reply "retry" goes on to retry_command with the count one higher, and
   * any other reply ends the run.
   */
  function CheckResultNode(st: AgentState, response: string): (r: (Goto, AgentState))
    ensures r.0 == End || r.0 == To(RetryCommand)
    ensures r.0 == To(RetryCommand) <==> NeedsRetry(st) && response == "retry"
    ensures r.0 == To(RetryCommand) ==> r.1 == st.(retryCount := st.retryCount + 1)
    ensures r.0 == End ==> r.1 == st
  {
    if NeedsRetry(st) && response == "retry" then (To(RetryCommand), st.(retryCount := st.retryCount + 1))
    else (End, st)
  }

  /** retry_command: stores the cleaned reply to the retry prompt as the new command. */
  function RetryCommandNode(st: AgentState, command: string): (r: AgentState)
    ensures r.generatedCommand == command
    ensures r.retryCount == st.retryCount && r.userPrompt == st.userPrompt
    ensures r.commandError == st.commandError && r.commandOutput == st.commandOutput
    ensures r.executionApproved == st.executionApproved
  {
    st.(generatedCommand := command)
  }

  /** The system prompt retry_command sends the language model. */
  function RetryPrompt(st: AgentState): string {
    Prompts.RetryCommandPrompt(st.userPrompt, st.generatedCommand, st.commandError, st.retryCount)
  }

  // ---------------------------------------------------------------------
  // Edges and runs

  /** The graph's entry point. */
  const Entry := GenerateCommand

  /** The fixed edges; the two routing nodes choose their successor instead. */
  function FixedEdge(n: Node): Option<Node> {
    match n
    case GenerateCommand => Some(HumanApproval)
    case ExecuteCommand => Some(CheckResult)
    case RetryCommand => Some(HumanApproval)
    case _ => None
  }

  /**
   * A run of the graph: at a node that needs an input from outside, paused
   * at an interrupt, or finished.
   */
  datatype Config =
    | Running(at: Node, st: AgentState)
    | Paused(at: Node, st: AgentState)
    | Finished(st: AgentState)

  /** The inputs a run consumes. */
  datatype Input =
    | LlmReply(text: string)
    | ShellResult(outcome: AgentUtils.ShellOutcome)
    | HumanReply(response: string)

  /** Entering a node: the routing nodes interrupt at once, or end when check_result has nothing to ask. */
  function Enter(n: Node, st: AgentState): Config {
    match n
    case HumanApproval => Paused(HumanApproval, st)
    case CheckResult => if NeedsRetry(st) then Paused(CheckResult, st) else Finished(st)
    case _ => Running(n, st)
  }

  function Follow(g: Goto, st: AgentState): Config {
    match g
    case End => Finished(st)
    case To(n) => Enter(n, st)
  }

  /** A fresh run for a request. */
  function Start(prompt: string): Config {
    Enter(Entry, InitialState(prompt))
  }

  /** The interrupt payload of a paused run. */
  function Payload(c: Config): map<string, Json>
    requires c.Paused?
  {
    if c.at == HumanApproval then ApprovalPayload(c.st) else RetryPayload(c.st)
  }

  /**
   * One input. `clean` is how the generating nodes clean the model's reply.
   * An input the configuration is not waiting for leaves it as it is.
   */
  function Step(clean: string -> string, c: Config, input: Input): Config {
    match c
    case Running(GenerateCommand, st) =>
      if input.LlmReply? then Enter(FixedEdge(GenerateCommand).value, GenerateCommandNode(st, clean(input.text))) else c
    case Running(ExecuteCommand, st) =>
      if input.ShellResult? then Enter(FixedEdge(ExecuteCommand).value, ExecuteCommandNode(st, input.outcome)) else c
    case Running(RetryCommand, st) =>
      if input.LlmReply? then Enter(FixedEdge(RetryCommand).value, RetryCommandNode(st, clean(input.text))) else c
    case Paused(HumanApproval, st) =>
      if input.HumanReply? then
        var (g, next) := HumanApprovalNode(st, input.response);
        Follow(g, next)
      else c
    case Paused(CheckResult, st) =>
      if input.HumanReply? then
        var (g, next) := CheckResultNode(st, input.response);
        Follow(g, next)
      else c
    case _ => c
  }

  /** A sequence of inputs, one after another. */
  function Run(clean: string -> string, c: Config, inputs: seq<Input>): Config
    decreases |inputs|
  {
    if inputs == [] then c else Run(clean, Step(clean, c, inputs[0]), inputs[1..])
  }

  // ---------------------------------------------------------------------
  // Properties

  /**
   * What every reachable configuration satisfies: the retry count stays
   * within 0..3; a run waits only at the two routing nodes, and at
   * check_result only when a retry is pending; a command is only about to
   * run once approved; retry_command is only reached after a retry.
   */
  predicate Consistent(c: Config) {
    0 <= c.st.retryCount <= MaxRetries
    && match c
       case Running(n, st) =>
         (n == GenerateCommand || n == ExecuteCommand || n == RetryCommand)
         && (n == ExecuteCommand ==> st.executionApproved)
         && (n == RetryCommand ==> st.retryCount >= 1)
       case Paused(n, st) => n == HumanApproval || (n == CheckResult && NeedsRetry(st))
       case Finished(_) => true
  }

  lemma StartConsistent(prompt: string)
    ensures Consistent(Start(prompt))
    ensures Start(prompt) == Running(GenerateCommand, InitialState(prompt))
  {
  }

  /** One step keeps a run consistent. */
  lemma StepConsistent(clean: string -> string, c: Config, input: Input)
    requires Consistent(c)
    ensures Consistent(Step(clean, c, input))
  {
  }

  /**
   * The retry count changes only when the human answers a pending retry
   * with "retry", and then by exactly one.
   */
  lemma StepRetryCount(clean: string -> string, c: Config, input: Input)
    ensures var r := Step(clean, c, input);
            r.st.retryCount == c.st.retryCount
            || (r.st.retryCount == c.st.retryCount + 1
                && c == Paused(CheckResult, c.st) && NeedsRetry(c.st) && input == HumanReply("retry"))
  {
  }

  /**
   * A command only comes up for execution right after the human approved
   * it, and it is the very command the approval request showed.
   */
  lemma ExecutionNeedsApproval(clean: string -> string, c: Config, input: Input)
    requires Step(clean, c, input).Running? && Step(clean, c, input).at == ExecuteCommand
    requires c != Step(clean, c, input)
    ensures c.Paused? && c.at == HumanApproval && input == HumanReply("approve")
    ensures Payload(c)["command"] == JString(Step(clean, c, input).st.generatedCommand)
  {
  }

  /** Every run from a consistent configuration stays consistent. */
  lemma {:induction false} RunConsistent(clean: string -> string, c: Config, inputs: seq<Input>)
    requires Consistent(c)
    ensures Consistent(Run(clean, c, inputs))
    decreases |inputs|
  {
    if inputs != [] {
      StepConsistent(clean, c, inputs[0]);
      RunConsistent(clean, Step(clean, c, inputs[0]), inputs[1..]);
    }
  }

  /** However the run goes, a session never retries more than three times. */
  lemma RetryBound(clean: string -> string, prompt: string, inputs: seq<Input>)
    ensures 0 <= Run(clean, Start(prompt), inputs).st.retryCount <= MaxRetries
  {
    StartConsistent(prompt);
    RunConsistent(clean, Start(prompt), inputs);
  }

  /** A finished run has done everything it will do: further inputs change nothing. */
  lemma {:induction false} FinishedIsFinal(clean: string -> string, st: AgentState, inputs: seq<Input>)
    ensures Run(clean, Finished(st), inputs) == Finished(st)
    decreases |inputs|
  {
    if inputs != [] {
      FinishedIsFinal(clean, st, inputs[1..]);
    }
  }
}
