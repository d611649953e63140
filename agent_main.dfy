/**
 * The stand-alone agent script. Its graph has the same nodes and edges as
 * the packaged agent, and its routing nodes are the same code, so the
 * model runs it with Graph's functions. It differs in how a generating
 * node cleans the language model's reply, and it spells out the shell
 * result shaping inline with a fixed 30-second timeout.
 */
module AgentMain {
  import opened Text
  import opened AgentUtils
  import Graph

  /**
   * The inline fence removal of the script's generating nodes: the reply
   * is stripped first, then loses an opening fence and a closing fence as
   * in clean_command_output, without the final strip. Unfenced replies
   * come out stripped.
   */
  function StripFences(reply: string): (r: string)
    ensures var s := Strip(Py, reply);
            !StartsWith(s, Fence) && !EndsWith(s, Fence) ==> r == s
  {
    DropClosingFence(DropOpeningFence(Strip(Py, reply)))
  }

  /** The script's graph: Graph's step with the script's reply cleaning. */
  function Step(c: Graph.Config, input: Graph.Input): Graph.Config {
    Graph.Step(StripFences, c, input)
  }

  /** The script's execute_command, with its own texts for the two failures. */
  function ExecuteCommandNode(st: Graph.AgentState, outcome: ShellOutcome): (r: Graph.AgentState)
    ensures r.executionApproved && r.generatedCommand == st.generatedCommand
    ensures outcome.TimedOut? ==> r.commandError == "Command timed out after 30 seconds"
  {
    match outcome
    case Exited(code, out, err) =>
      if code == 0 then st.(commandOutput := out, commandError := "", executionApproved := true)
      else st.(commandOutput := out, commandError := err, executionApproved := true)
    case TimedOut =>
      st.(commandOutput := "", commandError := "Command timed out after 30 seconds", executionApproved := true)
    case Failed(reason) =>
      st.(commandOutput := "", commandError := "Error executing command: " + reason, executionApproved := true)
  }

  /** The script's result shaping is the packaged agent's with its default timeout. */
  lemma ExecuteAgrees(st: Graph.AgentState, outcome: ShellOutcome)
    ensures ExecuteCommandNode(st, outcome) == Graph.ExecuteCommandNode(st, outcome)
  {
    assert NatToString(30) == "30";
  }

  /**
   * On a reply without surrounding white space the two cleanings agree up
   * to the final strip.
   */
  lemma AgreesOnStrippedReplies(reply: string)
    requires Strip(Py, reply) == reply
    ensures CleanCommandOutput(reply) == Strip(Py, StripFences(reply))
  {
  }

  /**
   * White space around the command inside a fence survives the script's
   * cleaning but not clean_command_output's.
   */
  lemma FencedCommandKeepsSpace(code: string)
    requires '\n' !in code && !EndsWith(code, Fence)
    ensures StripFences(Fence + "\n" + code + "\n" + Fence) == code
    ensures CleanCommandOutput(Fence + "\n" + code + "\n" + Fence) == Strip(Py, code)
  {
    var s := Fence + "\n" + code + "\n" + Fence;
    assert s[0] == '`' && s[|s| - 1] == '`';
    assert Strip(Py, s) == s;
    assert Fence + "" == Fence;
    OpeningFenceLine("", code, Fence);
    CleanFencedBlock("", code, Fence);
  }

  /** The script's runs keep the same invariant, so it too retries at most three times. */
  lemma RetryBound(prompt: string, inputs: seq<Graph.Input>)
    ensures 0 <= Graph.Run(StripFences, Graph.Start(prompt), inputs).st.retryCount <= Graph.MaxRetries
  {
    Graph.RetryBound(StripFences, prompt, inputs);
  }
}
