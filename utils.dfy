/**
 * The agent's helpers: removing a markdown code fence from a generated
 * command, turning the outcome of a shell run into a state update, and
 * reading a console reply until it names one of the offered options.
 */
module AgentUtils {
  import opened Wrappers
  import opened Text
  import opened Json
  import Prompts

  const Fence := "```"

  // ---------------------------------------------------------------------
  // Fence removal

  /**
   * A command that opens with a fence is replaced by its second line, when
   * it has one. The second line never holds a line break.
   */
  function DropOpeningFence(command: string): (r: string)
    ensures StartsWith(command, Fence) && '\n' in command ==> '\n' !in r
    ensures !StartsWith(command, Fence) ==> r == command
  {
    if StartsWith(command, Fence) then
      var lines := Split(command, '\n');
      if |lines| > 1 then lines[1] else command
    else command
  }

  /** A command that closes with a fence loses it and its white space. */
  function DropClosingFence(command: string): (r: string)
    ensures '\n' !in command ==> '\n' !in r
    ensures !EndsWith(command, Fence) ==> r == command
  {
    if EndsWith(command, Fence) then
      var body := command[..|command| - 3];
      assert forall i | 0 <= i < |body| :: body[i] == command[i];
      StripWithout(Py, body, '\n');
      Strip(Py, body)
    else command
  }

  /**
   * clean_command_output. The result has no surrounding white space; input
   * without a fence at either end is only stripped; and input that opens
   * with a fence and spans several lines comes out as a single line.
   */
  function CleanCommandOutput(command: string): (r: string)
    ensures r != [] ==> !IsSpace(Py, r[0]) && !IsSpace(Py, r[|r| - 1])
    ensures !StartsWith(command, Fence) && !EndsWith(command, Fence) ==> r == Strip(Py, command)
    ensures StartsWith(command, Fence) && '\n' in command ==> '\n' !in r
  {
    var closed := DropClosingFence(DropOpeningFence(command));
    StripWithout(Py, closed, '\n');
    Strip(Py, closed)
  }

  /** The line after an opening fence, with or without a language tag, is what survives it. */
  lemma OpeningFenceLine(tag: string, code: string, tail: string)
    requires '\n' !in tag && '\n' !in code
    ensures DropOpeningFence(Fence + tag + "\n" + code + "\n" + tail) == code
  {
    var s := Fence + tag + "\n" + code + "\n" + tail;
    assert s[..3] == Fence;
    assert '\n' !in Fence + tag by {
      assert forall i | 0 <= i < |Fence + tag| :: (Fence + tag)[i] == if i < 3 then Fence[i] else tag[i - 3];
    }
    assert s == (Fence + tag) + ['\n'] + (code + ['\n'] + tail);
    SplitFirst(Fence + tag, '\n', code + ['\n'] + tail);
    SplitFirst(code, '\n', tail);
  }

  /** A fence with only one line after it is replaced by that line. */
  lemma OpeningFenceLastLine(tag: string, code: string)
    requires '\n' !in tag && '\n' !in code
    ensures DropOpeningFence(Fence + tag + "\n" + code) == code
  {
    var s := Fence + tag + "\n" + code;
    assert s[..3] == Fence;
    assert '\n' !in Fence + tag by {
      assert forall i | 0 <= i < |Fence + tag| :: (Fence + tag)[i] == if i < 3 then Fence[i] else tag[i - 3];
    }
    assert s == (Fence + tag) + ['\n'] + code;
    SplitFirst(Fence + tag, '\n', code);
    assert Split(code, '\n') == [code];
  }

  /**
   * A fenced block whose first body line is a command that does not itself
   * end with a fence cleans to that line stripped, whatever follows it.
   */
  lemma CleanFencedBlock(tag: string, code: string, tail: string)
    requires '\n' !in tag && '\n' !in code
    requires !EndsWith(code, Fence)
    ensures CleanCommandOutput(Fence + tag + "\n" + code + "\n" + tail) == Strip(Py, code)
  {
    OpeningFenceLine(tag, code, tail);
  }

  // ---------------------------------------------------------------------
  // Shell results

  /** What running the command produced: an exit status, a timeout, or an exception. */
  datatype ShellOutcome =
    | Exited(returnCode: int, stdout: string, stderr: string)
    | TimedOut
    | Failed(reason: string)

  /** The state update execute_shell_command returns. */
  datatype ExecUpdate = ExecUpdate(commandOutput: string, commandError: string, executionApproved: bool)

  /** The default timeout, in seconds. */
  const DefaultTimeout := 30

  function TimeoutText(timeout: int): string {
    "Command timed out after " + IntToString(timeout) + " seconds"
  }

  /**
   * execute_shell_command, from the outcome of the run. The update always
   * marks the command approved. It reports an error exactly when the run
   * did not exit normally, or exited with a nonzero status and wrote to
   * its error stream; output is only kept from a run that exited.
   */
  function ExecuteShellCommand(outcome: ShellOutcome, timeout: int): (r: ExecUpdate)
    ensures r.executionApproved
    ensures r.commandError == "" <==> outcome.Exited? && (outcome.returnCode == 0 || outcome.stderr == "")
    ensures r.commandOutput == if outcome.Exited? then outcome.stdout else ""
    ensures outcome.Exited? && outcome.returnCode != 0 ==> r.commandError == outcome.stderr
    ensures outcome.TimedOut? ==> r.commandError == "Command timed out after " + IntToString(timeout) + " seconds"
    ensures outcome.Failed? ==> r.commandError == "Error executing command: " + outcome.reason
  {
    match outcome
    case Exited(code, out, err) =>
      if code == 0 then ExecUpdate(out, "", true) else ExecUpdate(out, err, true)
    case TimedOut =>
      ExecUpdate("", TimeoutText(timeout), true)
    case Failed(reason) =>
      ExecUpdate("", "Error executing command: " + reason, true)
  }

  // ---------------------------------------------------------------------
  // Reading a reply on the console

  /**
   * The keys of an interrupt payload's options, when it has any. The
   * payload builders always give a dict of options.
   */
  function OptionKeys(value: map<string, Json>): (r: Option<set<string>>)
    requires "options" in value ==> value["options"].JObject?
    ensures r.Some? <==> "options" in value
  {
    if "options" in value then Some(value["options"].fields.Keys) else None
  }

  /** A console line as it is compared with the option keys. */
  function Normalize(line: string): string {
    Lower(Strip(Py, line))
  }

  /**
   * The reply loop of handle_user_interrupt over the lines typed on the
   * console. With options, lines are normalised and read until one names
   * an option; the reply is that option and every earlier line named
   * none. Without options, the first line, stripped, is the reply. `used`
   * is the number of lines read; the reply is absent when input runs out.
   */
  method ReadReply(options: Option<set<string>>, lines: seq<string>)
      returns (reply: Option<string>, used: nat)
    ensures used <= |lines|
    ensures reply.None? ==> used == |lines|
    ensures reply.Some? ==> used >= 1
    ensures options.None? ==> used <= 1
    ensures options.None? && reply.Some? ==> reply.value == Strip(Py, lines[0])
    ensures options.None? && lines != [] ==> reply.Some?
    ensures options.Some? && reply.Some? ==>
              reply.value in options.value && reply.value == Normalize(lines[used - 1])
    ensures options.Some? ==>
              forall j | 0 <= j < (if reply.Some? then used - 1 else used) :: Normalize(lines[j]) !in options.value
  {
    if options.None? {
      if lines == [] {
        return None, 0;
      }
      return Some(Strip(Py, lines[0])), 1;
    }
    var keys := options.value;
    var i := 0;
    while i < |lines|
      invariant 0 <= i <= |lines|
      invariant forall j | 0 <= j < i :: Normalize(lines[j]) !in keys
    {
      var response := Normalize(lines[i]);
      if response in keys {
        return Some(response), i + 1;
      }
      i := i + 1;
    }
    return None, |lines|;
  }

  /**
   * The replies ReadReply accepts for the graph's payloads: approve,
   * reject or cancel for an approval, retry or stop for a retry.
   */
  lemma PayloadOptions(command: string, prompt: string, error: string, output: string, retryCount: int)
    ensures OptionKeys(Prompts.ApprovalRequestData(command, prompt, retryCount)) == Some({"approve", "reject", "cancel"})
    ensures OptionKeys(Prompts.RetryRequestData(command, error, output, retryCount)) == Some({"retry", "stop"})
  {
  }
}
