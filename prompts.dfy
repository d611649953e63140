/**
 * The payloads the agent graph attaches to its two interrupts, and the
 * system prompt it gives the language model when it retries a failed
 * command. Which keys a payload carries decides how the server forwards
 * it: an approval payload has "command", a retry payload has "error" and
 * no "command".
 */
module Prompts {
  import opened Json
  import opened Text

  const ApprovalQuestion := "Do you want to execute this command?"
  const RetryQuestion := "Command failed. Do you want me to try a different approach?"

  /** The options offered with an approval request, keyed by the reply that picks them. */
  const ApprovalOptions: map<string, Json> := map[
    "approve" := JString("Execute the command"),
    "reject" := JString("Generate a different command"),
    "cancel" := JString("Cancel the operation")]

  /** The options offered with a retry request. */
  const RetryOptions: map<string, Json> := map[
    "retry" := JString("Yes, try a different command"),
    "stop" := JString("No, stop here")]

  /**
   * The approval interrupt payload: the question, the generated command,
   * the user's request, the retry count and the three options.
   */
  function ApprovalRequestData(generatedCommand: string, userPrompt: string, retryCount: int)
    : (r: map<string, Json>)
    ensures r.Keys == {"question", "command", "user_prompt", "retry_count", "options"}
    ensures r["command"] == JString(generatedCommand)
    ensures r["user_prompt"] == JString(userPrompt)
    ensures r["retry_count"] == JNumber(retryCount)
    ensures r["options"].JObject? && r["options"].fields.Keys == {"approve", "reject", "cancel"}
  {
    map[
      "question" := JString(ApprovalQuestion),
      "command" := JString(generatedCommand),
      "user_prompt" := JString(userPrompt),
      "retry_count" := JNumber(retryCount),
      "options" := JObject(ApprovalOptions)]
  }

  /**
   * The retry interrupt payload. It names the failed command under
   * "original_command", so it has no "command" key.
   */
  function RetryRequestData(originalCommand: string, error: string, output: string, retryCount: int)
    : (r: map<string, Json>)
    ensures r.Keys == {"question", "original_command", "error", "output", "retry_count", "options"}
    ensures "command" !in r
    ensures r["original_command"] == JString(originalCommand)
    ensures r["error"] == JString(error) && r["output"] == JString(output)
    ensures r["retry_count"] == JNumber(retryCount)
    ensures r["options"].JObject? && r["options"].fields.Keys == {"retry", "stop"}
  {
    map[
      "question" := JString(RetryQuestion),
      "original_command" := JString(originalCommand),
      "error" := JString(error),
      "output" := JString(output),
      "retry_count" := JNumber(retryCount),
      "options" := JObject(RetryOptions)]
  }

  /** The "Retry attempt: k/3" line of the retry prompt. */
  function AttemptLine(retryCount: int): string {
    "Retry attempt: " + IntToString(retryCount) + "/3"
  }

  const RetryPromptHead := "\nYou are a command-line assistant. The previous command failed with an error.\n"
    + "Generate a different, alternative command to accomplish the same goal.\n\n"

  const RetryPromptTail := "\n\nGenerate ONLY a single alternative command, no explanations or additional text.\n"
    + "Make sure the new command is different from the previous one and addresses the error.\n"

  /** Four lines between a head and a tail, one line break between neighbours. */
  function FourLines(head: string, a: string, b: string, c: string, d: string, tail: string): (r: string)
    ensures Contains(r, a) && Contains(r, b) && Contains(r, c) && Contains(r, d)
  {
    var nl := "\n";
    ContainsMiddle(head, a, nl + b + nl + c + nl + d + tail);
    assert head + a + nl + b + nl + c + nl + d + tail == head + a + (nl + b + nl + c + nl + d + tail);
    ContainsMiddle(head + a + nl, b, nl + c + nl + d + tail);
    assert head + a + nl + b + nl + c + nl + d + tail == (head + a + nl) + b + (nl + c + nl + d + tail);
    ContainsMiddle(head + a + nl + b + nl, c, nl + d + tail);
    assert head + a + nl + b + nl + c + nl + d + tail == (head + a + nl + b + nl) + c + (nl + d + tail);
    ContainsMiddle(head + a + nl + b + nl + c + nl, d, tail);
    head + a + nl + b + nl + c + nl + d + tail
  }

  /**
   * The system prompt for a retry. It quotes the original request, the
   * command that failed, its error and the attempt number out of 3.
   */
  function RetryCommandPrompt(userPrompt: string, previousCommand: string, error: string, retryCount: int)
    : (r: string)
    ensures Contains(r, "Original request: " + userPrompt)
    ensures Contains(r, "Previous command that failed: " + previousCommand)
    ensures Contains(r, "Error encountered: " + error)
    ensures Contains(r, AttemptLine(retryCount))
  {
    FourLines(RetryPromptHead,
      "Original request: " + userPrompt,
      "Previous command that failed: " + previousCommand,
      "Error encountered: " + error,
      AttemptLine(retryCount),
      RetryPromptTail)
  }
}
