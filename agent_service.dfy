/**
 * The mock agent the terminal UI can be exercised with. It keeps a
 * conversation state ("initial", then "awaiting_approval"), the command it
 * last suggested and a context history. A message is either the approval
 * of the pending suggestion ("y"/"yes"), a request to explain it
 * ("e"/"explain"), the opening message, or a request whose intent a fixed
 * keyword table decides. Approving runs the suggestion on the mock Docker
 * service and suggests a follow-up. Random choices (which welcome text,
 * which template) are left to the model: any entry may be picked.
 */
module MockAgent {
  import opened Wrappers
  import opened Text
  import opened DockerCommands

  datatype AgentMessageType = TypeUser | TypeAgent | TypeCommand | TypeCommandOutput | TypeError

  /** The wire name of a message type. */
  function TypeName(t: AgentMessageType): string {
    match t
    case TypeUser => "user"
    case TypeAgent => "agent"
    case TypeCommand => "command"
    case TypeCommandOutput => "command_output"
    case TypeError => "error"
  }

  /** A conversation message (its timestamp is not modelled). */
  datatype AgentMessage = AgentMessage(msgType: AgentMessageType, content: string)

  // ---------------------------------------------------------------------
  // Canned texts

  const WelcomeMessages: seq<string> := [
    "Welcome to Cloud-Assist! I'm your AI-powered DevOps assistant. How can I help you today?",
    "Hi there! I'm Cloud-Assist, your AI DevOps agent. What would you like to accomplish?",
    "Hello! I'm your Cloud-Assist AI agent, ready to help with your infrastructure needs. What are you working on?"]

  const InitialTemplates: seq<string> := [
    "I can help you manage your Docker containers. Let me first check what containers are currently running:",
    "Let's start by getting an overview of your Docker environment. I'll check your running containers:",
    "I'll assist you with Docker operations. First, let me see what containers you currently have:"]

  const AfterDockerPsTemplates: seq<string> := [
    "I see you have %d containers running. Based on your environment, would you like to examine logs for any specific container or address any particular issues?",
    "Your environment has %d running containers. I notice a mix of services - is there a specific container you're interested in working with?",
    "I've found %d active containers in your environment. Would you like me to help troubleshoot any of them or perform specific management tasks?"]

  const AfterLogsTemplates: seq<string> := [
    "I've analyzed the logs and notice %s. Would you like me to suggest a solution or perform another operation on this container?",
    "Based on these logs, I can see %s. What would you like me to help you with next?",
    "The logs show %s. Based on this information, I could help you restart the service or investigate further. What would you prefer?"]

  const AfterNetworkTemplates: seq<string> := [
    "I've analyzed your network configuration and found %d connected containers. I notice that the 'app' container isn't connected to the shared network, which might explain the connectivity issues.",
    "Your network setup shows %d containers on the shared network. There might be networking issues with containers that aren't properly connected.",
    "Looking at your network configuration, I can see %d containers are connected. Would you like me to help connect other containers to resolve communication issues?"]

  const AfterStartTemplates: seq<string> := [
    "I've successfully started the container. Let me check to confirm it's running properly and check for any potential issues in the startup logs:",
    "The container is now running. To ensure everything is working correctly, I should examine if it's connected to the necessary networks and check its logs:",
    "Container started successfully. Based on your environment, I recommend verifying that it can communicate with other services. Let me check its network configuration:"]

  const LogAnalysisPatterns: seq<string> := [
    "connections to the Redis cache failing",
    "normal startup sequence with no errors",
    "several HTTP 404 errors that might need attention",
    "potential memory issues based on resource utilization patterns"]

  const NetworkAnalysisPatterns: seq<string> := [
    "possible container isolation issues",
    "a misconfigured DNS resolution between services",
    "proper network connectivity between key services",
    "potential firewall or security group restrictions"]

  /** The conversation states; the service stores them by these names. */
  datatype ConvState = Initial | AwaitingApproval | AfterDockerPs | AfterLogs | AfterNetwork | AfterStart | AfterCommand

  function StateName(state: ConvState): string {
    match state
    case Initial => "initial"
    case AwaitingApproval => "awaiting_approval"
    case AfterDockerPs => "after_docker_ps"
    case AfterLogs => "after_logs"
    case AfterNetwork => "after_network"
    case AfterStart => "after_start"
    case AfterCommand => "after_command"
  }

  /**
   * The response templates NewAgentService registers, keyed by name. Every
   * state but "awaiting_approval" and "after_command" has templates under
   * its name; the log and network analysis patterns are registered under
   * names that are not states, so no lookup by state reaches them.
   */
  method NewResponseTemplates() returns (templates: map<string, seq<string>>)
    ensures forall state: ConvState ::
              StateName(state) in templates <==> state != AwaitingApproval && state != AfterCommand
    ensures forall k | k in templates :: templates[k] != []
  {
    templates := map[];
    templates := templates["initial" := InitialTemplates];
    templates := templates["after_docker_ps" := AfterDockerPsTemplates];
    templates := templates["after_logs" := AfterLogsTemplates];
    templates := templates["after_network" := AfterNetworkTemplates];
    templates := templates["after_start" := AfterStartTemplates];
    templates := templates["log_analysis" := LogAnalysisPatterns];
    templates := templates["network_analysis" := NetworkAnalysisPatterns];
    forall state: ConvState
      ensures StateName(state) in templates <==> state != AwaitingApproval && state != AfterCommand
    {
      if state == AfterCommand {
        assert StateName(state)[6] == 'c' && "after_network"[6] == 'n';
      }
    }
  }

  /**
   * The apology that follows a failed command, written as short pieces for
   * the same reason as the `docker ps` explanations below.
   */
  const ExecErrorReply := "There was an error " + "executing that " + "command. Would you " + "like to try something " + "else?"

  // ---------------------------------------------------------------------
  // Formatting

  /**
   * fmt.Sprintf of a template with one integer argument, already rendered
   * as `arg`: the first "%d" is replaced; without one, Go appends its
   * EXTRA marker.
   */
  function FormatInt(template: string, arg: string): string
    decreases |template|
  {
    if |template| < 2 then template + "%!(EXTRA int=" + arg + ")"
    else if template[0] == '%' && template[1] == 'd' then arg + template[2..]
    else [template[0]] + FormatInt(template[1..], arg)
  }

  /** A template whose text before its "%d" has no '%' gets the argument in that place. */
  lemma {:induction false} FormatIntFills(before: string, after: string, arg: string)
    requires '%' !in before
    ensures FormatInt(before + "%d" + after, arg) == before + arg + after
    decreases |before|
  {
    var t := before + "%d" + after;
    if before == [] {
      assert t[2..] == after;
    } else {
      assert t[0] == before[0] && t[0] != '%';
      assert t[1..] == before[1..] + "%d" + after;
      assert FormatInt(t, arg) == [t[0]] + FormatInt(t[1..], arg);
      FormatIntFills(before[1..], after, arg);
      assert before + arg + after == [before[0]] + (before[1..] + arg + after);
    }
  }

  /** The number of containers a `docker ps` listing shows: its lines after the header. */
  function ContainerCount(output: string): int {
    |Split(output, '\n')| - 1
  }

  /**
   * A listing of lines joined by line breaks counts the lines after the
   * first: a header and one line per container counts the containers.
   */
  lemma ContainerCountOfListing(lines: seq<string>)
    requires |lines| >= 1
    requires forall k | 0 <= k < |lines| :: '\n' !in lines[k]
    ensures ContainerCount(Join(lines, "\n")) == |lines| - 1
  {
    assert "\n" == ['\n'];
    SplitJoin(lines, '\n');
  }

  /** The conversation state a successful run of `command` leads to. */
  function StateAfter(command: string): (r: ConvState)
    ensures r != Initial && r != AwaitingApproval
    ensures r == AfterCommand <==>
              !StartsWith(command, "docker ps") && !StartsWith(command, "docker logs")
              && !StartsWith(command, "docker network") && !StartsWith(command, "docker start")
              && !StartsWith(command, "docker restart")
  {
    if StartsWith(command, "docker ps") then AfterDockerPs
    else if StartsWith(command, "docker logs") then AfterLogs
    else if StartsWith(command, "docker network") then AfterNetwork
    else if StartsWith(command, "docker start") || StartsWith(command, "docker restart") then AfterStart
    else AfterCommand
  }

  /**
   * The agent's comment after a run: after `docker ps` the template gets
   * the container count; the other templates are shown as they stand.
   */
  function AgentReply(state: ConvState, template: string, output: string): string {
    if state == AfterDockerPs then FormatInt(template, IntToString(ContainerCount(output)))
    else template
  }

  // ---------------------------------------------------------------------
  // Explanations

  /** The prefixes an explanation is registered under ("default" among them). */
  const ExplanationKeys: set<string> :=
    {"docker ps", "docker ps -a", "docker logs", "docker start", "docker restart", "docker network", "default"}

  /** The word at `index` of the command split on spaces, when there is one. */
  function Word(command: string, index: nat): Option<string> {
    var parts := Split(command, ' ');
    if |parts| > index then Some(parts[index]) else None
  }

  // The two `docker ps` explanations are written as short pieces: the
  // verifier reasons about a long string literal far more slowly than
  // about a concatenation of short ones.

  /** The explanation registered under "docker ps". */
  function ExplainPs(command: string): string {
    "The `docker ps` " + (
      "command lists all " + "running containers " + "on your system. It " + "displays container "
    + "IDs, the image " + "used, when they " + "were created, their " + "current status, "
    + "exposed ports, and " + "assigned names. " + "This gives you a " + "quick overview of "
    + "what's active in " + "your Docker " + "environment.\n\nI " + "recommended this "
    + "command because " + "it's essential to " + "understand what's " + "currently running "
    + "before taking " + "further actions.")
  }

  /** The explanation registered under "docker ps -a". */
  function ExplainPsAll(command: string): string {
    "The `docker ps -a` " + (
      "command shows all " + "containers on your " + "system, including " + "those that have "
    + "stopped or exited. " + "The `-a` flag " + "stands for 'all' " + "and provides a "
    + "complete view of " + "your container " + "environment.\n\nThis " + "command is "
    + "particularly useful " + "when " + "troubleshooting " + "because it shows " + "containers that may "
    + "have crashed or " + "exited " + "unexpectedly, along " + "with their exit " + "codes which can "
    + "help diagnose " + "issues.")
  }

  /** The explanation registered under "docker logs": it names the container when the command does. */
  function ExplainLogs(command: string): string {
    match Word(command, 2)
    case Some(name) =>
      "The `docker logs " + name + "` command fetches and displays the logs generated by the '" + name + "' container. "
      + "This includes both stdout and stderr output streams.\n\n"
      + "I recommended checking the logs because they often contain valuable diagnostic information that can help "
      + "identify why a container is behaving unexpectedly or what errors it might be encountering."
    case None =>
      "The `docker logs` command displays the logs from a specified container, showing its stdout and stderr output streams. "
      + "This is crucial for debugging container issues and understanding application behavior."
  }

  /** The explanation registered under "docker start": it names the container when the command does. */
  function ExplainStart(command: string): string {
    match Word(command, 2)
    case Some(name) =>
      "The `docker start " + name + "` command starts the stopped container named '" + name + "'. "
      + "This resumes the container in its previous state without creating a new container instance.\n\n"
      + "I recommended starting this container because it appears to be stopped but needed for your application stack "
      + "to function properly. Starting it will restore the service without losing any container-specific data."
    case None =>
      "The `docker start` command resumes a stopped container while preserving its state, volumes, and configuration. "
      + "This is more efficient than creating a new container when you simply need to resume operations."
  }

  /** The explanation registered under "docker restart": it names the container when the command does. */
  function ExplainRestart(command: string): string {
    match Word(command, 2)
    case Some(name) =>
      "The `docker restart " + name + "` command stops and then starts the '" + name + "' container in one operation. "
      + "This can resolve many common issues by refreshing the container's processes and connections.\n\n"
      + "I recommended restarting this container because the logs indicated connection issues that are often fixed "
      + "by a clean restart, which clears temporary state and re-establishes connections."
    case None =>
      "The `docker restart` command stops and then starts a container in one operation. It's an efficient way to "
      + "refresh a container's state when it's encountering transient issues without having to manually stop and start it separately."
  }

  /** The explanation registered under "default": it quotes the command. */
  function ExplainDefault(command: string): string {
    "The `" + command + "` command is a Docker operation that interacts with your container environment. Based on your current context, "
    + "I recommended it because it addresses the specific issue or task you're working on. Would you like me to provide a more "
    + "detailed explanation of what this command does and why I suggested it?"
  }

  /** The explanation registered under "docker network". */
  function ExplainNetwork(command: string): string {
    var parts := Split(command, ' ');
    if Contains(command, "inspect") then
      if |parts| > 3 then
        "The `docker network inspect " + parts[3] + "` command provides detailed information about the '" + parts[3] + "' network. "
        + "It shows the network's configuration, connected containers, IP addresses, and gateway information.\n\n"
        + "I suggested inspecting this network because understanding the current network topology is essential for "
        + "diagnosing communication issues between containers."
      else
        "This command provides detailed information about a Docker network's configuration and which containers are attached to it."
    else if Contains(command, "ls") then
      "The `docker network ls` command lists all networks on your Docker system. "
      + "I recommended this to get an overview of the available networks, which is essential for understanding "
      + "how your containers can communicate with each other. Container networking issues are a common source of problems in "
      + "multi-container applications."
    else if Contains(command, "connect") then
      if |parts| >= 4 then
        "The `docker network connect " + parts[2] + " " + parts[3] + "` command connects the '" + parts[3]
        + "' container to the '" + parts[2] + "' network. "
        + "This allows the container to communicate with other containers on that network.\n\n"
        + "I suggested connecting this container to the network because the error logs indicated connection issues "
        + "that are likely due to network isolation."
      else
        "This command connects a container to a network, enabling it to communicate with other containers on that network."
    else
      "Docker network commands manage container networking, allowing you to create, inspect, and modify networks "
      + "to control how containers communicate with each other and the outside world."
  }

  /** `k` is the longest key that is a prefix of `s`. */
  predicate LongestPrefix(keys: set<string>, s: string, k: string) {
    k in keys && StartsWith(s, k)
    && forall k2 | k2 in keys && StartsWith(s, k2) :: |k2| <= |k|
  }

  /** Two prefixes of the same string with the same length are the same key. */
  lemma LongestPrefixUnique(keys: set<string>, s: string, k1: string, k2: string)
    requires LongestPrefix(keys, s, k1) && LongestPrefix(keys, s, k2)
    ensures k1 == k2
  {
    assert |k1| == |k2|;
    assert k1 == s[..|k1|] && k2 == s[..|k2|];
  }

  /**
   * The explanation table NewAgentService registers: a function of the
   * command under each key of ExplanationKeys.
   */
  method NewExplanations() returns (table: map<string, string -> string>)
    ensures table.Keys == ExplanationKeys
    ensures table["docker ps"] == ExplainPs && table["docker ps -a"] == ExplainPsAll
  {
    table := map[];
    table := table["docker ps" := ExplainPs];
    table := table["docker ps -a" := ExplainPsAll];
    table := table["docker logs" := ExplainLogs];
    table := table["docker start" := ExplainStart];
    table := table["docker restart" := ExplainRestart];
    table := table["docker network" := ExplainNetwork];
    table := table["default" := ExplainDefault];
  }

  /** The most specific key registered for `command`, or "default" when none is a prefix. */
  ghost function MostSpecificKey(keys: set<string>, command: string): (k: string)
    ensures HasPrefixKey(keys, command) ==> LongestPrefix(keys, command, k)
    ensures !HasPrefixKey(keys, command) ==> k == "default"
  {
    if HasPrefixKey(keys, command) then
      MostSpecificExists(keys, command);
      var k :| LongestPrefix(keys, command, k); k
    else "default"
  }

  /** When some key is a prefix, a longest one exists. */
  lemma MostSpecificExists(keys: set<string>, s: string)
    requires HasPrefixKey(keys, s)
    ensures exists k :: LongestPrefix(keys, s, k)
  {
    var k :| k in keys && StartsWith(s, k);
    LongestFrom(keys, s, k);
  }

  /** From a prefix key, a longest one is reached by moving to longer ones. */
  lemma {:induction false} LongestFrom(keys: set<string>, s: string, k: string)
    requires k in keys && StartsWith(s, k)
    ensures exists k' :: LongestPrefix(keys, s, k')
    decreases |s| - |k|
  {
    if forall k2 | k2 in keys && StartsWith(s, k2) :: |k2| <= |k| {
      assert LongestPrefix(keys, s, k);
    } else {
      var k2 :| k2 in keys && StartsWith(s, k2) && |k2| > |k|;
      LongestFrom(keys, s, k2);
    }
  }

  /**
   * The range over a key set that keeps the longest key that is a prefix
   * of `s`; the keys are visited in any order.
   */
  method LongestPrefixKey(keys: set<string>, s: string) returns (best: Option<string>)
    ensures best.None? <==> !HasPrefixKey(keys, s)
    ensures best.Some? ==> LongestPrefix(keys, s, best.value)
  {
    best := None;
    var unseen := keys;
    while unseen != {}
      invariant unseen <= keys
      invariant best.None? ==> forall k | k in keys && k !in unseen :: !StartsWith(s, k)
      invariant best.Some? ==> best.value in keys && StartsWith(s, best.value)
      invariant best.Some? ==> forall k | k in keys && k !in unseen && StartsWith(s, k) :: |k| <= |best.value|
      decreases |unseen|
    {
      var k :| k in unseen;
      if StartsWith(s, k) && (best.None? || |k| > |best.value|) {
        best := Some(k);
      }
      unseen := unseen - {k};
    }
  }

  // ---------------------------------------------------------------------
  // Intents

  datatype Intent =
    | ListContainers | CheckLogs | NetworkOperations | ImageOperations | StartContainer
    | RestartContainer | StopContainer | Troubleshooting | GeneralDocker

  function IntentName(i: Intent): string {
    match i
    case ListContainers => "list_containers"
    case CheckLogs => "check_logs"
    case NetworkOperations => "network_operations"
    case ImageOperations => "image_operations"
    case StartContainer => "start_container"
    case RestartContainer => "restart_container"
    case StopContainer => "stop_container"
    case Troubleshooting => "troubleshooting"
    case GeneralDocker => "general_docker"
  }

  /** The keyword rule of each intent; a general Docker request has none of its own. */
  predicate Matches(i: Intent, m: string) {
    match i
    case ListContainers => Contains(m, "list") && (Contains(m, "container") || Contains(m, "running"))
    case CheckLogs => Contains(m, "logs") || Contains(m, "output")
    case NetworkOperations => Contains(m, "network") || Contains(m, "connect")
    case ImageOperations => Contains(m, "image") || Contains(m, "pull")
    case StartContainer => (Contains(m, "start") || Contains(m, "run")) && Contains(m, "app")
    case RestartContainer => Contains(m, "restart")
    case StopContainer => Contains(m, "stop") || Contains(m, "kill")
    case Troubleshooting =>
      Contains(m, "error") || Contains(m, "issue") || Contains(m, "problem") || Contains(m, "troubleshoot")
    case GeneralDocker => false
  }

  /** The order in which the rules are tried. */
  function Priority(i: Intent): nat {
    match i
    case ListContainers => 0
    case CheckLogs => 1
    case NetworkOperations => 2
    case ImageOperations => 3
    case StartContainer => 4
    case RestartContainer => 5
    case StopContainer => 6
    case Troubleshooting => 7
    case GeneralDocker => 8
  }

  /**
   * The intent of a lower-cased message: the first keyword rule that
   * matches, in a fixed order. The detected intent's rule matches and no
   * earlier rule does.
   */
  function DetectIntent(m: string): (r: Intent)
    ensures r != GeneralDocker ==> Matches(r, m)
    ensures forall i: Intent | Priority(i) < Priority(r) :: !Matches(i, m)
  {
    if Contains(m, "list") && (Contains(m, "container") || Contains(m, "running")) then ListContainers
    else if Contains(m, "logs") || Contains(m, "output") then CheckLogs
    else if Contains(m, "network") || Contains(m, "connect") then NetworkOperations
    else if Contains(m, "image") || Contains(m, "pull") then ImageOperations
    else if (Contains(m, "start") || Contains(m, "run")) && Contains(m, "app") then StartContainer
    else if Contains(m, "restart") then RestartContainer
    else if Contains(m, "stop") || Contains(m, "kill") then StopContainer
    else if Contains(m, "error") || Contains(m, "issue") || Contains(m, "problem") || Contains(m, "troubleshoot") then Troubleshooting
    else GeneralDocker
  }

  /** A message is a general Docker request exactly when no keyword rule matches it. */
  lemma GeneralDockerExactly(m: string)
    ensures DetectIntent(m) == GeneralDocker <==> forall i: Intent :: !Matches(i, m)
  {
    if DetectIntent(m) == GeneralDocker {
      forall i: Intent
        ensures !Matches(i, m)
      {
        if i != GeneralDocker {
          assert Priority(i) < Priority(GeneralDocker);
        }
      }
    }
  }

  /**
   * The reply for an intent and the arguments of the docker command it
   * suggests; some intents look at further words of the message. The
   * replies are written as short pieces for the same reason as the
   * `docker ps` explanations.
   */
  function IntentResponse(intent: Intent, m: string): (string, string)
  {
    match intent
    case ListContainers =>
      (("I'll help you check " + "your containers. Let me " + "get a list of all "
        + "containers including " + "stopped ones for a " + "complete picture:"),
       "ps -a")
    case CheckLogs =>
      if Contains(m, "web") || Contains(m, "server") then
        (("Let me check the logs " + "for the web-server " + "container to help "
          + "diagnose any issues:"), "logs web-server")
      else if Contains(m, "app") then
        (("I'll examine the logs " + "for the app container " + "to see why it might be "
          + "failing:"), "logs app")
      else
        (("I'll check the logs for " + "the redis-cache service " + "since that's a common "
          + "dependency that might " + "be causing issues:"),
         "logs redis-cache")
    case NetworkOperations =>
      if Contains(m, "inspect") || Contains(m, "detail") then
        (("Let me inspect the " + "application network to " + "see which containers "
          + "are connected and their " + "IP configurations:"),
         "network inspect my-application")
      else
        (("I'll list all the " + "networks in your " + "environment so we can "
          + "see what's available:"), "network ls")
    case ImageOperations =>
      (("Here are the Docker " + "images currently " + "available on your " + "system:"), "images")
    case StartContainer =>
      (("I'll start the app " + "container for you. This " + "will bring it online "
        + "without creating a new " + "container instance:"),
       "start app")
    case RestartContainer =>
      if Contains(m, "redis") || Contains(m, "cache") then
        (("I'll restart the " + "redis-cache container " + "to refresh its " + "connections:"), "restart redis-cache")
      else
        (("I'll restart the " + "web-server container to " + "apply any configuration " + "changes:"), "restart web-server")
    case StopContainer =>
      (("I'll stop the " + "web-server container " + "safely, allowing it to "
        + "shutdown gracefully:"), "stop web-server")
    case Troubleshooting =>
      (("Based on the " + "information you've " + "provided, there might " + "be an issue with "
        + "container networking or " + "service dependencies. " + "Let me first check "
        + "which containers are " + "running and their " + "status:"), "ps -a")
    case GeneralDocker =>
      (("I understand you're " + "working with Docker " + "containers. To best "
        + "assist you, let me " + "first understand your " + "current environment by "
        + "checking your running " + "containers:"), "ps")
  }

  /** The replies "help", "e", "y", "n" and "q", as typed, are kept out of the context history. */
  function UserEntry(message: string): seq<string> {
    if message in {"help", "e", "y", "n", "q"} then [] else ["User: " + message]
  }

  // ---------------------------------------------------------------------
  // The service

  class AgentService {
    const docker: DockerCommandService
    const welcomeMessages: seq<string>
    const responseTemplates: map<string, seq<string>>
    const explanations: map<string, string -> string>
    var conversationState: ConvState
    var previousCommand: string
    var contextHistory: seq<string>

    /**
     * The service is either at the start or waiting for a reply to a
     * docker command it suggested; its Docker service accepts every docker
     * command; and every random choice it makes is among at least one text.
     */
    predicate Valid()
      reads this, docker
    {
      docker.AcceptsDocker() && docker.SuggestsDocker()
      && welcomeMessages != [] && StateName(Initial) in responseTemplates && "default" in explanations
      && (forall k | k in responseTemplates :: responseTemplates[k] != [])
      && (conversationState == Initial || conversationState == AwaitingApproval)
      && (conversationState == AwaitingApproval ==> StartsWith(previousCommand, "docker"))
    }

    /** NewAgentService: the default Docker tables, at the start of a conversation. */
    constructor()
      ensures Valid()
      ensures conversationState == Initial && previousCommand == "" && contextHistory == []
      ensures fresh(docker)
      ensures welcomeMessages == WelcomeMessages
      ensures forall state: ConvState :: HasTemplates(state) <==> state != AwaitingApproval && state != AfterCommand
      ensures explanations.Keys == ExplanationKeys
      ensures explanations["docker ps"] == ExplainPs && explanations["docker ps -a"] == ExplainPsAll
    {
      var templates := NewResponseTemplates();
      var table := NewExplanations();
      docker := new DockerCommandService();
      welcomeMessages := WelcomeMessages;
      responseTemplates := templates;
      explanations := table;
      conversationState := Initial;
      previousCommand := "";
      contextHistory := [];
    }

    /** The service has comment templates for `state`. */
    predicate HasTemplates(state: ConvState) {
      StateName(state) in responseTemplates
    }

    /** `text` is one of the templates registered for `state`, filled in with what the run printed. */
    predicate IsComment(state: ConvState, output: string, text: string) {
      HasTemplates(state)
      && exists t | t in responseTemplates[StateName(state)] :: text == AgentReply(state, t, output)
    }

    /**
     * The comment on a run that led to `state`: a random template of that
     * state, when it has any, with the container count after `docker ps`.
     */
    method PickComment(state: ConvState, output: string) returns (comment: Option<string>)
      requires Valid()
      ensures comment.Some? <==> HasTemplates(state)
      ensures comment.Some? ==> IsComment(state, output, comment.value)
    {
      if StateName(state) in responseTemplates {
        var templates := responseTemplates[StateName(state)];
        var i :| 0 <= i < |templates|;
        comment := Some(AgentReply(state, templates[i], output));
      } else {
        comment := None;
      }
    }

    /**
     * The replies to a command that ran: its output, a comment when the
     * state it leads to has templates, and the follow-up suggestion. The
     * state the command leads to only picks the comment, since the
     * service goes straight on to await approval of the next one.
     */
    method ReplyToOutput(command: string, output: string) returns (responses: seq<AgentMessage>, next: string)
      requires Valid()
      ensures 2 <= |responses| <= 3
      ensures responses[0] == AgentMessage(TypeCommandOutput, output)
      ensures responses[|responses| - 1] == AgentMessage(TypeCommand, next)
      ensures |responses| == 3 <==> HasTemplates(StateAfter(command))
      ensures |responses| == 3 ==> responses[1].msgType == TypeAgent && IsComment(StateAfter(command), output, responses[1].content)
      ensures docker.IsSuggestionFor(command, next) && StartsWith(next, "docker")
    {
      var comment := PickComment(StateAfter(command), output);
      next := docker.SuggestNextCommand(command);
      if comment.Some? {
        responses := [AgentMessage(TypeCommandOutput, output), AgentMessage(TypeAgent, comment.value),
                      AgentMessage(TypeCommand, next)];
      } else {
        responses := [AgentMessage(TypeCommandOutput, output), AgentMessage(TypeCommand, next)];
      }
    }

    /**
     * Runs the pending suggestion. On success: its output, the agent's
     * comment when the state it leads to has templates, and the follow-up
     * suggestion for it. On failure: the error, an apology, and `docker ps
     * -a`. Either way the service is then awaiting approval. A valid
     * service waiting on a docker command never takes the failure branch.
     */
    method ExecuteSuggestedCommand() returns (responses: seq<AgentMessage>)
      requires Valid()
      modifies this`conversationState, this`previousCommand
      ensures Valid()
      ensures conversationState == AwaitingApproval
      ensures StartsWith(previousCommand, "docker")
      ensures |responses| >= 2 && responses[|responses| - 1] == AgentMessage(TypeCommand, previousCommand)
      ensures responses[0].msgType == TypeCommandOutput || responses[0].msgType == TypeError
      ensures responses[0].msgType == TypeError ==>
                |responses| == 3 && responses[1] == AgentMessage(TypeAgent, ExecErrorReply)
                && previousCommand == Docker("ps -a")
      ensures responses[0].msgType == TypeCommandOutput && old(previousCommand) in docker.commands ==>
                responses[0].content == docker.commands[old(previousCommand)].response
      ensures responses[0].msgType == TypeCommandOutput ==>
                var state := StateAfter(old(previousCommand));
                (|responses| == 3 <==> HasTemplates(state))
                && (|responses| == 3 ==>
                      responses[1].msgType == TypeAgent && IsComment(state, responses[0].content, responses[1].content))
      ensures responses[0].msgType == TypeCommandOutput ==> docker.IsSuggestionFor(old(previousCommand), previousCommand)
      ensures StartsWith(old(previousCommand), "docker") ==> responses[0].msgType == TypeCommandOutput
    {
      var next;
      responses, next := RunCommand(previousCommand);
      previousCommand := next;
      conversationState := AwaitingApproval;
    }

    /** The replies to running `command` and the command suggested after them. */
    method RunCommand(command: string) returns (responses: seq<AgentMessage>, next: string)
      requires Valid()
      ensures StartsWith(next, "docker")
      ensures |responses| >= 2 && responses[|responses| - 1] == AgentMessage(TypeCommand, next)
      ensures responses[0].msgType == TypeCommandOutput || responses[0].msgType == TypeError
      ensures responses[0].msgType == TypeError ==>
                |responses| == 3 && responses[1] == AgentMessage(TypeAgent, ExecErrorReply)
                && next == Docker("ps -a")
      ensures responses[0].msgType == TypeCommandOutput && command in docker.commands ==>
                responses[0].content == docker.commands[command].response
      ensures responses[0].msgType == TypeCommandOutput ==>
                var state := StateAfter(command);
                (|responses| == 3 <==> HasTemplates(state))
                && (|responses| == 3 ==>
                      responses[1].msgType == TypeAgent && IsComment(state, responses[0].content, responses[1].content))
      ensures responses[0].msgType == TypeCommandOutput ==> docker.IsSuggestionFor(command, next)
      ensures StartsWith(command, "docker") ==> responses[0].msgType == TypeCommandOutput
    {
      var output, err := docker.ExecuteCommand(command);
      if err.None? {
        responses, next := ReplyToOutput(command, output);
      } else {
        next := Docker("ps -a");
        responses := [AgentMessage(TypeError, err.value), AgentMessage(TypeAgent, ExecErrorReply),
                      AgentMessage(TypeCommand, next)];
      }
    }

    /**
     * ExplainCommand, as the source's own comment intends it: the
     * explanation registered under the most specific (longest) prefix of
     * the command, or the default one.
     */
    method ExplainCommand(command: string) returns (text: string)
      requires "default" in explanations
      ensures text == explanations[MostSpecificKey(explanations.Keys, command)](command)
    {
      var best := LongestPrefixKey(explanations.Keys, command);
      if best.Some? {
        ghost var k := MostSpecificKey(explanations.Keys, command);
        LongestPrefixUnique(explanations.Keys, command, best.value, k);
        text := explanations[best.value](command);
      } else {
        text := explanations["default"](command);
      }
    }

    /**
     * ExplainCommand as written: the explanation of whichever registered
     * prefix the range over the table meets first, or the default one.
     */
    method ExplainCommandAsWritten(command: string) returns (text: string)
      requires "default" in explanations
      ensures HasPrefixKey(explanations.Keys, command) ==>
                exists k | k in explanations && StartsWith(command, k) :: text == explanations[k](command)
      ensures !HasPrefixKey(explanations.Keys, command) ==> text == explanations["default"](command)
    {
      var key := PickPrefixKey(explanations.Keys, command);
      if key.Some? {
        text := explanations[key.value](command);
      } else {
        text := explanations["default"](command);
      }
    }

    /** "y" or "yes", in any case: the user approves the pending command. */
    static predicate IsApproval(message: string) {
      Lower(message) == "y" || Lower(message) == "yes"
    }

    /** "e" or "explain", in any case: the user asks what the pending command does. */
    static predicate IsExplainRequest(message: string) {
      Lower(message) == "e" || Lower(message) == "explain"
    }

    /**
     * ProcessUserMessage. The message is recorded unless it is one of the
     * short replies; then, while a suggestion is pending, "y"/"yes" runs it
     * and "e"/"explain" explains it, by the most specific registered prefix
     * (the corrected ExplainCommand), without changing anything else; the
     * first message of a conversation gets a welcome, an opening line and
     * `docker ps`; any other message gets the reply and suggestion of its
     * intent. Afterwards the service awaits approval of a docker command.
     */
    method ProcessUserMessage(message: string) returns (responses: seq<AgentMessage>)
      requires Valid()
      modifies this`conversationState, this`previousCommand, this`contextHistory
      ensures Valid()
      ensures conversationState == AwaitingApproval
      ensures old(conversationState) == AwaitingApproval && IsApproval(message) ==>
                contextHistory == old(contextHistory) + UserEntry(message)
                && |responses| >= 2 && responses[0].msgType == TypeCommandOutput
                && responses[|responses| - 1] == AgentMessage(TypeCommand, previousCommand)
                && docker.IsSuggestionFor(old(previousCommand), previousCommand)
                && (old(previousCommand) in docker.commands ==>
                      responses[0].content == docker.commands[old(previousCommand)].response)
                && (var state := StateAfter(old(previousCommand));
                    (|responses| == 3 <==> HasTemplates(state))
                    && (|responses| == 3 ==>
                          responses[1].msgType == TypeAgent && IsComment(state, responses[0].content, responses[1].content)))
      ensures old(conversationState) == AwaitingApproval && !IsApproval(message) && IsExplainRequest(message) ==>
                contextHistory == old(contextHistory) + UserEntry(message) && previousCommand == old(previousCommand)
                && responses == [AgentMessage(TypeAgent, explanations[MostSpecificKey(explanations.Keys, old(previousCommand))](old(previousCommand)))]
      ensures old(conversationState) == Initial ==>
                contextHistory == old(contextHistory) + UserEntry(message) + ["Agent suggested: " + Docker("ps")]
                && previousCommand == Docker("ps")
                && |responses| == 3
                && responses[0].msgType == TypeAgent && responses[0].content in welcomeMessages
                && responses[1].msgType == TypeAgent && responses[1].content in responseTemplates[StateName(Initial)]
                && responses[2] == AgentMessage(TypeCommand, Docker("ps"))
      ensures old(conversationState) == AwaitingApproval && !IsApproval(message) && !IsExplainRequest(message) ==>
                var intent := DetectIntent(Lower(message));
                var (reply, args) := IntentResponse(intent, Lower(message));
                contextHistory == old(contextHistory) + UserEntry(message)
                                  + ["Agent analyzed: " + IntentName(intent), "Agent suggested: " + Docker(args)]
                && previousCommand == Docker(args)
                && responses == [AgentMessage(TypeAgent, reply), AgentMessage(TypeCommand, Docker(args))]
    {
      contextHistory := contextHistory + UserEntry(message);
      var lower := Lower(message);
      if conversationState == AwaitingApproval && IsApproval(message) {
        responses := ExecuteSuggestedCommand();
        return;
      }
      if conversationState == AwaitingApproval && IsExplainRequest(message) {
        var explanation := ExplainCommand(previousCommand);
        responses := [AgentMessage(TypeAgent, explanation)];
        return;
      }
      if conversationState == Initial {
        responses := OpenConversation();
        return;
      }
      responses := AnswerIntent(lower);
    }

    /**
     * The first message of a conversation: a random welcome, a random
     * opening line, and `docker ps` as the first suggestion.
     */
    method OpenConversation() returns (responses: seq<AgentMessage>)
      requires Valid()
      modifies this`conversationState, this`previousCommand, this`contextHistory
      ensures Valid() && conversationState == AwaitingApproval
      ensures contextHistory == old(contextHistory) + ["Agent suggested: " + Docker("ps")]
      ensures previousCommand == Docker("ps")
      ensures |responses| == 3
      ensures responses[0].msgType == TypeAgent && responses[0].content in welcomeMessages
      ensures responses[1].msgType == TypeAgent && responses[1].content in responseTemplates[StateName(Initial)]
      ensures responses[2] == AgentMessage(TypeCommand, Docker("ps"))
    {
      var w :| 0 <= w < |welcomeMessages|;
      var templates := responseTemplates[StateName(Initial)];
      var t :| 0 <= t < |templates|;
      var suggested := Docker("ps");
      responses := [AgentMessage(TypeAgent, welcomeMessages[w]), AgentMessage(TypeAgent, templates[t]),
                    AgentMessage(TypeCommand, suggested)];
      previousCommand := suggested;
      conversationState := AwaitingApproval;
      contextHistory := contextHistory + ["Agent suggested: " + suggested];
    }

    /**
     * Any later message that is not a reply to the pending suggestion: the
     * reply and suggestion of the intent the lower-cased message shows,
     * both recorded in the history.
     */
    method AnswerIntent(lower: string) returns (responses: seq<AgentMessage>)
      requires Valid()
      modifies this`conversationState, this`previousCommand, this`contextHistory
      ensures Valid() && conversationState == AwaitingApproval
      ensures var intent := DetectIntent(lower);
              var (reply, args) := IntentResponse(intent, lower);
              contextHistory == old(contextHistory) + ["Agent analyzed: " + IntentName(intent), "Agent suggested: " + Docker(args)]
              && previousCommand == Docker(args)
              && responses == [AgentMessage(TypeAgent, reply), AgentMessage(TypeCommand, Docker(args))]
    {
      var intent := DetectIntent(lower);
      var (reply, args) := IntentResponse(intent, lower);
      var command := Docker(args);
      responses := [AgentMessage(TypeAgent, reply), AgentMessage(TypeCommand, command)];
      previousCommand := command;
      conversationState := AwaitingApproval;
      contextHistory := contextHistory + ["Agent analyzed: " + IntentName(intent), "Agent suggested: " + command];
    }
  }

  // ---------------------------------------------------------------------
  // The explanation lookup as written

  /**
   * "docker ps -a" has two registered prefixes, "docker ps" and itself,
   * with different explanations: the range as written may answer with the
   * explanation of plain `docker ps`, while the most specific key is the
   * command itself.
   */
  lemma AsWrittenMayExplainLessSpecific()
    ensures "docker ps" in ExplanationKeys && StartsWith("docker ps -a", "docker ps")
    ensures MostSpecificKey(ExplanationKeys, "docker ps -a") == "docker ps -a"
    ensures ExplainPs("docker ps -a") != ExplainPsAll("docker ps -a")
  {
    PsAllIsMostSpecific();
    PsExplanationsDiffer("docker ps -a");
  }

  /** The most specific registered prefix of "docker ps -a" is itself, though "docker ps" is one too. */
  lemma PsAllIsMostSpecific()
    ensures "docker ps" in ExplanationKeys && StartsWith("docker ps -a", "docker ps")
    ensures MostSpecificKey(ExplanationKeys, "docker ps -a") == "docker ps -a"
  {
    var s := "docker ps -a";
    assert s[..9] == "docker ps";
    assert s[..|s|] == s;
    assert LongestPrefix(ExplanationKeys, s, s);
    LongestPrefixUnique(ExplanationKeys, s, MostSpecificKey(ExplanationKeys, s), s);
  }

  /** The explanations of `docker ps` and `docker ps -a` differ, whatever the command. */
  lemma PsExplanationsDiffer(command: string)
    ensures ExplainPs(command) != ExplainPsAll(command)
  {
    PsExplanationQuotes(command);
    PsAllExplanationQuotes(command);
  }

  /** The explanation of `docker ps` closes its quote right after the command. */
  lemma PsExplanationQuotes(command: string)
    ensures |ExplainPs(command)| > 14 && ExplainPs(command)[14] == '`'
  {
    var head := "The `docker ps` ";
    assert head[14] == '`';
  }

  /** The explanation of `docker ps -a` is still quoting the command at the same place. */
  lemma PsAllExplanationQuotes(command: string)
    ensures |ExplainPsAll(command)| > 14 && ExplainPsAll(command)[14] == ' '
  {
    var head := "The `docker ps -a` ";
    assert head[14] == ' ';
  }

}
