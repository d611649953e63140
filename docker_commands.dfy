/**
 * The mock Docker command service the terminal UI can be exercised with: a
 * table of commands with canned output, fallback responses for command
 * prefixes, and a table of follow-up suggestions. Where several prefixes
 * match, the source takes whichever it meets first in Go's map iteration,
 * which is unspecified; the model chooses any of them.
 */
module DockerCommands {
  import opened Wrappers
  import opened Text

  /** A command and its simulated response; the delay is in milliseconds. */
  datatype MockCommand = MockCommand(command: string, response: string, delayMs: nat, isSuccess: bool)

  // ---------------------------------------------------------------------
  // The canned outputs of the default table

  const PsOutput :=
    "CONTAINER ID   IMAGE          COMMAND                  CREATED          STATUS          PORTS                    NAMES\n"
    + "3a0a11eb1f29   nginx:latest   \"/docker-entrypoint.\U{2026}\"   10 minutes ago   Up 10 minutes   0.0.0.0:80->80/tcp       web-server\n"
    + "b8d5f65c9eff   redis:alpine   \"docker-entrypoint.s\U{2026}\"   3 hours ago      Up 3 hours      0.0.0.0:6379->6379/tcp   redis-cache"

  const PsAllOutput :=
    "CONTAINER ID   IMAGE              COMMAND                  CREATED          STATUS                      PORTS                    NAMES\n"
    + "3a0a11eb1f29   nginx:latest       \"/docker-entrypoint.\U{2026}\"   10 minutes ago   Up 10 minutes            0.0.0.0:80->80/tcp       web-server\n"
    + "b8d5f65c9eff   redis:alpine       \"docker-entrypoint.s\U{2026}\"   3 hours ago      Up 3 hours               0.0.0.0:6379->6379/tcp   redis-cache\n"
    + "c9f87e012d3a   postgres:14        \"docker-entrypoint.s\U{2026}\"   1 day ago        Exited (0) 2 hours ago                            db\n"
    + "d7e42a11d892   myapp:latest       \"npm start\"              5 hours ago      Exited (1) 30 minutes ago                         app"

  const ImagesOutput :=
    "REPOSITORY   TAG       IMAGE ID       CREATED        SIZE\n"
    + "nginx        latest    a6bd71f48f68   2 days ago     187MB\n"
    + "redis        alpine    3e52887d9762   3 days ago     28.3MB\n"
    + "postgres     14        a7d0e695d068   1 week ago     412MB\n"
    + "myapp        latest    b9c12f4e0d31   5 hours ago    345MB\n"
    + "ubuntu       22.04     c6b84b685f35   2 weeks ago    77.8MB"

  const WebServerLogs :=
    "192.168.1.5 - - [10/May/2025:10:12:01 +0000] \"GET / HTTP/1.1\" 200 615 \"-\" \"Mozilla/5.0\"\n"
    + "192.168.1.10 - - [10/May/2025:10:12:05 +0000] \"GET /style.css HTTP/1.1\" 200 1270 \"http://localhost/\" \"Mozilla/5.0\"\n"
    + "192.168.1.5 - - [10/May/2025:10:13:21 +0000] \"GET /api/v1/users HTTP/1.1\" 404 153 \"-\" \"curl/7.68.0\"\n"
    + "192.168.1.8 - - [10/May/2025:10:15:42 +0000] \"GET / HTTP/1.1\" 200 615 \"-\" \"Mozilla/5.0\""

  const AppLogs :=
    "Starting application...\n"
    + "Connected to database\n"
    + "Error connecting to Redis cache: connection refused\n"
    + "Retrying connection in 5 seconds...\n"
    + "Error connecting to Redis cache: connection refused\n"
    + "Application exited with code 1"

  const RedisCacheLogs :=
    "1:C 10 May 2025 09:55:12.912 # oO0OoO0OoO0Oo Redis is starting oO0OoO0OoO0Oo\n"
    + "1:C 10 May 2025 09:55:12.912 # Redis version=7.0.5, bits=64\n"
    + "1:M 10 May 2025 09:55:12.913 * monotonic clock: POSIX clock_gettime\n"
    + "1:M 10 May 2025 09:55:12.913 # Server initialized\n"
    + "1:M 10 May 2025 09:55:12.913 * Ready to accept connections"

  const NetworkLsOutput :=
    "NETWORK ID     NAME                   DRIVER    SCOPE\n"
    + "9b75b5dc5f3e   bridge                 bridge    local\n"
    + "6a1d07951642   host                   host      local\n"
    + "e09b90661293   my-application         bridge    local\n"
    + "37bfda7e4221   none                   null      local"

  const NetworkInspectOutput :=
    "[\n"
    + "    {\n"
    + "        \"Name\": \"my-application\",\n"
    + "        \"Id\": \"e09b90661293\",\n"
    + "        \"Created\": \"2025-05-09T15:38:08.673432Z\",\n"
    + "        \"Scope\": \"local\",\n"
    + "        \"Driver\": \"bridge\",\n"
    + "        \"EnableIPv6\": false,\n"
    + "        \"IPAM\": {\n"
    + "            \"Driver\": \"default\",\n"
    + "            \"Options\": {},\n"
    + "            \"Config\": [\n"
    + "                {\n"
    + "                    \"Subnet\": \"172.20.0.0/16\",\n"
    + "                    \"Gateway\": \"172.20.0.1\"\n"
    + "                }\n"
    + "            ]\n"
    + "        },\n"
    + "        \"Internal\": false,\n"
    + "        \"Attachable\": false,\n"
    + "        \"Ingress\": false,\n"
    + "        \"ConfigFrom\": {\n"
    + "            \"Network\": \"\"\n"
    + "        },\n"
    + "        \"ConfigOnly\": false,\n"
    + "        \"Containers\": {\n"
    + "            \"3a0a11eb1f29\": {\n"
    + "                \"Name\": \"web-server\",\n"
    + "                \"EndpointID\": \"12a3456789bc\",\n"
    + "                \"MacAddress\": \"02:42:ac:14:00:02\",\n"
    + "                \"IPv4Address\": \"172.20.0.2/16\",\n"
    + "                \"IPv6Address\": \"\"\n"
    + "            },\n"
    + "            \"b8d5f65c9eff\": {\n"
    + "                \"Name\": \"redis-cache\",\n"
    + "                \"EndpointID\": \"de9f87654321\",\n"
    + "                \"MacAddress\": \"02:42:ac:14:00:03\",\n"
    + "                \"IPv4Address\": \"172.20.0.3/16\",\n"
    + "                \"IPv6Address\": \"\"\n"
    + "            }\n"
    + "        },\n"
    + "        \"Options\": {},\n"
    + "        \"Labels\": {}\n"
    + "    }\n"
    + "]"

  /** The docker command line with the given arguments. */
  function Docker(args: string): (r: string)
    ensures StartsWith(r, "docker")
  {
    assert ("docker " + args)[..6] == "docker";
    "docker " + args
  }

  /**
   * The suggestion table SuggestNextCommand consults: what to suggest
   * after a command, keyed by a prefix of that command. Every entry is a
   * docker command line.
   */
  method NewSuggestionTable() returns (table: map<string, string>)
    ensures forall k | k in table :: StartsWith(table[k], "docker")
  {
    table := map[];
    table := table["docker ps" := Docker("logs web-server")];
    table := table["docker ps -a" := Docker("start app")];
    table := table["docker logs web-server" := Docker("restart web-server")];
    table := table["docker logs app" := Docker("restart redis-cache")];
    table := table["docker restart redis-cache" := Docker("logs app")];
    table := table["docker start app" := Docker("network connect my-application app")];
    table := table["docker network ls" := Docker("network inspect my-application")];
    table := table["docker network inspect" := Docker("ps")];
    table := table["docker images" := Docker("pull nginx:latest")];
    table := table["docker pull" := Docker("run -d --name test-container nginx:latest")];
    table := table["docker run" := Docker("ps")];
    table := table["docker logs redis-cache" := Docker("ps -a")];
    table := table["docker stop" := Docker("ps -a")];
  }

  /** The suggestion when no key of the table is a prefix. */
  const DefaultSuggestion := Docker("ps")

  // ---------------------------------------------------------------------
  // Prefix lookup

  /** Some key of the table is a prefix of `s`. */
  predicate HasPrefixKey(keys: set<string>, s: string) {
    exists k | k in keys :: StartsWith(s, k)
  }

  /**
   * A range over a table's keys that stops at the first key that is a
   * prefix of `s`. The keys are visited in an order the model does not fix.
   */
  method PickPrefixKey(keys: set<string>, s: string) returns (found: Option<string>)
    ensures found.Some? ==> found.value in keys && StartsWith(s, found.value)
    ensures found.None? <==> !HasPrefixKey(keys, s)
  {
    var unseen := keys;
    while unseen != {}
      invariant unseen <= keys
      invariant forall k | k in keys && k !in unseen :: !StartsWith(s, k)
      decreases |unseen|
    {
      var k :| k in unseen;
      if StartsWith(s, k) {
        return Some(k);
      }
      unseen := unseen - {k};
    }
    return None;
  }

  // ---------------------------------------------------------------------
  // The service

  class DockerCommandService {
    var commands: map<string, MockCommand>
    var fallbackResponses: map<string, string>
    /** The table SuggestNextCommand consults; it never changes. */
    const suggestions: map<string, string>

    /**
     * The service never fails a command that starts with "docker": every
     * command in its table succeeds, and the bare "docker" fallback catches
     * the rest. The default tables have this property.
     */
    predicate AcceptsDocker()
      reads this`commands, this`fallbackResponses
    {
      "docker" in fallbackResponses && AllSucceed()
    }

    /** Every command in the table succeeds. */
    predicate AllSucceed()
      reads this`commands
    {
      forall c | c in commands :: commands[c].isSuccess
    }

    /** Every suggestion the service can make is a docker command. */
    predicate SuggestsDocker() {
      forall k | k in suggestions :: StartsWith(suggestions[k], "docker")
    }

    /**
     * `next` is the suggestion listed under some prefix of `previous`, or
     * the default suggestion when no listed prefix matches.
     */
    predicate IsSuggestionFor(previous: string, next: string) {
      if HasPrefixKey(suggestions.Keys, previous)
      then exists k | k in suggestions && StartsWith(previous, k) :: next == suggestions[k]
      else next == DefaultSuggestion
    }

    /**
     * NewDockerCommandService: empty tables, then AddCommand for each
     * default command and AddFallbackResponse for each default fallback,
     * in order.
     */
    constructor()
      ensures AcceptsDocker() && SuggestsDocker()
    {
      commands := map[];
      fallbackResponses := map[];
      var table := NewSuggestionTable();
      suggestions := table;
      new;
      AddDefaultCommands();
      AddDefaultFallbacks();
    }

    /** The default commands of NewDockerCommandService, all succeeding. */
    method AddDefaultCommands()
      modifies this`commands
      ensures old(AllSucceed()) ==> AllSucceed()
    {
      AddCommand("docker ps", PsOutput, 800, true);
      AddCommand("docker ps -a", PsAllOutput, 1200, true);
      AddCommand("docker images", ImagesOutput, 700, true);
      AddCommand("docker logs web-server", WebServerLogs, 1500, true);
      AddCommand("docker logs app", AppLogs, 900, true);
      AddCommand("docker logs redis-cache", RedisCacheLogs, 600, true);
      AddCommand("docker network ls", NetworkLsOutput, 500, true);
      AddCommand("docker start app", "app", 2000, true);
      AddCommand("docker restart redis-cache", "redis-cache", 3000, true);
      AddCommand("docker stop web-server", "web-server", 1500, true);
      AddCommand("docker network inspect my-application", NetworkInspectOutput, 800, true);
      AddCommand("docker network connect my-application app", "", 1000, true);
    }

    /** The default fallbacks of NewDockerCommandService, the bare "docker" prefix last. */
    method AddDefaultFallbacks()
      modifies this`fallbackResponses
      ensures "docker" in fallbackResponses
    {
      AddFallbackResponse("docker run", "Container started successfully");
      AddFallbackResponse("docker pull", "Image pulled successfully");
      AddFallbackResponse("docker build", "Image built successfully");
      AddFallbackResponse("docker exec", "Command executed in container");
      AddFallbackResponse("docker", "Unknown Docker command. Please use a valid Docker command.");
    }

    /** Adds a command, replacing any earlier entry for the same text. */
    method AddCommand(command: string, response: string, delayMs: nat, isSuccess: bool)
      modifies this`commands
      ensures commands == old(commands)[command := MockCommand(command, response, delayMs, isSuccess)]
      ensures old(AllSucceed()) && isSuccess ==> AllSucceed()
    {
      commands := commands[command := MockCommand(command, response, delayMs, isSuccess)];
    }

    /** Adds a fallback for a prefix, replacing any earlier one. */
    method AddFallbackResponse(commandPrefix: string, response: string)
      modifies this`fallbackResponses
      ensures fallbackResponses == old(fallbackResponses)[commandPrefix := response]
    {
      fallbackResponses := fallbackResponses[commandPrefix := response];
    }

    /**
     * Simulates running a command; `err` is the error, absent on success.
     * An exact entry wins and reports its own success; otherwise a fallback
     * whose prefix matches answers successfully; otherwise the command is
     * unknown.
     */
    method ExecuteCommand(command: string) returns (output: string, err: Option<string>)
      ensures command in commands ==> output == commands[command].response
      ensures command in commands ==> (err.None? <==> commands[command].isSuccess)
      ensures command in commands && !commands[command].isSuccess ==> err == Some("command failed: " + command)
      ensures command !in commands && HasPrefixKey(fallbackResponses.Keys, command) ==>
                err.None? && exists p | p in fallbackResponses && StartsWith(command, p) :: output == fallbackResponses[p]
      ensures command !in commands && !HasPrefixKey(fallbackResponses.Keys, command) ==>
                output == "" && err == Some("unknown command: " + command)
      ensures AcceptsDocker() && StartsWith(command, "docker") ==> err.None?
    {
      if command in commands {
        var mock := commands[command];
        if mock.isSuccess {
          return mock.response, None;
        }
        return mock.response, Some("command failed: " + command);
      }
      var prefix := PickPrefixKey(fallbackResponses.Keys, command);
      if prefix.Some? {
        return fallbackResponses[prefix.value], None;
      }
      return "", Some("unknown command: " + command);
    }

    /**
     * The suggestion listed under some prefix of the previous command, or
     * "docker ps" when none matches. Every suggestion is a docker command.
     */
    method SuggestNextCommand(previousCommand: string) returns (next: string)
      ensures IsSuggestionFor(previousCommand, next)
      ensures SuggestsDocker() ==> StartsWith(next, "docker")
    {
      var key := PickPrefixKey(suggestions.Keys, previousCommand);
      if key.Some? {
        return suggestions[key.value];
      }
      return DefaultSuggestion;
    }
  }
}
