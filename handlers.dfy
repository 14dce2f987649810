/** The decision tables of the HTTP handlers (`src/handlers.rs`): container
    actions and their docker subcommands and time limits, the outcome of an
    action, the health rule for a service's HTTP status, and the shape of the
    container-log reply. The subprocess and HTTP calls themselves are
    parameters: their results arrive as values. */
module Handlers {
  import opened Base
  import opened Text
  import opened Models

  /** The actions a client may request; decoded from their lower-case names. */
  datatype ContainerAction = Start | Stop | Restart | Pause | Unpause

  /** The `action` field of a request as serde decodes it: exactly one of the
      five lower-case names. */
  function DecodeAction(name: string): (a: Option<ContainerAction>)
    ensures a.Some? <==> name in {"start", "stop", "restart", "pause", "unpause"}
  {
    if name == "start" then Some(Start)
    else if name == "stop" then Some(Stop)
    else if name == "restart" then Some(Restart)
    else if name == "pause" then Some(Pause)
    else if name == "unpause" then Some(Unpause)
    else None
  }

  /** The docker subcommand run for an action. */
  function Command(a: ContainerAction): (s: string)
    ensures DecodeAction(s) == Some(a)
  {
    match a
    case Start => "start"
    case Stop => "stop"
    case Restart => "restart"
    case Pause => "pause"
    case Unpause => "unpause"
  }

  /** Each action runs the subcommand of its own name, and distinct actions
      run distinct subcommands. */
  lemma CommandRoundTrip(a: ContainerAction, b: ContainerAction)
    ensures DecodeAction(Command(a)) == Some(a)
    ensures Command(a) == Command(b) ==> a == b
  {
  }

  /** Seconds allowed for a subcommand: longer for the ones that stop a container. */
  function TimeoutSecs(command: string): (t: nat)
    ensures command == "stop" ==> t == 30
    ensures command == "restart" ==> t == 45
    ensures command != "stop" && command != "restart" ==> t == 10
  {
    if command == "stop" then 30 else if command == "restart" then 45 else 10
  }

  /** How the subprocess ended, as the handler sees it. */
  datatype CommandOutcome =
    | Finished(exitOk: bool, stderr: string)
    | SpawnFailed(error: string)
    | TimedOut

  datatype ActionResponse = ActionResponse(success: bool, message: string)

  /** The reply of `docker_action_handler`; the handler always replies 200. */
  function ActionReply(containerId: string, a: ContainerAction, outcome: CommandOutcome): (r: ActionResponse)
    ensures r.success <==> outcome.Finished? && outcome.exitOk
  {
    var command := Command(a);
    match outcome
    case Finished(ok, stderr) =>
      if ok then
        ActionResponse(true, "Container " + containerId + " action '" + command + "' completed successfully")
      else
        ActionResponse(false, "Failed to " + command + " container: " + RustTrim(stderr))
    case SpawnFailed(e) =>
      ActionResponse(false, "Failed to execute docker command: " + e)
    case TimedOut =>
      ActionResponse(false, "Operation timed out after " + NatToString(TimeoutSecs(command))
        + " seconds. The container may still be processing the command.")
  }

  /** A time-out reply names the limit of the action's own subcommand. */
  lemma TimeoutReplyNamesLimit(containerId: string, a: ContainerAction)
    ensures var r := ActionReply(containerId, a, TimedOut);
      !r.success && r.message[..|"Operation timed out after "|] == "Operation timed out after "
    ensures a == Stop ==> ActionReply(containerId, a, TimedOut).message[26..28] == "30"
    ensures a == Restart ==> ActionReply(containerId, a, TimedOut).message[26..28] == "45"
  {
    var prefix, secs := "Operation timed out after ", NatToString(TimeoutSecs(Command(a)));
    var rest := " seconds. The container may still be processing the command.";
    assert ActionReply(containerId, a, TimedOut).message == prefix + secs + rest;
    ThreePieces(prefix, secs, rest);
    assert NatToString(30) == "30";
    assert NatToString(45) == "45";
  }

  /** `check_service_health`: a reply with a 2xx or 3xx status means online;
      any other status, or no reply at all, means offline. */
  function ServiceHealth(reply: Option<nat>): (s: ServiceStatus)
    ensures s == Online <==> reply.Some? && 200 <= reply.value < 400
  {
    match reply
    case Some(status) => if 200 <= status < 300 || 300 <= status < 400 then Online else Offline
    case None => Offline
  }

  const DefaultTail: nat := 100

  /** The `--tail` argument: the requested line count, 100 by default. */
  function TailArgument(tail: Option<nat>): (s: string)
    ensures AllDigits(s)
  {
    NatToString(if tail.Some? then tail.value else DefaultTail)
  }

  /** The arguments given to docker for the logs of a container. */
  function LogsArguments(containerId: string, tail: Option<nat>): (args: seq<string>)
    ensures |args| == 4 && args[..2] == ["logs", "--tail"] && args[3] == containerId
    ensures AllDigits(args[2]) && (tail.Some? ==> args[2] == NatToString(tail.value))
  {
    ["logs", "--tail", TailArgument(tail), containerId]
  }

  /** The log reply: standard output, a newline, then standard error; a
      failure to start docker is an internal server error. */
  function LogsReply(output: Result<(string, string), string>): (r: Result<string, nat>)
    ensures r.Err? <==> output.Err?
    ensures r.Err? ==> r.error == 500
    ensures r.Ok? ==> var (stdout, stderr) := output.value;
      |r.value| == |stdout| + 1 + |stderr| && r.value[..|stdout|] == stdout
      && r.value[|stdout|] == '\n' && r.value[|stdout| + 1..] == stderr
  {
    match output
    case Ok((stdout, stderr)) => Ok(stdout + "\n" + stderr)
    case Err(_) => Err(500)
  }

  /** Both streams can be read back from the reply when the standard output
      holds no newline of its own. */
  lemma LogsReplySplits(stdout: string, stderr: string)
    requires '\n' !in stdout
    ensures var body := LogsReply(Ok((stdout, stderr))).value;
      Find(body, "\n") == Some(|stdout|) && body[..|stdout|] == stdout && body[|stdout| + 1..] == stderr
  {
    var body := stdout + "\n" + stderr;
    assert body[|stdout|..|stdout| + 1] == "\n";
    FindFirstChar(body, "\n", |stdout|);
    assert body[..|stdout|] == stdout && body[|stdout| + 1..] == stderr;
  }

  /** Without a count the tail is the last 100 lines. */
  lemma DefaultTailArgument()
    ensures TailArgument(None) == "100"
  {
    assert NatToString(100) == NatToString(10) + [DigitChar(0)];
  }
}
