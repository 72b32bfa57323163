/** The start stage: checks that a start command and its readiness pattern are configured, then
    runs the command and waits for the pattern. */
module Starters {
  import opened Wrappers
  import opened JsValues
  import opened CommandRunner

  datatype StarterConfig = StarterConfig(
    startProjectCommand: Option<string>,
    startProjectTimeout: Option<real>,
    commandExecutionContextPath: Option<string>,
    startProjectCompleteStringPattern: Option<string>)

  /** The guards of `Starter.run`: the command is checked before the pattern; with both present
      the runner gets the configured values unchanged. */
  function StartCommandRequest(config: StarterConfig): (r: Result<CommandRequest, JsError>)
    ensures !Given(config.startProjectCommand) ==> r == Failure(MissedProperty("startProjectCommand"))
    ensures Given(config.startProjectCommand) && !Given(config.startProjectCompleteStringPattern) ==>
              r == Failure(MissedProperty("startProjectCompleteStringPattern"))
    ensures r.Success? <==> Given(config.startProjectCommand) && Given(config.startProjectCompleteStringPattern)
    ensures r.Success? ==>
              && r.value.command == config.startProjectCommand.value
              && r.value.pattern == config.startProjectCompleteStringPattern.value
              && r.value.timeout == config.startProjectTimeout
              && r.value.contextPath == config.commandExecutionContextPath
  {
    if !Given(config.startProjectCommand) then Failure(MissedProperty("startProjectCommand"))
    else if !Given(config.startProjectCompleteStringPattern) then Failure(MissedProperty("startProjectCompleteStringPattern"))
    else Success(CommandRequest(config.startProjectCommand.value, config.startProjectTimeout,
                                config.startProjectCompleteStringPattern.value, config.commandExecutionContextPath))
  }

  /** `Starter.run`: no process is spawned when a guard fails; otherwise the runner is called once
      and its outcome and process (whose stop callback it hands back) are the stage's. */
  method RunStarter(config: StarterConfig, env: ProcessEnvironment) returns (process: Option<CommandProcess>, r: Outcome<JsError>)
    ensures StartCommandRequest(config).Failure? ==> process.None? && r == Fail(StartCommandRequest(config).error)
    ensures StartCommandRequest(config).Success? ==>
              var req := StartCommandRequest(config).value;
              && process.Some? && fresh(process.value)
              && process.value.command == req.command
              && process.value.cwd == WorkingDirectory(req.contextPath, env.processCwd)
              && process.value.timeoutMilliseconds == TimeoutMilliseconds(req.timeout)
              && r == CommandOutcome(req.command, WaitResult(env.streams, env.trace, req.pattern))
              && process.value.stopCount == (if r.Pass? then 0 else 1)
  {
    var req := StartCommandRequest(config);
    if req.Failure? {
      return None, Fail(req.error);
    }
    var p;
    p, r := RunCommandProcessAndWaitForComplete(req.value.command, req.value.timeout, req.value.pattern,
                                                req.value.contextPath, env);
    process := Some(p);
  }
}
