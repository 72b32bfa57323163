/** The build stage: checks that a build command and its readiness pattern are configured, then
    runs the command and waits for the pattern. */
module Builders {
  import opened Wrappers
  import opened JsValues
  import opened CommandRunner

  datatype BuilderConfig = BuilderConfig(
    buildProjectCommand: Option<string>,
    buildProjectTimeout: Option<real>,
    commandExecutionContextPath: Option<string>,
    buildProjectCompleteStringPattern: Option<string>)

  /** The guards of `Builder.run`: the command is checked before the pattern; with both present
      the runner gets the configured values unchanged. */
  function BuildCommandRequest(config: BuilderConfig): (r: Result<CommandRequest, JsError>)
    ensures !Given(config.buildProjectCommand) ==> r == Failure(MissedProperty("buildProjectCommand"))
    ensures Given(config.buildProjectCommand) && !Given(config.buildProjectCompleteStringPattern) ==>
              r == Failure(MissedProperty("buildProjectCompleteStringPattern"))
    ensures r.Success? <==> Given(config.buildProjectCommand) && Given(config.buildProjectCompleteStringPattern)
    ensures r.Success? ==>
              && r.value.command == config.buildProjectCommand.value
              && r.value.pattern == config.buildProjectCompleteStringPattern.value
              && r.value.timeout == config.buildProjectTimeout
              && r.value.contextPath == config.commandExecutionContextPath
  {
    if !Given(config.buildProjectCommand) then Failure(MissedProperty("buildProjectCommand"))
    else if !Given(config.buildProjectCompleteStringPattern) then Failure(MissedProperty("buildProjectCompleteStringPattern"))
    else Success(CommandRequest(config.buildProjectCommand.value, config.buildProjectTimeout,
                                config.buildProjectCompleteStringPattern.value, config.commandExecutionContextPath))
  }

  /** `Builder.run`: no process is spawned when a guard fails; otherwise the runner is called once
      and its outcome and process (whose stop callback it hands back) are the stage's. */
  method RunBuilder(config: BuilderConfig, env: ProcessEnvironment) returns (process: Option<CommandProcess>, r: Outcome<JsError>)
    ensures BuildCommandRequest(config).Failure? ==> process.None? && r == Fail(BuildCommandRequest(config).error)
    ensures BuildCommandRequest(config).Success? ==>
              var req := BuildCommandRequest(config).value;
              && process.Some? && fresh(process.value)
              && process.value.command == req.command
              && process.value.cwd == WorkingDirectory(req.contextPath, env.processCwd)
              && process.value.timeoutMilliseconds == TimeoutMilliseconds(req.timeout)
              && r == CommandOutcome(req.command, WaitResult(env.streams, env.trace, req.pattern))
              && process.value.stopCount == (if r.Pass? then 0 else 1)
  {
    var req := BuildCommandRequest(config);
    if req.Failure? {
      return None, Fail(req.error);
    }
    var p;
    p, r := RunCommandProcessAndWaitForComplete(req.value.command, req.value.timeout, req.value.pattern,
                                                req.value.contextPath, env);
    process := Some(p);
  }
}
