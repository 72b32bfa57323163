/**
 * The audit pipeline's driver, `SyntheticPerformance.run`: validate the configuration, build
 * and start the project when asked to, clear the report directory when asked to, launch the
 * browser, then authenticate (when a script is configured) and audit each URL in turn. The
 * first error ends the stages and is logged, never rethrown; in every case the stop callbacks
 * queued so far are then run in the order they were queued.
 *
 * The build and start stages use the modelled guards and command runner; clearing the report
 * directory, the browser, the authenticator and the auditor are outcomes given by an
 * environment, since they stand for processes, a browser and the network.
 */
module SyntheticPerformances {
  import opened Wrappers
  import opened JsValues
  import opened CommandRunner
  import opened Builders
  import opened Starters
  import opened ConfigValidators

  /** What a launched browser gives back besides its stop callback. */
  datatype BrowserSession = BrowserSession(browserPort: int, browserWebSocketUrl: string)

  /** What the lazily created auditor and authenticator were created with. */
  datatype AuditorSetup = AuditorSetup(browserPort: int, auditConfig: JsValue)
  datatype AuthenticatorSetup = AuthenticatorSetup(browserWebSocketUrl: string, authenticationScriptPath: JsValue)

  /** The stop callbacks the driver can queue. */
  datatype StopCallback = StopBuilder | StopStarter | StopBrowser

  /** A stage the driver ran (whether or not it then succeeded). */
  datatype Stage =
    | Build
    | Start
    | ClearReports
    | LaunchBrowser
    | Authenticate(urlName: string)
    | Audit(urlName: string, budget: JsValue)

  /** The outside world: the processes behind the build and start commands, and the outcomes
      of clearing the report directory, of launching and stopping the browser, and of
      authenticating and auditing a URL. */
  datatype Environment = Environment(
    buildProcess: ProcessEnvironment,
    startProcess: ProcessEnvironment,
    clearReports: Outcome<JsError>,
    browser: Result<BrowserSession, JsError>,
    authenticate: (AuthenticatorSetup, JsValue) -> Outcome<JsError>,
    audit: (AuditorSetup, JsValue, string, JsValue, JsValue) -> Outcome<JsError>,
    stopBrowser: Outcome<JsError>)

  /** The driver's fields: the lazily created auditor and authenticator and the stop-callback
      queue; then the errors logged, the stop callbacks run and the stages run so far. */
  datatype Fields = Fields(
    auditor: Option<AuditorSetup>,
    authenticator: Option<AuthenticatorSetup>,
    queue: seq<StopCallback>,
    errors: seq<JsError>,
    stopped: seq<StopCallback>,
    stages: seq<Stage>)

  /** A string-valued option of the configuration. */
  function StringField(config: JsValue, key: string): Option<string> {
    var v := Get(config, key);
    if v.Str? then Some(v.s) else None
  }

  /** A timeout option of the configuration, in minutes. */
  function TimeoutField(config: JsValue, key: string): Option<real> {
    var v := Get(config, key);
    if v.Num? && v.n.Finite? then Some(v.n.value) else None
  }

  /** `Boolean(buildProjectCommand && !skipBuildProject)` */
  predicate NeedsBuild(config: JsValue) {
    Truthy(Get(config, "buildProjectCommand")) && !Truthy(Get(config, "skipBuildProject"))
  }

  /** `Boolean(startProjectCommand && !skipStartProject)` */
  predicate NeedsStart(config: JsValue) {
    Truthy(Get(config, "startProjectCommand")) && !Truthy(Get(config, "skipStartProject"))
  }

  predicate NeedsClear(config: JsValue) {
    Truthy(Get(config, "clearReportFilesDirectoryBeforeAudit"))
  }

  predicate NeedsAuthentication(config: JsValue) {
    Truthy(Get(config, "authenticationScriptPath"))
  }

  function BuilderConfigOf(config: JsValue): BuilderConfig {
    BuilderConfig(StringField(config, "buildProjectCommand"), TimeoutField(config, "buildProjectTimeout"),
                  StringField(config, "commandExecutionContextPath"),
                  StringField(config, "buildProjectCompleteStringPattern"))
  }

  function StarterConfigOf(config: JsValue): StarterConfig {
    StarterConfig(StringField(config, "startProjectCommand"), TimeoutField(config, "startProjectTimeout"),
                  StringField(config, "commandExecutionContextPath"),
                  StringField(config, "startProjectCompleteStringPattern"))
  }

  /** The outcome of `new Builder(...).run()`: a guard error, or what the runner makes of the
      build process. */
  function BuildOutcome(config: JsValue, env: Environment): Outcome<JsError> {
    match BuildCommandRequest(BuilderConfigOf(config))
    case Failure(e) => Fail(e)
    case Success(req) => CommandOutcome(req.command, WaitResult(env.buildProcess.streams, env.buildProcess.trace, req.pattern))
  }

  function StartOutcome(config: JsValue, env: Environment): Outcome<JsError> {
    match StartCommandRequest(StarterConfigOf(config))
    case Failure(e) => Fail(e)
    case Success(req) => CommandOutcome(req.command, WaitResult(env.startProcess.streams, env.startProcess.trace, req.pattern))
  }

  /** The keys of `urls`, in order. */
  function UrlNames(config: JsValue): seq<string> {
    var urls := Get(config, "urls");
    if urls.Obj? then seq(|urls.props|, i requires 0 <= i < |urls.props| => urls.props[i].0) else []
  }

  /** The index of the first budget whose `url` is `urlName`. */
  function FirstBudgetIndex(items: seq<JsValue>, urlName: string): (r: Option<nat>)
    ensures r.None? ==> forall i :: 0 <= i < |items| ==> Get(items[i], "url") != Str(urlName)
    ensures r.Some? ==>
              && r.value < |items| && Get(items[r.value], "url") == Str(urlName)
              && forall j :: 0 <= j < r.value ==> Get(items[j], "url") != Str(urlName)
  {
    if items == [] then None
    else if Get(items[0], "url") == Str(urlName) then Some(0)
    else
      match FirstBudgetIndex(items[1..], urlName)
      case None => None
      case Some(i) => Some(i + 1)
  }

  /** `performanceBudgets && performanceBudgets.filter(budget => budget.url === urlName).shift()`:
      the first budget for the URL, `undefined` when there is none or no budget list. */
  function BudgetFor(budgets: JsValue, urlName: string): JsValue {
    if budgets.Arr? then
      match FirstBudgetIndex(budgets.items, urlName)
      case Some(i) => budgets.items[i]
      case None => Undefined
    else Undefined
  }

  function ErrorOf(o: Outcome<JsError>): Option<JsError> {
    if o.Fail? then Some(o.error) else None
  }

  /** `buildProject`: the stop callback is queued only after the stage succeeded. */
  function BuildStage(config: JsValue, env: Environment, f: Fields): (Fields, Option<JsError>) {
    var o := BuildOutcome(config, env);
    var g := f.(stages := f.stages + [Build]);
    if o.Fail? then (g, Some(o.error)) else (g.(queue := g.queue + [StopBuilder]), None)
  }

  function StartStage(config: JsValue, env: Environment, f: Fields): (Fields, Option<JsError>) {
    var o := StartOutcome(config, env);
    var g := f.(stages := f.stages + [Start]);
    if o.Fail? then (g, Some(o.error)) else (g.(queue := g.queue + [StopStarter]), None)
  }

  function ClearStage(env: Environment, f: Fields): (Fields, Option<JsError>) {
    (f.(stages := f.stages + [ClearReports]), ErrorOf(env.clearReports))
  }

  /** One URL: authentication when a script is configured, then the audit with the URL's budget.
      The authenticator and the auditor are created on first use and then reused. */
  function UrlStage(config: JsValue, env: Environment, session: BrowserSession, f: Fields, urlName: string)
    : (Fields, Option<JsError>)
  {
    var url := Get(Get(config, "urls"), urlName);
    var (f1, e1) :=
      if NeedsAuthentication(config) then
        var a := f.authenticator.GetOr(AuthenticatorSetup(session.browserWebSocketUrl, Get(config, "authenticationScriptPath")));
        (f.(authenticator := Some(a), stages := f.stages + [Authenticate(urlName)]), ErrorOf(env.authenticate(a, url)))
      else (f, None);
    if e1.Some? then (f1, e1)
    else
      var auditor := f1.auditor.GetOr(AuditorSetup(session.browserPort, Get(config, "auditConfig")));
      var budget := BudgetFor(Get(config, "budgets"), urlName);
      var o := env.audit(auditor, url, urlName, Get(config, "numberOfAuditRuns"), budget);
      (f1.(auditor := Some(auditor), stages := f1.stages + [Audit(urlName, budget)]), ErrorOf(o))
  }

  /** The URLs in order, stopping at the first error. */
  function UrlLoop(config: JsValue, env: Environment, session: BrowserSession, f: Fields, names: seq<string>)
    : (Fields, Option<JsError>)
  {
    if names == [] then (f, None)
    else
      var (g, e) := UrlLoop(config, env, session, f, names[..|names| - 1]);
      if e.Some? then (g, e) else UrlStage(config, env, session, g, names[|names| - 1])
  }

  /** The build stage when the configuration asks for it. */
  function BuildStep(config: JsValue, env: Environment, f: Fields): (Fields, Option<JsError>) {
    if NeedsBuild(config) then BuildStage(config, env, f) else (f, None)
  }

  function StartStep(config: JsValue, env: Environment, f: Fields): (Fields, Option<JsError>) {
    if NeedsStart(config) then StartStage(config, env, f) else (f, None)
  }

  /** The stages after the build stage. */
  function LaterStages(config: JsValue, env: Environment, f: Fields): (Fields, Option<JsError>) {
    var (f2, e2) := StartStep(config, env, f);
    if e2.Some? then (f2, e2) else BrowserStages(config, env, f2)
  }

  /** The stages after the build and start stages. */
  function BrowserStages(config: JsValue, env: Environment, f: Fields): (Fields, Option<JsError>) {
    var (f3, e3) := if NeedsClear(config) then ClearStage(env, f) else (f, None);
    if e3.Some? then (f3, e3)
    else
      var g := f3.(stages := f3.stages + [LaunchBrowser]);
      match env.browser
      case Failure(e) => (g, Some(e))
      case Success(session) => UrlLoop(config, env, session, g.(queue := g.queue + [StopBrowser]), UrlNames(config))
  }

  /** The `try` block of `run`: the stages and the first error, if any. */
  function Stages(config: JsValue, env: Environment, f: Fields): (Fields, Option<JsError>) {
    match ValidatePerformanceConfig(config)
    case Fail(e) => (f, Some(e))
    case Pass => ValidStages(config, env, f)
  }

  /** The stages of a configuration that passed validation. */
  function ValidStages(config: JsValue, env: Environment, f: Fields): (Fields, Option<JsError>) {
    var (f1, e1) := BuildStep(config, env, f);
    if e1.Some? then (f1, e1) else LaterStages(config, env, f1)
  }

  /** `stopRunningProcesses`: the callbacks in queue order; a rejecting callback (only the
      browser's can reject) ends the loop and its rejection escapes. Returns the callbacks run. */
  function Teardown(queue: seq<StopCallback>, stopBrowser: Outcome<JsError>): (seq<StopCallback>, Outcome<JsError>) {
    if queue == [] then ([], Pass)
    else
      var (calls, o) := Teardown(queue[..|queue| - 1], stopBrowser);
      if o.Fail? then (calls, o)
      else (calls + [queue[|queue| - 1]], if queue[|queue| - 1] == StopBrowser then stopBrowser else Pass)
  }

  /** `run`: the stages, the error logged, then the teardown. */
  function RunSpec(config: JsValue, env: Environment, f: Fields): (Outcome<JsError>, Fields) {
    var (f1, e) := Stages(config, env, f);
    Finish(f1, e, env.stopBrowser)
  }

  /** The `catch` and `finally` of `run`: the error, if any, is logged, then the queue is torn down. */
  function Finish(f1: Fields, e: Option<JsError>, stopBrowser: Outcome<JsError>): (Outcome<JsError>, Fields) {
    var f2 := if e.Some? then f1.(errors := f1.errors + [e.value]) else f1;
    var (calls, o) := Teardown(f2.queue, stopBrowser);
    (o, f2.(stopped := f2.stopped + calls))
  }

  // ---------------------------------------------------------------------------------------
  // What `run` promises, stated against an independent plan of the stages.

  /** The stages one URL needs. */
  function UrlStagePlan(config: JsValue, name: string): seq<Stage> {
    (if NeedsAuthentication(config) then [Authenticate(name)] else [])
    + [Audit(name, BudgetFor(Get(config, "budgets"), name))]
  }

  /** The stages the URLs need, in order. */
  function UrlPlan(config: JsValue, names: seq<string>): seq<Stage> {
    if names == [] then []
    else UrlPlan(config, names[..|names| - 1]) + UrlStagePlan(config, names[|names| - 1])
  }

  /** Every stage a well-formed configuration asks for, in the order they are run. */
  function Plan(config: JsValue): seq<Stage> {
    (if NeedsBuild(config) then [Build] else [])
    + (if NeedsStart(config) then [Start] else [])
    + BrowserPlan(config)
  }

  function BrowserPlan(config: JsValue): seq<Stage> {
    (if NeedsClear(config) then [ClearReports] else [])
    + [LaunchBrowser]
    + UrlPlan(config, UrlNames(config))
  }

  predicate IsPrefix(s: seq<Stage>, t: seq<Stage>) {
    |s| <= |t| && s == t[..|s|]
  }

  /** The stop callback a stage queues once it has succeeded. */
  function CallbackOf(s: Stage): seq<StopCallback> {
    match s
    case Build => [StopBuilder]
    case Start => [StopStarter]
    case LaunchBrowser => [StopBrowser]
    case _ => []
  }

  /** The stop callbacks of the stages in `run`, in order. */
  function Callbacks(run: seq<Stage>): seq<StopCallback> {
    if run == [] then [] else Callbacks(run[..|run| - 1]) + CallbackOf(run[|run| - 1])
  }

  /** The stages of `run` that succeeded: all of them, or all but the last when one failed. */
  function Completed(run: seq<Stage>, e: Option<JsError>): seq<Stage> {
    if e.Some? && run != [] then run[..|run| - 1] else run
  }

  /** Going from `f` to `g` ran a prefix of `plan`: all of it when no error `e` was raised,
      at least one stage when one was (the failing stage is the last one run). Exactly the
      succeeded stages queued their stop callbacks, and nothing was logged or stopped. */
  predicate Ran(f: Fields, g: Fields, e: Option<JsError>, plan: seq<Stage>) {
    && |f.stages| <= |g.stages| && g.stages[..|f.stages|] == f.stages
    && IsPrefix(g.stages[|f.stages|..], plan)
    && (e.None? ==> g.stages[|f.stages|..] == plan)
    && (e.Some? ==> |f.stages| < |g.stages|)
    && g.queue == f.queue + Callbacks(Completed(g.stages[|f.stages|..], e))
    && g.errors == f.errors && g.stopped == f.stopped
  }

  lemma {:induction false} CallbacksAppend(a: seq<Stage>, b: seq<Stage>)
    ensures Callbacks(a + b) == Callbacks(a) + Callbacks(b)
    decreases |b|
  {
    if b == [] {
      assert a + b == a;
    } else {
      var b0 := b[..|b| - 1];
      var last := b[|b| - 1];
      assert a + b == (a + b0) + [last];
      assert (a + b)[..|a + b| - 1] == a + b0;
      CallbacksAppend(a, b0);
      assert Callbacks(a + b) == Callbacks(a + b0) + CallbackOf(last);
      assert Callbacks(b) == Callbacks(b0) + CallbackOf(last);
    }
  }

  /** Running one step after another that raised nothing runs the two plans one after the other. */
  lemma {:induction false} RanThen(f: Fields, g: Fields, h: Fields, e: Option<JsError>, p1: seq<Stage>, p2: seq<Stage>)
    requires Ran(f, g, None, p1) && Ran(g, h, e, p2)
    ensures Ran(f, h, e, p1 + p2)
  {
    var run2 := h.stages[|g.stages|..];
    StagesThen(f.stages, g.stages, h.stages, p1, p2);
    QueueThen(f.queue, g.queue, h.queue, p1, run2, e);
  }

  lemma {:induction false} QueueThen(q0: seq<StopCallback>, q1: seq<StopCallback>, q2: seq<StopCallback>,
                  run1: seq<Stage>, run2: seq<Stage>, e: Option<JsError>)
    requires q1 == q0 + Callbacks(run1) && q2 == q1 + Callbacks(Completed(run2, e))
    requires e.Some? ==> run2 != []
    ensures q2 == q0 + Callbacks(Completed(run1 + run2, e))
  {
    var c := Completed(run2, e);
    CompletedAppend(run1, run2, e);
    CallbacksAppend(run1, c);
    assert q2 == q0 + (Callbacks(run1) + Callbacks(c));
  }

  lemma {:induction false} CompletedAppend(run1: seq<Stage>, run2: seq<Stage>, e: Option<JsError>)
    requires e.Some? ==> run2 != []
    ensures Completed(run1 + run2, e) == run1 + Completed(run2, e)
  {
    if e.Some? {
      assert (run1 + run2)[..|run1 + run2| - 1] == run1 + run2[..|run2| - 1];
    }
  }

  lemma {:induction false} StagesThen(a: seq<Stage>, b: seq<Stage>, c: seq<Stage>, p1: seq<Stage>, p2: seq<Stage>)
    requires |a| <= |b| && b[..|a|] == a && b[|a|..] == p1
    requires |b| <= |c| && c[..|b|] == b && IsPrefix(c[|b|..], p2)
    ensures |a| <= |c| && c[..|a|] == a && c[|a|..] == p1 + c[|b|..]
    ensures IsPrefix(c[|a|..], p1 + p2)
  {
    assert c[..|a|] == c[..|b|][..|a|];
    assert c[|a|..] == c[|a|..|b|] + c[|b|..];
    assert c[|a|..|b|] == b[|a|..];
    assert (p1 + p2)[..|p1| + |c[|b|..]|] == p1 + p2[..|c[|b|..]|];
  }

  /** A step that raised an error also ran a prefix of any longer plan. */
  lemma {:induction false} RanStopped(f: Fields, g: Fields, e: Option<JsError>, p1: seq<Stage>, p2: seq<Stage>)
    requires e.Some? && Ran(f, g, e, p1)
    ensures Ran(f, g, e, p1 + p2)
  {
    var run := g.stages[|f.stages|..];
    assert (p1 + p2)[..|run|] == p1[..|run|];
  }

  lemma RanNothing(f: Fields)
    ensures Ran(f, f, None, [])
  {
    assert f.stages[|f.stages|..] == [];
  }

  /** A stage that appends `s` and queues its callback exactly when it raised nothing. */
  lemma {:induction false} RanOne(f: Fields, g: Fields, e: Option<JsError>, s: Stage)
    requires g.stages == f.stages + [s] && g.errors == f.errors && g.stopped == f.stopped
    requires g.queue == f.queue + (if e.None? then CallbackOf(s) else [])
    ensures Ran(f, g, e, [s])
  {
    assert g.stages[|f.stages|..] == [s];
    assert Callbacks([s]) == CallbackOf(s) by {
      assert [s][..0] == [];
    }
  }

  lemma BuildStageRan(config: JsValue, env: Environment, f: Fields)
    ensures var (g, e) := BuildStage(config, env, f); Ran(f, g, e, [Build])
  {
    var (g, e) := BuildStage(config, env, f);
    RanOne(f, g, e, Build);
  }

  lemma StartStageRan(config: JsValue, env: Environment, f: Fields)
    ensures var (g, e) := StartStage(config, env, f); Ran(f, g, e, [Start])
  {
    var (g, e) := StartStage(config, env, f);
    RanOne(f, g, e, Start);
  }

  lemma UrlStageRan(config: JsValue, env: Environment, session: BrowserSession, f: Fields, name: string)
    ensures var (g, e) := UrlStage(config, env, session, f, name); Ran(f, g, e, UrlStagePlan(config, name))
  {
    var (g, e) := UrlStage(config, env, session, f, name);
    var audit := Audit(name, BudgetFor(Get(config, "budgets"), name));
    if NeedsAuthentication(config) {
      var a := f.authenticator.GetOr(AuthenticatorSetup(session.browserWebSocketUrl, Get(config, "authenticationScriptPath")));
      var f1 := f.(authenticator := Some(a), stages := f.stages + [Authenticate(name)]);
      var e1 := ErrorOf(env.authenticate(a, Get(Get(config, "urls"), name)));
      RanOne(f, f1, e1, Authenticate(name));
      if e1.Some? {
        RanStopped(f, g, e, [Authenticate(name)], [audit]);
      } else {
        RanOne(f1, g, e, audit);
        RanThen(f, f1, g, e, [Authenticate(name)], [audit]);
      }
    } else {
      RanOne(f, g, e, audit);
    }
  }

  /** The URL loop runs a prefix of the URL plan, all of it when no URL failed. */
  lemma {:induction false} UrlLoopFollowsPlan(config: JsValue, env: Environment, session: BrowserSession,
                                              f: Fields, names: seq<string>)
    ensures var (g, e) := UrlLoop(config, env, session, f, names); Ran(f, g, e, UrlPlan(config, names))
  {
    if names == [] {
      RanNothing(f);
    } else {
      var prefix := names[..|names| - 1];
      var name := names[|names| - 1];
      UrlLoopFollowsPlan(config, env, session, f, prefix);
      var (g0, e0) := UrlLoop(config, env, session, f, prefix);
      if e0.Some? {
        RanStopped(f, g0, e0, UrlPlan(config, prefix), UrlStagePlan(config, name));
      } else {
        UrlStageRan(config, env, session, g0, name);
        var (g, e) := UrlStage(config, env, session, g0, name);
        RanThen(f, g0, g, e, UrlPlan(config, prefix), UrlStagePlan(config, name));
      }
    }
  }

  lemma BrowserStagesFollowPlan(config: JsValue, env: Environment, f: Fields)
    ensures var (g, e) := BrowserStages(config, env, f); Ran(f, g, e, BrowserPlan(config))
  {
    var p3 := if NeedsClear(config) then [ClearReports] else [];
    var urls := UrlPlan(config, UrlNames(config));
    assert BrowserPlan(config) == p3 + ([LaunchBrowser] + urls) by {
      assert p3 + [LaunchBrowser] + urls == p3 + ([LaunchBrowser] + urls);
    }
    var f3 := if NeedsClear(config) then f.(stages := f.stages + [ClearReports]) else f;
    var e3 := if NeedsClear(config) then ErrorOf(env.clearReports) else None;
    if NeedsClear(config) {
      RanOne(f, f3, e3, ClearReports);
    } else {
      RanNothing(f);
    }
    if e3.Some? {
      RanStopped(f, f3, e3, p3, [LaunchBrowser] + urls);
    } else {
      var g := f3.(stages := f3.stages + [LaunchBrowser]);
      match env.browser
      case Failure(e) =>
        RanOne(f3, g, Some(e), LaunchBrowser);
        RanStopped(f3, g, Some(e), [LaunchBrowser], urls);
        RanThen(f, f3, g, Some(e), p3, [LaunchBrowser] + urls);
      case Success(session) =>
        var g1 := g.(queue := g.queue + [StopBrowser]);
        RanOne(f3, g1, None, LaunchBrowser);
        UrlLoopFollowsPlan(config, env, session, g1, UrlNames(config));
        var (h, e) := UrlLoop(config, env, session, g1, UrlNames(config));
        RanThen(f3, g1, h, e, [LaunchBrowser], urls);
        RanThen(f, f3, h, e, p3, [LaunchBrowser] + urls);
    }
  }

  lemma BuildStepRan(config: JsValue, env: Environment, f: Fields)
    ensures var (g, e) := BuildStep(config, env, f); Ran(f, g, e, if NeedsBuild(config) then [Build] else [])
  {
    if NeedsBuild(config) {
      BuildStageRan(config, env, f);
    } else {
      RanNothing(f);
    }
  }

  lemma StartStepRan(config: JsValue, env: Environment, f: Fields)
    ensures var (g, e) := StartStep(config, env, f); Ran(f, g, e, if NeedsStart(config) then [Start] else [])
  {
    if NeedsStart(config) {
      StartStageRan(config, env, f);
    } else {
      RanNothing(f);
    }
  }

  lemma LaterStagesFollowPlan(config: JsValue, env: Environment, f: Fields)
    ensures var (g, e) := LaterStages(config, env, f);
      Ran(f, g, e, (if NeedsStart(config) then [Start] else []) + BrowserPlan(config))
  {
    var p2 := if NeedsStart(config) then [Start] else [];
    StartStepRan(config, env, f);
    var (f2, e2) := StartStep(config, env, f);
    if e2.Some? {
      RanStopped(f, f2, e2, p2, BrowserPlan(config));
    } else {
      BrowserStagesFollowPlan(config, env, f2);
      var (g, e) := BrowserStages(config, env, f2);
      RanThen(f, f2, g, e, p2, BrowserPlan(config));
    }
  }

  // ---------------------------------------------------------------------------------------
  // Which stage raised the error: the outcome the environment gives each stage run.

  /** The authenticator and the auditor a run that started from `f0` uses: the ones it already
      had, else the ones created on first use. */
  function AuthenticatorFor(config: JsValue, session: BrowserSession, f0: Fields): AuthenticatorSetup {
    f0.authenticator.GetOr(AuthenticatorSetup(session.browserWebSocketUrl, Get(config, "authenticationScriptPath")))
  }

  function AuditorFor(config: JsValue, session: BrowserSession, f0: Fields): AuditorSetup {
    f0.auditor.GetOr(AuditorSetup(session.browserPort, Get(config, "auditConfig")))
  }

  /** The error the environment gives stage `s` of a run that started from `f0`, if any. */
  function StageError(config: JsValue, env: Environment, f0: Fields, s: Stage): Option<JsError> {
    match s
    case Build => ErrorOf(BuildOutcome(config, env))
    case Start => ErrorOf(StartOutcome(config, env))
    case ClearReports => ErrorOf(env.clearReports)
    case LaunchBrowser => if env.browser.Failure? then Some(env.browser.error) else None
    case Authenticate(name) =>
      if env.browser.Success? then
        ErrorOf(env.authenticate(AuthenticatorFor(config, env.browser.value, f0), Get(Get(config, "urls"), name)))
      else None
    case Audit(name, budget) =>
      if env.browser.Success? then
        ErrorOf(env.audit(AuditorFor(config, env.browser.value, f0), Get(Get(config, "urls"), name), name,
                          Get(config, "numberOfAuditRuns"), budget))
      else None
  }

  /** Every stage of `run` but the failing one succeeded, and the error `e` is the one the
      environment gave the last stage run. */
  predicate Decided(config: JsValue, env: Environment, f0: Fields, run: seq<Stage>, e: Option<JsError>) {
    && (forall i :: 0 <= i < |run| && (e.None? || i < |run| - 1) ==> StageError(config, env, f0, run[i]).None?)
    && (e.Some? ==> run != [] && e == StageError(config, env, f0, run[|run| - 1]))
  }

  /** Going from `f` to `g` appended stages to the log, and they were decided as above. */
  predicate DecidedBy(config: JsValue, env: Environment, f0: Fields, f: Fields, g: Fields, e: Option<JsError>) {
    && |f.stages| <= |g.stages| && g.stages[..|f.stages|] == f.stages
    && Decided(config, env, f0, g.stages[|f.stages|..], e)
  }

  /** The fields `f` create the same authenticator and auditor as `f0`. */
  predicate SameSetups(config: JsValue, session: BrowserSession, f0: Fields, f: Fields) {
    && AuthenticatorFor(config, session, f) == AuthenticatorFor(config, session, f0)
    && AuditorFor(config, session, f) == AuditorFor(config, session, f0)
  }

  lemma DecidedOne(config: JsValue, env: Environment, f0: Fields, f: Fields, g: Fields, s: Stage, e: Option<JsError>)
    requires g.stages == f.stages + [s] && e == StageError(config, env, f0, s)
    ensures DecidedBy(config, env, f0, f, g, e)
  {
    assert g.stages[|f.stages|..] == [s];
  }

  lemma DecidedNothing(config: JsValue, env: Environment, f0: Fields, f: Fields)
    ensures DecidedBy(config, env, f0, f, f, None)
  {
    assert f.stages[|f.stages|..] == [];
  }

  /** A step that succeeded followed by another: the stages decided in turn. */
  lemma {:induction false} DecidedThen(config: JsValue, env: Environment, f0: Fields, f: Fields, g: Fields, h: Fields,
                                       e: Option<JsError>)
    requires DecidedBy(config, env, f0, f, g, None) && DecidedBy(config, env, f0, g, h, e)
    ensures DecidedBy(config, env, f0, f, h, e)
  {
    var run1 := g.stages[|f.stages|..];
    var run2 := h.stages[|g.stages|..];
    assert h.stages[..|f.stages|] == h.stages[..|g.stages|][..|f.stages|];
    assert h.stages[|f.stages|..] == h.stages[|f.stages|..|g.stages|] + run2;
    assert h.stages[|f.stages|..|g.stages|] == run1;
    var run := run1 + run2;
    forall i | 0 <= i < |run| && (e.None? || i < |run| - 1)
      ensures StageError(config, env, f0, run[i]).None?
    {
      if i < |run1| {
        assert run[i] == run1[i];
      } else {
        assert run[i] == run2[i - |run1|];
      }
    }
    if e.Some? {
      assert run[|run| - 1] == run2[|run2| - 1];
    }
  }

  lemma UrlStageDecided(config: JsValue, env: Environment, session: BrowserSession, f0: Fields, f: Fields, name: string)
    requires env.browser == Success(session) && SameSetups(config, session, f0, f)
    ensures var (g, e) := UrlStage(config, env, session, f, name);
      DecidedBy(config, env, f0, f, g, e) && SameSetups(config, session, f0, g)
  {
    var (g, e) := UrlStage(config, env, session, f, name);
    var url := Get(Get(config, "urls"), name);
    var budget := BudgetFor(Get(config, "budgets"), name);
    var f1 := if NeedsAuthentication(config) then f.(authenticator := Some(AuthenticatorFor(config, session, f)),
                                                     stages := f.stages + [Authenticate(name)]) else f;
    var e1 := if NeedsAuthentication(config) then ErrorOf(env.authenticate(AuthenticatorFor(config, session, f), url)) else None;
    if NeedsAuthentication(config) {
      DecidedOne(config, env, f0, f, f1, Authenticate(name), e1);
    } else {
      DecidedNothing(config, env, f0, f);
    }
    if e1.None? {
      assert g == f1.(auditor := Some(AuditorFor(config, session, f1)), stages := f1.stages + [Audit(name, budget)]);
      DecidedOne(config, env, f0, f1, g, Audit(name, budget), e);
      DecidedThen(config, env, f0, f, f1, g, e);
    }
  }

  lemma {:induction false} UrlLoopDecided(config: JsValue, env: Environment, session: BrowserSession, f0: Fields,
                                          f: Fields, names: seq<string>)
    requires env.browser == Success(session) && SameSetups(config, session, f0, f)
    ensures var (g, e) := UrlLoop(config, env, session, f, names);
      DecidedBy(config, env, f0, f, g, e) && SameSetups(config, session, f0, g)
  {
    if names == [] {
      DecidedNothing(config, env, f0, f);
    } else {
      var prefix := names[..|names| - 1];
      UrlLoopDecided(config, env, session, f0, f, prefix);
      var (g0, e0) := UrlLoop(config, env, session, f, prefix);
      if e0.None? {
        UrlStageDecided(config, env, session, f0, g0, names[|names| - 1]);
        var (g, e) := UrlStage(config, env, session, g0, names[|names| - 1]);
        DecidedThen(config, env, f0, f, g0, g, e);
      }
    }
  }

  lemma BrowserStagesDecided(config: JsValue, env: Environment, f0: Fields, f: Fields)
    requires f.auditor == f0.auditor && f.authenticator == f0.authenticator
    ensures var (g, e) := BrowserStages(config, env, f); DecidedBy(config, env, f0, f, g, e)
  {
    var f3 := if NeedsClear(config) then f.(stages := f.stages + [ClearReports]) else f;
    var e3 := if NeedsClear(config) then ErrorOf(env.clearReports) else None;
    if NeedsClear(config) {
      DecidedOne(config, env, f0, f, f3, ClearReports, e3);
    } else {
      DecidedNothing(config, env, f0, f);
    }
    if e3.None? {
      var g := f3.(stages := f3.stages + [LaunchBrowser]);
      match env.browser
      case Failure(e) =>
        DecidedOne(config, env, f0, f3, g, LaunchBrowser, Some(e));
        DecidedThen(config, env, f0, f, f3, g, Some(e));
      case Success(session) =>
        var g1 := g.(queue := g.queue + [StopBrowser]);
        DecidedOne(config, env, f0, f3, g1, LaunchBrowser, None);
        UrlLoopDecided(config, env, session, f0, g1, UrlNames(config));
        var (h, e) := UrlLoop(config, env, session, g1, UrlNames(config));
        DecidedThen(config, env, f0, f3, g1, h, e);
        DecidedThen(config, env, f0, f, f3, h, e);
    }
  }

  lemma LaterStagesDecided(config: JsValue, env: Environment, f0: Fields, f: Fields)
    requires f.auditor == f0.auditor && f.authenticator == f0.authenticator
    ensures var (g, e) := LaterStages(config, env, f); DecidedBy(config, env, f0, f, g, e)
  {
    var (f2, e2) := StartStep(config, env, f);
    if NeedsStart(config) {
      DecidedOne(config, env, f0, f, f2, Start, e2);
    } else {
      DecidedNothing(config, env, f0, f);
    }
    if e2.None? {
      BrowserStagesDecided(config, env, f0, f2);
      var (g, e) := BrowserStages(config, env, f2);
      DecidedThen(config, env, f0, f, f2, g, e);
    }
  }

  lemma ValidStagesDecided(config: JsValue, env: Environment, f: Fields)
    ensures var (g, e) := ValidStages(config, env, f); DecidedBy(config, env, f, f, g, e)
  {
    var (f1, e1) := BuildStep(config, env, f);
    if NeedsBuild(config) {
      DecidedOne(config, env, f, f, f1, Build, e1);
    } else {
      DecidedNothing(config, env, f, f);
    }
    if e1.None? {
      LaterStagesDecided(config, env, f, f1);
      var (g, e) := LaterStages(config, env, f1);
      DecidedThen(config, env, f, f, f1, g, e);
    }
  }

  /** A validated configuration runs a prefix of the plan, all of it when no stage failed; an
      error comes from the last stage run; exactly the stages that succeeded queued their stop
      callbacks, in order; and the stages themselves log nothing and stop nothing. */
  lemma StagesFollowPlan(config: JsValue, env: Environment, f: Fields)
    requires ValidatePerformanceConfig(config).Pass?
    ensures var (g, e) := Stages(config, env, f);
      Ran(f, g, e, Plan(config)) && Decided(config, env, f, g.stages[|f.stages|..], e)
  {
    ValidStagesFollowPlan(config, env, f);
  }

  lemma PlanSplits(config: JsValue)
    ensures Plan(config) == (if NeedsBuild(config) then [Build] else [])
                            + ((if NeedsStart(config) then [Start] else []) + BrowserPlan(config))
  {
  }

  /** After validation the stages run a prefix of the plan, each stage but the failing one
      succeeded, and the error is the outcome of the last stage run. */
  lemma ValidStagesFollowPlan(config: JsValue, env: Environment, f: Fields)
    ensures var (g, e) := ValidStages(config, env, f);
      Ran(f, g, e, Plan(config)) && Decided(config, env, f, g.stages[|f.stages|..], e)
  {
    ValidStagesDecided(config, env, f);
    var p1 := if NeedsBuild(config) then [Build] else [];
    var rest := (if NeedsStart(config) then [Start] else []) + BrowserPlan(config);
    PlanSplits(config);
    BuildStepRan(config, env, f);
    var (f1, e1) := BuildStep(config, env, f);
    if e1.Some? {
      RanStopped(f, f1, e1, p1, rest);
    } else {
      LaterStagesFollowPlan(config, env, f1);
      var (g, e) := LaterStages(config, env, f1);
      RanThen(f, f1, g, e, p1, rest);
    }
  }

  /** Without a rejecting browser callback the teardown runs the whole queue and passes. */
  lemma {:induction false} TeardownRunsAll(queue: seq<StopCallback>, stopBrowser: Outcome<JsError>)
    requires stopBrowser.Pass? || StopBrowser !in queue
    ensures Teardown(queue, stopBrowser) == (queue, Pass)
  {
    if queue != [] {
      var prefix := queue[..|queue| - 1];
      assert queue == prefix + [queue[|queue| - 1]];
      TeardownRunsAll(prefix, stopBrowser);
    }
  }

  /** A rejecting browser callback ends the teardown right after its first occurrence. */
  lemma {:induction false} TeardownStopsAtBrowser(queue: seq<StopCallback>, stopBrowser: Outcome<JsError>)
    requires stopBrowser.Fail? && StopBrowser in queue
    ensures exists k :: 0 <= k < |queue| && queue[k] == StopBrowser && StopBrowser !in queue[..k]
              && Teardown(queue, stopBrowser) == (queue[..k + 1], stopBrowser)
  {
    var prefix := queue[..|queue| - 1];
    var last := queue[|queue| - 1];
    assert queue == prefix + [last];
    if StopBrowser in prefix {
      TeardownStopsAtBrowser(prefix, stopBrowser);
      var k :| 0 <= k < |prefix| && prefix[k] == StopBrowser && StopBrowser !in prefix[..k]
               && Teardown(prefix, stopBrowser) == (prefix[..k + 1], stopBrowser);
      assert queue[..k + 1] == prefix[..k + 1] && queue[..k] == prefix[..k];
    } else {
      TeardownRunsAll(prefix, stopBrowser);
      var k := |queue| - 1;
      assert queue[..k] == prefix && queue[..k + 1] == queue;
    }
  }

  /** The teardown runs every queued callback in order, unless the browser's rejects: then the
      callbacks after it are never run and its rejection is the outcome. */
  lemma TeardownRunsQueueInOrder(queue: seq<StopCallback>, stopBrowser: Outcome<JsError>)
    ensures var (calls, o) := Teardown(queue, stopBrowser);
      && (stopBrowser.Pass? || StopBrowser !in queue ==> calls == queue && o == Pass)
      && (stopBrowser.Fail? && StopBrowser in queue ==>
            exists k :: 0 <= k < |queue| && queue[k] == StopBrowser && StopBrowser !in queue[..k]
              && calls == queue[..k + 1] && o == stopBrowser)
  {
    if stopBrowser.Pass? || StopBrowser !in queue {
      TeardownRunsAll(queue, stopBrowser);
    } else {
      TeardownStopsAtBrowser(queue, stopBrowser);
    }
  }

  /** A configuration that fails validation runs no stage and queues nothing; its error is logged
      and the queue left from earlier runs is torn down. */
  lemma InvalidConfigRunsNothing(config: JsValue, env: Environment, f: Fields)
    requires ValidatePerformanceConfig(config).Fail?
    ensures var (o, g) := RunSpec(config, env, f);
      && g.stages == f.stages && g.queue == f.queue
      && g.errors == f.errors + [ValidatePerformanceConfig(config).error]
      && g.stopped == f.stopped + Teardown(f.queue, env.stopBrowser).0
  {
  }

  /** The stages never log and never stop a process: only `run`'s `catch` and `finally` do. */
  lemma StagesKeepErrors(config: JsValue, env: Environment, f: Fields)
    ensures Stages(config, env, f).0.errors == f.errors
    ensures Stages(config, env, f).0.stopped == f.stopped
  {
    if ValidatePerformanceConfig(config).Pass? {
      StagesFollowPlan(config, env, f);
    }
  }

  /** Logging the stages' error and tearing down afterwards, whatever the stages did. */
  lemma FinishSwallowsError(f1: Fields, e: Option<JsError>, stopBrowser: Outcome<JsError>)
    ensures var (o, g) := Finish(f1, e, stopBrowser);
      && (o.Fail? ==> o == stopBrowser && StopBrowser in g.queue)
      && (stopBrowser.Pass? ==> o.Pass? && g.stopped == f1.stopped + g.queue)
      && g.errors == f1.errors + (if e.Some? then [e.value] else [])
  {
    TeardownRunsQueueInOrder(f1.queue, stopBrowser);
  }

  /** Stage errors are swallowed: `run` fails only when a stop callback rejects, and at most one
      error is logged per run. */
  lemma RunSwallowsStageErrors(config: JsValue, env: Environment, f: Fields)
    ensures var (o, g) := RunSpec(config, env, f);
      && (o.Fail? ==> o == env.stopBrowser && StopBrowser in g.queue)
      && (env.stopBrowser.Pass? ==> o.Pass? && g.stopped == f.stopped + g.queue)
      && |f.errors| <= |g.errors| <= |f.errors| + 1
  {
    var (f1, e) := Stages(config, env, f);
    StagesKeepErrors(config, env, f);
    FinishSwallowsError(f1, e, env.stopBrowser);
  }

  // ---------------------------------------------------------------------------------------
  // The driver object.

  class SyntheticPerformance {
    const config: JsValue
    const env: Environment
    var auditor: Option<AuditorSetup>
    var authenticator: Option<AuthenticatorSetup>
    var stopProcessCallbackQueue: seq<StopCallback>
    /** The errors printed by `run`'s `catch`. */
    var loggedErrors: seq<JsError>
    /** The stop callbacks run so far, in order. */
    var stoppedCallbacks: seq<StopCallback>
    ghost var stages: seq<Stage>

    constructor(config: JsValue, env: Environment)
      ensures this.config == config && this.env == env
      ensures State() == Fields(None, None, [], [], [], [])
    {
      this.config := config;
      this.env := env;
      auditor := None;
      authenticator := None;
      stopProcessCallbackQueue := [];
      loggedErrors := [];
      stoppedCallbacks := [];
      stages := [];
    }

    ghost function State(): Fields
      reads this
    {
      Fields(auditor, authenticator, stopProcessCallbackQueue, loggedErrors, stoppedCallbacks, stages)
    }

    method BuildProject() returns (e: Option<JsError>)
      modifies this
      ensures (State(), e) == BuildStage(config, env, old(State()))
    {
      stages := stages + [Build];
      var _, o := RunBuilder(BuilderConfigOf(config), env.buildProcess);
      if o.Fail? {
        return Some(o.error);
      }
      stopProcessCallbackQueue := stopProcessCallbackQueue + [StopBuilder];
      e := None;
    }

    method StartProject() returns (e: Option<JsError>)
      modifies this
      ensures (State(), e) == StartStage(config, env, old(State()))
    {
      stages := stages + [Start];
      var _, o := RunStarter(StarterConfigOf(config), env.startProcess);
      if o.Fail? {
        return Some(o.error);
      }
      stopProcessCallbackQueue := stopProcessCallbackQueue + [StopStarter];
      e := None;
    }

    method AuthenticateProject(url: JsValue, urlName: string, session: BrowserSession) returns (e: Option<JsError>)
      modifies this
      ensures authenticator.Some?
      ensures authenticator == Some(old(authenticator).GetOr(
                AuthenticatorSetup(session.browserWebSocketUrl, Get(config, "authenticationScriptPath"))))
      ensures State() == old(State()).(authenticator := authenticator, stages := old(stages) + [Authenticate(urlName)])
      ensures e == ErrorOf(env.authenticate(authenticator.value, url))
    {
      stages := stages + [Authenticate(urlName)];
      if authenticator.None? {
        authenticator := Some(AuthenticatorSetup(session.browserWebSocketUrl, Get(config, "authenticationScriptPath")));
      }
      e := ErrorOf(env.authenticate(authenticator.value, url));
    }

    method AuditProject(url: JsValue, urlName: string, session: BrowserSession) returns (e: Option<JsError>)
      modifies this
      ensures auditor == Some(old(auditor).GetOr(AuditorSetup(session.browserPort, Get(config, "auditConfig"))))
      ensures State() == old(State()).(auditor := auditor,
                                         stages := old(stages) + [Audit(urlName, BudgetFor(Get(config, "budgets"), urlName))])
      ensures e == ErrorOf(env.audit(auditor.value, url, urlName, Get(config, "numberOfAuditRuns"),
                                     BudgetFor(Get(config, "budgets"), urlName)))
    {
      if auditor.None? {
        auditor := Some(AuditorSetup(session.browserPort, Get(config, "auditConfig")));
      }
      var budget := BudgetFor(Get(config, "budgets"), urlName);
      stages := stages + [Audit(urlName, budget)];
      e := ErrorOf(env.audit(auditor.value, url, urlName, Get(config, "numberOfAuditRuns"), budget));
    }

    method RunUrl(session: BrowserSession, urlName: string) returns (e: Option<JsError>)
      modifies this
      ensures (State(), e) == UrlStage(config, env, session, old(State()), urlName)
    {
      var url := Get(Get(config, "urls"), urlName);
      if NeedsAuthentication(config) {
        e := AuthenticateProject(url, urlName, session);
        if e.Some? {
          return;
        }
      }
      e := AuditProject(url, urlName, session);
    }

    method AuditUrls(session: BrowserSession) returns (e: Option<JsError>)
      modifies this
      ensures (State(), e) == UrlLoop(config, env, session, old(State()), UrlNames(config))
    {
      var names := UrlNames(config);
      var i := 0;
      e := None;
      while i < |names|
        invariant 0 <= i <= |names|
        invariant (State(), e) == UrlLoop(config, env, session, old(State()), names[..i])
        invariant e.None?
      {
        assert names[..i + 1][..i] == names[..i];
        e := RunUrl(session, names[i]);
        i := i + 1;
        if e.Some? {
          UrlLoopErrorSticks(session, old(State()), names, i);
          return;
        }
      }
      assert names[..i] == names;
    }

    /** Once a URL failed, the later ones are skipped. */
    lemma {:induction false} UrlLoopErrorSticks(session: BrowserSession, f: Fields, names: seq<string>, i: nat)
      requires i <= |names| && UrlLoop(config, env, session, f, names[..i]).1.Some?
      ensures UrlLoop(config, env, session, f, names) == UrlLoop(config, env, session, f, names[..i])
      decreases |names| - i
    {
      if i < |names| {
        assert names[..i + 1][..i] == names[..i];
        UrlLoopErrorSticks(session, f, names, i + 1);
      } else {
        assert names[..i] == names;
      }
    }

    method LaunchAndAudit() returns (e: Option<JsError>)
      modifies this
      ensures (State(), e) == BrowserStages(config, env, old(State()))
    {
      if NeedsClear(config) {
        stages := stages + [ClearReports];
        e := ErrorOf(env.clearReports);
        if e.Some? {
          return;
        }
      }
      stages := stages + [LaunchBrowser];
      if env.browser.Failure? {
        return Some(env.browser.error);
      }
      stopProcessCallbackQueue := stopProcessCallbackQueue + [StopBrowser];
      e := AuditUrls(env.browser.value);
    }

    /** The `try` block. */
    method RunStages() returns (e: Option<JsError>)
      modifies this
      ensures (State(), e) == Stages(config, env, old(State()))
    {
      var valid := ValidatePerformanceConfig(config);
      if valid.Fail? {
        return Some(valid.error);
      }
      e := None;
      if NeedsBuild(config) {
        e := BuildProject();
        if e.Some? {
          return;
        }
      }
      if NeedsStart(config) {
        e := StartProject();
        if e.Some? {
          return;
        }
      }
      e := LaunchAndAudit();
    }

    /** `stopRunningProcesses` */
    method StopRunningProcesses() returns (r: Outcome<JsError>)
      modifies this
      ensures State() == old(State()).(stopped := old(stoppedCallbacks) + Teardown(stopProcessCallbackQueue, env.stopBrowser).0)
      ensures r == Teardown(stopProcessCallbackQueue, env.stopBrowser).1
    {
      var queue := stopProcessCallbackQueue;
      ghost var calls: seq<StopCallback> := [];
      r := Pass;
      assert queue[..0] == [];
      for i := 0 to |queue|
        invariant Teardown(queue[..i], env.stopBrowser) == (calls, Pass)
        invariant State() == old(State()).(stopped := old(stoppedCallbacks) + calls)
      {
        assert queue[..i + 1][..i] == queue[..i];
        stoppedCallbacks := stoppedCallbacks + [queue[i]];
        calls := calls + [queue[i]];
        if queue[i] == StopBrowser && env.stopBrowser.Fail? {
          TeardownFailureSticks(queue, env.stopBrowser, i + 1);
          return env.stopBrowser;
        }
      }
      assert queue[..|queue|] == queue;
    }

    /** `run` */
    method Run() returns (r: Outcome<JsError>)
      modifies this
      ensures (r, State()) == RunSpec(config, env, old(State()))
    {
      var e := RunStages();
      if e.Some? {
        loggedErrors := loggedErrors + [e.value];
      }
      r := StopRunningProcesses();
    }
  }

  /** Once a callback rejected, the later ones are not run. */
  lemma {:induction false} TeardownFailureSticks(queue: seq<StopCallback>, stopBrowser: Outcome<JsError>, i: nat)
    requires i <= |queue| && Teardown(queue[..i], stopBrowser).1.Fail?
    ensures Teardown(queue, stopBrowser) == Teardown(queue[..i], stopBrowser)
    decreases |queue| - i
  {
    if i < |queue| {
      assert queue[..i + 1][..i] == queue[..i];
      TeardownFailureSticks(queue, stopBrowser, i + 1);
    } else {
      assert queue[..i] == queue;
    }
  }
}
