/**
 * The auditor of the synthetic audit pipeline. For one URL it audits the mobile profile and
 * then the desktop profile; per profile it installs (or clears) the translated budget on the
 * shared per-device configuration, runs the audit engine the requested number of times in
 * sequence, picks the representative result and hands it to the reporter.
 */
module Auditors {
  import opened Wrappers
  import opened JsValues
  import opened LighthouseBudgets
  import opened AuditSelection
  import opened FileSystems
  import opened Reporters

  /** Runs per device when the caller gives no count. */
  const DefaultNumberOfAuditRuns: nat := 1

  datatype Throttling = Throttling(rttMs: int, throughputKbps: int, cpuSlowdownMultiplier: int)

  datatype LighthouseSettings = LighthouseSettings(
    maxWaitForFcp: int,
    maxWaitForLoad: int,
    emulatedFormFactor: DeviceType,
    throttling: Throttling,
    budgets: Option<seq<LighthouseBudget>>)

  /** The per-device engine settings, one record per device. */
  datatype AuditConfig = AuditConfig(mobile: LighthouseSettings, desktop: LighthouseSettings) {
    function For(d: DeviceType): LighthouseSettings {
      match d
      case Mobile => mobile
      case Desktop => desktop
    }

    function With(d: DeviceType, s: LighthouseSettings): (c: AuditConfig)
      ensures c.For(d) == s
      ensures forall other :: other != d ==> c.For(other) == For(other)
    {
      match d
      case Mobile => this.(mobile := s)
      case Desktop => this.(desktop := s)
    }
  }

  const MobileSettings := LighthouseSettings(15 * 1000, 35 * 1000, Mobile, Throttling(115, 40 * 1024, 1), None)
  const DesktopSettings := LighthouseSettings(15 * 1000, 35 * 1000, Desktop, Throttling(100, 75 * 1024, 1), None)
  const DefaultAuditConfig := AuditConfig(MobileSettings, DesktopSettings)

  /** Engine runs of `for (let run = 1; run <= n; run++)`: floor(n) for n >= 1, none for smaller
      values, NaN or -Infinity; a missing count means the default. */
  function RunCount(runs: Option<Number>): nat
    requires runs != Some(PosInfinity)
  {
    match runs
    case None => DefaultNumberOfAuditRuns
    case Some(Finite(x)) => if x >= 1.0 then x.Floor as nat else 0
    case Some(NegInfinity) => 0
    case Some(NaN) => 0
  }

  /** The settings of device d after the budget step: the translated budget as a one-element
      list when a budget is given (truthy), `null` otherwise; a translation error is thrown. */
  function InstallBudget(c: AuditConfig, d: DeviceType, budget: JsValue): Result<AuditConfig, JsError> {
    if Truthy(budget) then
      match Translate(budget, d, Current)
      case Failure(e) => Failure(e)
      case Success(lb) => Success(c.With(d, c.For(d).(budgets := Some([lb]))))
    else Success(c.With(d, c.For(d).(budgets := None)))
  }

  /** One call of the engine: the URL, the browser port and the device's settings. */
  datatype EngineCall = EngineCall(url: string, port: int, settings: LighthouseSettings)

  function Repeat(call: EngineCall, n: nat): (r: seq<EngineCall>)
    ensures |r| == n && forall i :: 0 <= i < n ==> r[i] == call
  {
    seq(n, _ => call)
  }

  /** Runs `count` engine calls numbered from `start`, stopping at the first failure: the
      collected results (or the error) and the number of calls made. */
  function Collect(answers: nat -> Result<JsValue, JsError>, start: nat, count: nat): (Result<seq<JsValue>, JsError>, nat) {
    if count == 0 then (Success([]), 0)
    else
      var (prior, made) := Collect(answers, start, count - 1);
      if prior.Failure? then (prior, made)
      else
        match answers(start + count - 1)
        case Failure(e) => (Failure(e), made + 1)
        case Success(x) => (Success(prior.value + [x]), made + 1)
  }

  /** When every call succeeds, the engine is called exactly `count` times and the results are
      its answers in run order; otherwise the calls stop right after the first failing one. */
  lemma {:induction false} CollectProperties(answers: nat -> Result<JsValue, JsError>, start: nat, count: nat)
    ensures var (r, made) := Collect(answers, start, count);
      && made <= count
      && (r.Success? <==> forall j :: start <= j < start + count ==> answers(j).Success?)
      && (r.Success? ==>
            made == count && |r.value| == count && forall i :: 0 <= i < count ==> r.value[i] == answers(start + i).value)
      && (r.Failure? ==>
            made >= 1 && answers(start + made - 1) == Failure(r.error)
            && forall j :: start <= j < start + made - 1 ==> answers(j).Success?)
  {
    if count > 0 {
      CollectProperties(answers, start, count - 1);
      var (prior, made) := Collect(answers, start, count - 1);
      if prior.Success? {
        match answers(start + count - 1)
        case Failure(e) =>
        case Success(x) =>
          var rs := prior.value + [x];
          assert forall i :: 0 <= i < count - 1 ==> rs[i] == prior.value[i];
      }
    }
  }

  /** Once a call has failed, asking for more runs changes nothing. */
  lemma {:induction false} CollectFailureSticks(answers: nat -> Result<JsValue, JsError>, start: nat, i: nat, count: nat)
    requires i <= count && Collect(answers, start, i).0.Failure?
    ensures Collect(answers, start, count) == Collect(answers, start, i)
    decreases count - i
  {
    if i < count {
      CollectFailureSticks(answers, start, i, count - 1);
    }
  }

  /** When every call succeeds, a representative exists exactly when some answer has a valid
      score, and it is one of those answers. */
  lemma MedianOfAnswers(answers: nat -> Result<JsValue, JsError>, start: nat, count: nat)
    requires forall j :: start <= j < start + count ==> answers(j).Success?
    ensures Collect(answers, start, count).0.Success?
    ensures var m := MedianAuditResult(Collect(answers, start, count).0.value);
      && (m.None? <==> forall j :: start <= j < start + count ==> !IsValidResult(answers(j).value))
      && (m.Some? ==>
            exists j :: start <= j < start + count && answers(j).value == m.value && IsValidResult(m.value))
  {
    CollectProperties(answers, start, count);
    var results := Collect(answers, start, count).0.value;
    MedianNoneIff(results);
    if MedianAuditResult(results).Some? {
      MedianIsValidMember(results);
      var k :| 0 <= k < count && results[k] == MedianAuditResult(results).value;
      assert answers(start + k).value == results[k];
    } else {
      forall j | start <= j < start + count
        ensures !IsValidResult(answers(j).value)
      {
        assert results[j - start] == answers(j).value;
        assert results[j - start] in results;
      }
    }
  }

  const AuditFailedHeading := "Running performance audit failed\n\n"

  function AuditError(e: JsError): JsError {
    Error(AuditFailedHeading + ErrorString(e))
  }

  /** What the auditor can change: the shared settings, the engine's call log and the files. */
  datatype AuditWorld = AuditWorld(config: AuditConfig, calls: seq<EngineCall>, tree: Tree)

  /** The audit engine (`lighthouse`), an oracle: the i-th call overall gets `answers(i)`. */
  class AuditEngine {
    const answers: nat -> Result<JsValue, JsError>
    var calls: seq<EngineCall>

    constructor(answers: nat -> Result<JsValue, JsError>)
      ensures this.answers == answers && calls == []
    {
      this.answers := answers;
      calls := [];
    }

    method Run(url: string, port: int, settings: LighthouseSettings) returns (r: Result<JsValue, JsError>)
      modifies this
      ensures calls == old(calls) + [EngineCall(url, port, settings)]
      ensures r == answers(|old(calls)|)
    {
      r := answers(|calls|);
      calls := calls + [EngineCall(url, port, settings)];
    }
  }

  class Auditor {
    var auditConfig: AuditConfig
    const browserPort: int
    const engine: AuditEngine
    const reporter: Reporter

    /** The default settings, deep-merged with the given ones when those are truthy. */
    constructor(reporter: Reporter, engine: AuditEngine, browserPort: int, initialAuditConfig: JsValue,
                deepmerge: (AuditConfig, JsValue) -> AuditConfig)
      ensures auditConfig == if Truthy(initialAuditConfig) then deepmerge(DefaultAuditConfig, initialAuditConfig)
                             else DefaultAuditConfig
      ensures this.reporter == reporter && this.engine == engine && this.browserPort == browserPort
    {
      auditConfig := if Truthy(initialAuditConfig) then deepmerge(DefaultAuditConfig, initialAuditConfig)
                     else DefaultAuditConfig;
      this.reporter := reporter;
      this.engine := engine;
      this.browserPort := browserPort;
    }

    function World(): AuditWorld
      reads this, engine, reporter.fs
    {
      AuditWorld(auditConfig, engine.calls, reporter.fs.tree)
    }

    /** `runPerformanceAudit` for one device, from world w: the budget step, then the runs. */
    function AuditDevice(w: AuditWorld, url: string, urlName: string, d: DeviceType, runs: Option<Number>,
                         budget: JsValue, now: nat): (Outcome<JsError>, AuditWorld)
      requires runs != Some(PosInfinity)
    {
      match InstallBudget(w.config, d, budget)
      case Failure(e) => (Fail(e), w)
      case Success(c) => AuditRuns(w.(config := c), url, urlName, d, RunCount(runs), now)
    }

    /** The runs of one device with the settings already in w: `count` engine calls, then the
        report of the representative result, if there is one. */
    function AuditRuns(w: AuditWorld, url: string, urlName: string, d: DeviceType, count: nat, now: nat)
      : (Outcome<JsError>, AuditWorld)
    {
      var (res, made) := Collect(engine.answers, |w.calls|, count);
      var w1 := w.(calls := w.calls + Repeat(EngineCall(url, browserPort, w.config.For(d)), made));
      match res
      case Failure(e) => (Fail(e), w1)
      case Success(results) =>
        match MedianAuditResult(results)
        case None => (Pass, w1)
        case Some(m) =>
          var (o, t) := reporter.SavedReport(w.tree, m, urlName, d, now);
          (if o.Fail? then Fail(ReportError(d, o.error)) else Pass, w1.(tree := t))
    }

    /** `run`: mobile, then desktop if mobile succeeded; an error from either is wrapped. */
    function AuditBoth(w: AuditWorld, url: string, urlName: string, runs: Option<Number>, budget: JsValue,
                       nowMobile: nat, nowDesktop: nat): (Outcome<JsError>, AuditWorld)
      requires runs != Some(PosInfinity)
    {
      var (o1, w1) := AuditDevice(w, url, urlName, Mobile, runs, budget, nowMobile);
      if o1.Fail? then (Fail(AuditError(o1.error)), w1)
      else
        var (o2, w2) := AuditDevice(w1, url, urlName, Desktop, runs, budget, nowDesktop);
        (if o2.Fail? then Fail(AuditError(o2.error)) else Pass, w2)
    }

    /** The budget step: a truthy budget that cannot be translated stops the audit before any
        change; otherwise only the device's `budgets` setting changes, to the translated budget
        for a truthy budget and to `null` otherwise, and the other device is left alone. */
    lemma AuditDeviceBudget(w: AuditWorld, url: string, urlName: string, d: DeviceType, runs: Option<Number>,
                            budget: JsValue, now: nat)
      requires runs != Some(PosInfinity)
      ensures var (o, w2) := AuditDevice(w, url, urlName, d, runs, budget, now);
        && (Truthy(budget) && Translate(budget, d, Current).Failure? ==>
              o == Fail(Translate(budget, d, Current).error) && w2 == w)
        && (!(Truthy(budget) && Translate(budget, d, Current).Failure?) ==>
              && w2.config.For(d).budgets == (if Truthy(budget) then Some([Translate(budget, d, Current).value]) else None)
              && w2.config.For(d) == w.config.For(d).(budgets := w2.config.For(d).budgets)
              && (forall other :: other != d ==> w2.config.For(other) == w.config.For(other))
              && (o, w2) == AuditRuns(w.(config := w2.config), url, urlName, d, RunCount(runs), now))
    {
      match InstallBudget(w.config, d, budget)
      case Failure(e) =>
        assert AuditDevice(w, url, urlName, d, runs, budget, now) == (Fail(e), w);
      case Success(c) =>
        AuditRunsCalls(w.(config := c), url, urlName, d, RunCount(runs), now);
    }

    /** The runs: the engine log only grows, by at most `count` calls, each with the URL, the
        browser port and the device's settings. With every call succeeding there are exactly
        `count` of them; otherwise the last call made is the first that failed, its error is the
        outcome and no report is written. The settings are not changed. */
    lemma AuditRunsCalls(w: AuditWorld, url: string, urlName: string, d: DeviceType, count: nat, now: nat)
      ensures var (o, w2) := AuditRuns(w, url, urlName, d, count, now);
        var start := |w.calls|;
        && w2.config == w.config
        && start <= |w2.calls| <= start + count && w2.calls[..start] == w.calls
        && (forall i :: start <= i < |w2.calls| ==> w2.calls[i] == EngineCall(url, browserPort, w.config.For(d)))
        && ((forall j :: start <= j < start + count ==> engine.answers(j).Success?) ==> |w2.calls| == start + count)
        && (!(forall j :: start <= j < start + count ==> engine.answers(j).Success?) ==>
              && start < |w2.calls|
              && engine.answers(|w2.calls| - 1).Failure?
              && (forall j :: start <= j < |w2.calls| - 1 ==> engine.answers(j).Success?)
              && o == Fail(engine.answers(|w2.calls| - 1).error)
              && w2.tree == w.tree)
    {
      var start := |w.calls|;
      CollectProperties(engine.answers, start, count);
      var (res, made) := Collect(engine.answers, start, count);
      var calls := w.calls + Repeat(EngineCall(url, browserPort, w.config.For(d)), made);
      assert calls[..start] == w.calls;
    }

    /** With every run succeeding and no valid answer, nothing is written and the runs pass. */
    lemma AuditRunsNoReport(w: AuditWorld, url: string, urlName: string, d: DeviceType, count: nat, now: nat)
      requires forall j :: |w.calls| <= j < |w.calls| + count ==> engine.answers(j).Success?
      requires forall j :: |w.calls| <= j < |w.calls| + count ==> !IsValidResult(engine.answers(j).value)
      ensures var (o, w2) := AuditRuns(w, url, urlName, d, count, now); o == Pass && w2.tree == w.tree
    {
      var start := |w.calls|;
      MedianOfAnswers(engine.answers, start, count);
      CollectProperties(engine.answers, start, count);
      var results := Collect(engine.answers, start, count).0.value;
      assert Collect(engine.answers, start, count) == (Success(results), count);
      assert MedianAuditResult(results).None?;
    }

    /** With every run succeeding and some valid answer, the report of one valid answer is saved. */
    lemma AuditRunsSavesReport(w: AuditWorld, url: string, urlName: string, d: DeviceType, count: nat, now: nat)
      requires forall j :: |w.calls| <= j < |w.calls| + count ==> engine.answers(j).Success?
      requires exists j :: |w.calls| <= j < |w.calls| + count && IsValidResult(engine.answers(j).value)
      ensures var (o, w2) := AuditRuns(w, url, urlName, d, count, now);
        exists j :: |w.calls| <= j < |w.calls| + count && IsValidResult(engine.answers(j).value)
          && var (saved, t) := reporter.SavedReport(w.tree, engine.answers(j).value, urlName, d, now);
          && w2.tree == t
          && o == (if saved.Fail? then Fail(ReportError(d, saved.error)) else Pass)
    {
      var start := |w.calls|;
      MedianOfAnswers(engine.answers, start, count);
      CollectProperties(engine.answers, start, count);
      var results := Collect(engine.answers, start, count).0.value;
      assert Collect(engine.answers, start, count) == (Success(results), count);
      var m := MedianAuditResult(results).value;
      var j :| start <= j < start + count && engine.answers(j).value == m && IsValidResult(m);
    }

    /** The report: with every run succeeding, a report is saved exactly when some answer has a
        valid performance score, and it is the report of one such answer; a failed save is
        reported with the device in the message. Without a valid answer nothing is written. */
    lemma AuditRunsReport(w: AuditWorld, url: string, urlName: string, d: DeviceType, count: nat, now: nat)
      requires forall j :: |w.calls| <= j < |w.calls| + count ==> engine.answers(j).Success?
      ensures var (o, w2) := AuditRuns(w, url, urlName, d, count, now);
        var start := |w.calls|;
        && ((forall j :: start <= j < start + count ==> !IsValidResult(engine.answers(j).value)) ==>
              o == Pass && w2.tree == w.tree)
        && ((exists j :: start <= j < start + count && IsValidResult(engine.answers(j).value)) ==>
              exists j :: start <= j < start + count && IsValidResult(engine.answers(j).value)
                && var (saved, t) := reporter.SavedReport(w.tree, engine.answers(j).value, urlName, d, now);
                && w2.tree == t
                && o == (if saved.Fail? then Fail(ReportError(d, saved.error)) else Pass))
    {
      if exists j :: |w.calls| <= j < |w.calls| + count && IsValidResult(engine.answers(j).value) {
        AuditRunsSavesReport(w, url, urlName, d, count, now);
      } else {
        AuditRunsNoReport(w, url, urlName, d, count, now);
      }
    }

    /** `run` passes exactly when mobile passes and then desktop passes; a failure carries the
        device error under the auditor's heading. */
    lemma AuditBothOutcome(w: AuditWorld, url: string, urlName: string, runs: Option<Number>, budget: JsValue,
                           nowMobile: nat, nowDesktop: nat)
      requires runs != Some(PosInfinity)
      ensures var o := AuditBoth(w, url, urlName, runs, budget, nowMobile, nowDesktop).0;
        var (o1, w1) := AuditDevice(w, url, urlName, Mobile, runs, budget, nowMobile);
        && (o.Pass? <==> o1.Pass? && AuditDevice(w1, url, urlName, Desktop, runs, budget, nowDesktop).0.Pass?)
        && (o.Fail? ==>
              o.error.name == "Error"
              && o.error.message[..|AuditFailedHeading|] == AuditFailedHeading)
    {
      var (o1, w1) := AuditDevice(w, url, urlName, Mobile, runs, budget, nowMobile);
      var o2 := AuditDevice(w1, url, urlName, Desktop, runs, budget, nowDesktop).0;
      var e := if o1.Fail? then o1.error else if o2.Fail? then o2.error else Error("");
      var heading := AuditFailedHeading;
      assert (heading + ErrorString(e))[..|heading|] == heading;
    }

    /** Desktop is audited only after mobile passed: after a mobile failure the desktop
        settings are untouched and every engine call made used the mobile settings. */
    lemma AuditBothStopsAfterMobileFailure(w: AuditWorld, url: string, urlName: string, runs: Option<Number>,
                                           budget: JsValue, nowMobile: nat, nowDesktop: nat)
      requires runs != Some(PosInfinity)
      requires AuditDevice(w, url, urlName, Mobile, runs, budget, nowMobile).0.Fail?
      ensures var w2 := AuditBoth(w, url, urlName, runs, budget, nowMobile, nowDesktop).1;
        && w2.config.For(Desktop) == w.config.For(Desktop)
        && |w.calls| <= |w2.calls| && w2.calls[..|w.calls|] == w.calls
        && forall i :: |w.calls| <= i < |w2.calls| ==> w2.calls[i].settings == w2.config.For(Mobile)
    {
      AuditDeviceBudget(w, url, urlName, Mobile, runs, budget, nowMobile);
      match InstallBudget(w.config, Mobile, budget)
      case Failure(_) =>
      case Success(c) =>
        AuditRunsCalls(w.(config := c), url, urlName, Mobile, RunCount(runs), nowMobile);
    }

    /** The `for` loop over runs: `count` sequential engine calls with the same settings. */
    method RunAudits(url: string, settings: LighthouseSettings, count: nat) returns (r: Result<seq<JsValue>, JsError>)
      modifies engine
      ensures var (res, made) := Collect(engine.answers, |old(engine.calls)|, count);
        r == res && engine.calls == old(engine.calls) + Repeat(EngineCall(url, browserPort, settings), made)
    {
      var results: seq<JsValue> := [];
      ghost var calls0 := engine.calls;
      for i := 0 to count
        invariant Collect(engine.answers, |calls0|, i) == (Success(results), i)
        invariant engine.calls == calls0 + Repeat(EngineCall(url, browserPort, settings), i)
      {
        var res := engine.Run(url, browserPort, settings);
        if res.Failure? {
          assert Collect(engine.answers, |calls0|, i + 1) == (Failure(res.error), i + 1);
          assert engine.calls == calls0 + Repeat(EngineCall(url, browserPort, settings), i + 1);
          CollectFailureSticks(engine.answers, |calls0|, i + 1, count);
          return Failure(res.error);
        }
        results := results + [res.value];
      }
      r := Success(results);
    }

    method RunPerformanceAudit(url: string, urlName: string, d: DeviceType, runs: Option<Number>, budget: JsValue, now: nat)
      returns (r: Outcome<JsError>)
      requires runs != Some(PosInfinity)
      modifies this, engine, reporter.fs
      ensures (r, World()) == AuditDevice(old(World()), url, urlName, d, runs, budget, now)
    {
      if Truthy(budget) {
        var lb := CreateLighthouseBudget(budget, d, Current);
        if lb.Failure? {
          return Fail(lb.error);
        }
        auditConfig := auditConfig.With(d, auditConfig.For(d).(budgets := Some([lb.value])));
      } else {
        auditConfig := auditConfig.With(d, auditConfig.For(d).(budgets := None));
      }
      assert InstallBudget(old(auditConfig), d, budget) == Success(auditConfig);
      r := RunDeviceAudits(url, urlName, d, RunCount(runs), now);
    }

    /** The runs, the choice of the representative result and its report. */
    method RunDeviceAudits(url: string, urlName: string, d: DeviceType, count: nat, now: nat) returns (r: Outcome<JsError>)
      modifies engine, reporter.fs
      ensures (r, World()) == AuditRuns(old(World()), url, urlName, d, count, now)
    {
      var results := RunAudits(url, auditConfig.For(d), count);
      if results.Failure? {
        return Fail(results.error);
      }
      var median := MedianAuditResult(results.value);
      if median.Some? {
        r := reporter.CreateReport(median.value, urlName, d, now);
      } else {
        r := Pass;
      }
    }

    method Run(url: string, urlName: string, runs: Option<Number>, budget: JsValue, nowMobile: nat, nowDesktop: nat)
      returns (r: Outcome<JsError>)
      requires runs != Some(PosInfinity)
      modifies this, engine, reporter.fs
      ensures (r, World()) == AuditBoth(old(World()), url, urlName, runs, budget, nowMobile, nowDesktop)
    {
      r := RunPerformanceAudit(url, urlName, Mobile, runs, budget, nowMobile);
      if r.Pass? {
        r := RunPerformanceAudit(url, urlName, Desktop, runs, budget, nowDesktop);
      }
      if r.Fail? {
        r := Fail(AuditError(r.error));
      }
    }
  }
}
