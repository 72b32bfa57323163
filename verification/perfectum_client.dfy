/**
 * The browser client's entry point, `PerfectumClient`. Its static fields are the fields of one
 * object here: `init` creates the logger and the `Performance` store and starts observing, once;
 * `startMeasure` and `stopMeasure` forward to the store only after a successful `init`.
 *
 * A flag that JavaScript leaves `undefined` is `false`. Whether the environment is supported is an
 * input, and so is the one browser call in `init` whose exception nothing else catches
 * (`window.addEventListener` in the monitoring service).
 */
module PerfectumClients {
  import opened Wrappers
  import opened JsValues
  import opened ClientPerformance

  /** What `init` finds in the browser. */
  datatype ClientEnvironment = ClientEnvironment(
    supported: bool,
    browser: Browser,
    monitoringFailure: Option<JsError>)

  /** The `logging` option: `config || {}` destructured, so a missing configuration, or one
      without the option, does not log. */
  function LoggingEnabled(config: JsValue): (r: bool)
    ensures !Truthy(config) ==> !r
    ensures config.Obj? ==> (r <==> Truthy(Lookup(config.props, "logging")))
  {
    Truthy(if Truthy(config) then Get(config, "logging") else Undefined)
  }

  class PerfectumClient {
    var isInitialized: bool
    var isSupportedEnvironment: bool
    /** Whether the current logger prints. */
    var logging: bool
    var performance: Performance?
    /** What the client's own logger printed. */
    var console: seq<string>

    /** The client is initialised only in a supported environment and with a store. */
    predicate Valid()
      reads this
    {
      isInitialized ==> isSupportedEnvironment && performance != null
    }

    constructor()
      ensures Valid()
      ensures !isInitialized && !isSupportedEnvironment && !logging && performance == null && console == []
    {
      isInitialized := false;
      isSupportedEnvironment := false;
      logging := false;
      performance := null;
      console := [];
    }

    /** `init`: a no-op once initialised or in an unsupported environment; otherwise a new store
        is created and initialised, and the client is initialised unless an exception escapes,
        which is logged. */
    method Init(config: JsValue, env: ClientEnvironment)
      requires Valid()
      modifies this
      ensures Valid()
      ensures old(isInitialized) || !env.supported ==>
                isInitialized == old(isInitialized) && isSupportedEnvironment == old(isSupportedEnvironment)
                && logging == old(logging) && performance == old(performance) && console == old(console)
      ensures !old(isInitialized) && env.supported ==>
                && isSupportedEnvironment
                && logging == LoggingEnabled(config)
                && performance != null && fresh(performance)
                && performance.logging == logging
                && performance.State() == InitSpec(InitialState, env.browser, logging)
                && (env.monitoringFailure.None? ==> isInitialized && console == old(console))
                && (env.monitoringFailure.Some? ==>
                      !isInitialized
                      && console == old(console) + ErrorLine(logging, "PerfectumClient:init", env.monitoringFailure.value))
    {
      if isInitialized {
        return;
      }
      if !env.supported {
        return;
      }
      isSupportedEnvironment := true;
      logging := LoggingEnabled(config);
      var store := new Performance(logging);
      performance := store;
      store.Init(env.browser);
      if env.monitoringFailure.Some? {
        console := console + ErrorLine(logging, "PerfectumClient:init", env.monitoringFailure.value);
        return;
      }
      isInitialized := true;
    }

    /** `startMeasure` */
    method StartMeasure(markName: string)
      requires Valid()
      modifies performance
      ensures isInitialized && isSupportedEnvironment ==>
                performance.State() == StartMeasureSpec(old(performance.State()), markName)
      ensures !isInitialized && performance != null ==> performance.State() == old(performance.State())
    {
      if isInitialized && isSupportedEnvironment {
        performance.StartPerformanceMeasure(markName);
      }
    }

    /** `stopMeasure`, with the entries `getEntriesByName` returns. */
    method StopMeasure(markName: string, entriesByName: seq<TimingEntry>)
      requires Valid()
      modifies performance
      ensures isInitialized && isSupportedEnvironment ==>
                performance.State() == StopMeasureSpec(old(performance.State()), markName, entriesByName)
      ensures !isInitialized && performance != null ==> performance.State() == old(performance.State())
    {
      if isInitialized && isSupportedEnvironment {
        performance.StopPerformanceMeasure(markName, entriesByName);
      }
    }
  }

  /** The client's own scenario in a supported environment: after `init`, three `startMeasure`
      calls and three `stopMeasure` calls mark the start and the end once each, measure once, and
      store the measured duration; a name inherited from `Object.prototype` is never measured. */
  method MeasureOnce(browser: Browser, name: string) returns (timeline: seq<UserTiming>, duration: Option<real>)
    ensures name !in InheritedNames ==>
              && timeline == [Mark(name + ":start"), Mark(name + ":end"), Measure(name, name + ":start", name + ":end")]
              && duration == Some(100.0)
    ensures name in InheritedNames ==> timeline == [] && duration == None
  {
    var client := new PerfectumClient();
    client.Init(Undefined, ClientEnvironment(true, browser, None));
    InitFromScratch(browser, false);
    if name !in InheritedNames {
      StartsThenStopsMeasureOnce(InitSpec(InitialState, browser, false), name);
    }
    var entries := [TimingEntry("measure", 100.0)];
    client.StartMeasure(name);
    client.StartMeasure(name);
    client.StartMeasure(name);
    client.StopMeasure(name, entries);
    client.StopMeasure(name, entries);
    client.StopMeasure(name, entries);
    timeline := client.performance.timeline;
    var store := client.performance.metrics.customMetrics.value;
    duration := if name in store then store[name] else None;
  }

  /** In an unsupported environment `init` leaves both flags unset, and the measures do nothing. */
  method UnsupportedEnvironment(config: JsValue, browser: Browser, name: string)
    returns (isInitialized: bool, isSupportedEnvironment: bool, hasStore: bool)
    ensures !isInitialized && !isSupportedEnvironment && !hasStore
  {
    var client := new PerfectumClient();
    client.Init(config, ClientEnvironment(false, browser, None));
    client.StartMeasure(name);
    client.StopMeasure(name, []);
    isInitialized, isSupportedEnvironment, hasStore := client.isInitialized, client.isSupportedEnvironment, client.performance != null;
  }
}
