/**
 * The browser client's metric store, `Performance`: every metric starts as `null`; `init`
 * records the device type and network information and starts one observer per observed entry
 * type; the observers' callbacks update the store in place; `startPerformanceMeasure` and
 * `stopPerformanceMeasure` time a named span with `performance.mark` and `measure`.
 *
 * The browser is an input: its user agent, its network connection, its supported entry types,
 * whether constructing an observer throws, the entries each callback receives and the entries
 * `getEntriesByName` returns. Calls to `mark` and `measure` are recorded in `timeline`.
 * Timings are reals.
 */
module ClientPerformance {
  import opened Wrappers
  import opened JsValues

  datatype DeviceType = Mobile | Desktop

  datatype LongTasks = LongTasks(totalLongTasks: int, firstLongTaskDuration: real, firstLongTaskStartTime: real)

  datatype FirstInputDelay = FirstInputDelay(eventName: string, startTime: real, duration: real)

  datatype NavigationTimings = NavigationTimings(
    domainLookupTime: real, serverResponseTime: real, serverConnectionTime: real, downloadDocumentTime: real)

  datatype NetworkInformation = NetworkInformation(
    roundTripTime: real, downlinkBandwidth: real, effectiveConnectionType: string)

  /** The store: `None` is `null`. In the custom metrics, a name absent from the map is
      `undefined`, a name mapped to `None` is a measure started and not yet stopped. */
  datatype MetricsStore = MetricsStore(
    longTasks: Option<LongTasks>,
    firstPaint: Option<real>,
    customMetrics: Option<map<string, Option<real>>>,
    firstInputDelay: Option<FirstInputDelay>,
    navigationTimings: Option<NavigationTimings>,
    deviceInformation: Option<DeviceType>,
    networkInformation: Option<NetworkInformation>,
    firstContentfulPaint: Option<real>,
    cumulativeLayoutShift: Option<real>,
    largestContentfulPaint: Option<real>)

  const EmptyMetrics := MetricsStore(None, None, None, None, None, None, None, None, None, None)

  /** The observers the store can start. */
  datatype Observer =
    | NavigationObserver
    | FirstPaintObserver
    | FirstContentfulPaintObserver
    | FirstInputDelayObserver
    | LargestContentfulPaintObserver
    | LayoutShiftObserver
    | LongTasksObserver
    | ElementTimingObserver

  /** A call made to `performance.mark` or `performance.measure`. */
  datatype UserTiming = Mark(markName: string) | Measure(measureName: string, startMark: string, endMark: string)

  /** Entries as the observers receive them. */
  datatype NamedEntry = NamedEntry(name: string, startTime: real)
  datatype NavigationEntry = NavigationEntry(
    startTime: real, connectEnd: real, responseEnd: real, requestStart: real, connectStart: real,
    responseStart: real, domainLookupEnd: real, domainLookupStart: real)
  datatype FirstInputEntry = FirstInputEntry(name: string, startTime: real, processingStart: real)
  datatype LayoutShiftEntry = LayoutShiftEntry(value: real, hadRecentInput: bool)
  datatype LongTaskEntry = LongTaskEntry(startTime: real, duration: real)
  datatype ElementEntry = ElementEntry(identifier: string, startTime: real)
  /** An entry `getEntriesByName` returns. */
  datatype TimingEntry = TimingEntry(entryType: string, duration: real)

  /** What `init` reads from the browser. */
  datatype Browser = Browser(
    userAgent: string,
    connection: Option<NetworkInformation>,
    supportedEntryTypes: Option<seq<string>>,
    observerFailure: Option<JsError>)

  /** The whole state of a `Performance` object. */
  datatype PerformanceState = PerformanceState(
    metrics: MetricsStore,
    forDisconnect: seq<Observer>,
    connected: set<Observer>,
    console: seq<string>,
    timeline: seq<UserTiming>)

  const InitialState := PerformanceState(EmptyMetrics, [], {}, [], [])

  // ---------------------------------------------------------------------------------------
  // Device type and observed entry types.

  predicate MobiAt(userAgent: string, i: nat) {
    i + 4 <= |userAgent| && userAgent[i..i + 4] == "Mobi"
  }

  function MobiFrom(userAgent: string, i: nat): (r: bool)
    ensures r <==> exists j :: i <= j && MobiAt(userAgent, j)
    decreases |userAgent| - i
  {
    if i + 4 > |userAgent| then false
    else MobiAt(userAgent, i) || MobiFrom(userAgent, i + 1)
  }

  /** `isMobileDevice`: the user agent contains `Mobi`, case-sensitively. */
  function IsMobileDevice(userAgent: string): (r: bool)
    ensures r <==> exists j :: MobiAt(userAgent, j)
  {
    MobiFrom(userAgent, 0)
  }

  lemma MobileExamples()
    ensures IsMobileDevice("Mozilla/5.0 (iPhone) Mobile/15E148")
    ensures !IsMobileDevice("mobi")
  {
    assert MobiAt("Mozilla/5.0 (iPhone) Mobile/15E148", 21);
    assert !MobiAt("mobi", 0) by {
      assert "mobi"[0] != "Mobi"[0];
    }
  }

  const DefaultObservedEntryTypes: seq<string> :=
    ["paint", "element", "longtask", "navigation", "first-input", "layout-shift", "largest-contentful-paint"]

  /** `a` is `b` with some elements left out. */
  predicate IsSubsequence(a: seq<string>, b: seq<string>)
    decreases |b|
  {
    if b == [] then a == []
    else (a != [] && a[0] == b[0] && IsSubsequence(a[1..], b[1..])) || IsSubsequence(a, b[1..])
  }

  /** `xs.filter(x => keep.indexOf(x) !== -1)` */
  function Filter(xs: seq<string>, keep: seq<string>): (r: seq<string>)
    ensures forall x :: x in r <==> x in xs && x in keep
    ensures IsSubsequence(r, xs)
  {
    if xs == [] then []
    else
      var rest := Filter(xs[1..], keep);
      assert forall x :: x in xs <==> x == xs[0] || x in xs[1..];
      if xs[0] in keep then
        assert ([xs[0]] + rest)[1..] == rest;
        [xs[0]] + rest
      else rest
  }

  /** `observedEntryTypes`: the defaults the browser supports, in default order, when the browser
      lists any supported type; otherwise all the defaults. */
  function ObservedEntryTypes(supported: Option<seq<string>>): (r: seq<string>)
    ensures IsSubsequence(r, DefaultObservedEntryTypes)
    ensures supported.None? || supported.value == [] ==> r == DefaultObservedEntryTypes
    ensures supported.Some? && supported.value != [] ==>
              forall t :: t in r <==> t in DefaultObservedEntryTypes && t in supported.value
  {
    if supported.Some? && |supported.value| > 0 then Filter(DefaultObservedEntryTypes, supported.value)
    else
      SubsequenceReflexive(DefaultObservedEntryTypes);
      DefaultObservedEntryTypes
  }

  lemma {:induction false} SubsequenceReflexive(a: seq<string>)
    ensures IsSubsequence(a, a)
    decreases |a|
  {
    if a != [] {
      SubsequenceReflexive(a[1..]);
    }
  }

  // ---------------------------------------------------------------------------------------
  // `init`

  /** What `printError` writes: only when logging is on. */
  function ErrorLine(logging: bool, methodName: string, e: JsError): seq<string> {
    if logging then [methodName + " failed, because " + e.message] else []
  }

  /** Constructing and starting one observer, tracked for the disconnect on first input or not;
      a failing constructor is logged and nothing is started. */
  function StartObserver(s: PerformanceState, o: Observer, initializer: string, tracked: bool, logging: bool,
                         failure: Option<JsError>): PerformanceState
  {
    match failure
    case Some(e) => s.(console := s.console + ErrorLine(logging, "Performance:" + initializer, e))
    case None => s.(connected := s.connected + {o}, forDisconnect := s.forDisconnect + (if tracked then [o] else []))
  }

  /** One branch of the `switch` in `initPerformanceObservers`. The long-task, layout-shift and
      element-timing stores are created before the observer, so they exist even when it fails. */
  function ObserveEntryType(s: PerformanceState, entryType: string, logging: bool, failure: Option<JsError>): PerformanceState {
    var m := s.metrics;
    if entryType == "paint" then
      StartObserver(StartObserver(s, FirstPaintObserver, "initFirstPaintObserver", false, logging, failure),
                    FirstContentfulPaintObserver, "initFirstContentfulPaintObserver", false, logging, failure)
    else if entryType == "element" then
      StartObserver(s.(metrics := m.(customMetrics := Some(m.customMetrics.GetOr(map[])))),
                    ElementTimingObserver, "initElementTimingObserver", true, logging, failure)
    else if entryType == "longtask" then
      StartObserver(s.(metrics := m.(longTasks := Some(m.longTasks.GetOr(LongTasks(0, 0.0, 0.0))))),
                    LongTasksObserver, "initLongTasksObserver", true, logging, failure)
    else if entryType == "layout-shift" then
      StartObserver(s.(metrics := m.(cumulativeLayoutShift := Some(m.cumulativeLayoutShift.GetOr(0.0)))),
                    LayoutShiftObserver, "initLayoutShiftObserver", true, logging, failure)
    else if entryType == "first-input" then
      StartObserver(s, FirstInputDelayObserver, "initFirstInputDelayObserver", false, logging, failure)
    else if entryType == "navigation" then
      StartObserver(s, NavigationObserver, "initNavigationTimingsObserver", false, logging, failure)
    else if entryType == "largest-contentful-paint" then
      StartObserver(s, LargestContentfulPaintObserver, "initLargestContentfulPaintObserver", true, logging, failure)
    else s
  }

  /** The `forEach` of `initPerformanceObservers`. */
  function ObserveEntryTypes(s: PerformanceState, types: seq<string>, logging: bool, failure: Option<JsError>): PerformanceState {
    if types == [] then s
    else ObserveEntryType(ObserveEntryTypes(s, types[..|types| - 1], logging, failure), types[|types| - 1], logging, failure)
  }

  /** The observers an entry type starts. */
  function ObserversFor(entryType: string): set<Observer> {
    if entryType == "paint" then {FirstPaintObserver, FirstContentfulPaintObserver}
    else if entryType == "element" then {ElementTimingObserver}
    else if entryType == "longtask" then {LongTasksObserver}
    else if entryType == "layout-shift" then {LayoutShiftObserver}
    else if entryType == "first-input" then {FirstInputDelayObserver}
    else if entryType == "navigation" then {NavigationObserver}
    else if entryType == "largest-contentful-paint" then {LargestContentfulPaintObserver}
    else {}
  }

  /** The observers the first input disconnects besides its own. */
  predicate Tracked(o: Observer) {
    o.LargestContentfulPaintObserver? || o.LayoutShiftObserver? || o.LongTasksObserver? || o.ElementTimingObserver?
  }

  /** The stores an entry type creates before its observer, when they are still `null`. */
  function StoresFor(m: MetricsStore, entryType: string): MetricsStore {
    if entryType == "element" then m.(customMetrics := Some(m.customMetrics.GetOr(map[])))
    else if entryType == "longtask" then m.(longTasks := Some(m.longTasks.GetOr(LongTasks(0, 0.0, 0.0))))
    else if entryType == "layout-shift" then m.(cumulativeLayoutShift := Some(m.cumulativeLayoutShift.GetOr(0.0)))
    else m
  }

  /** The observers the entry types start, when constructing them does not throw. */
  function ObserversOf(types: seq<string>): set<Observer> {
    if types == [] then {} else ObserversOf(types[..|types| - 1]) + ObserversFor(types[|types| - 1])
  }

  lemma {:induction false} ObserversOfMembers(types: seq<string>, o: Observer)
    ensures o in ObserversOf(types) <==> exists t :: t in types && o in ObserversFor(t)
  {
    if types != [] {
      var prefix := types[..|types| - 1];
      ObserversOfMembers(prefix, o);
      assert forall t :: t in types <==> t in prefix || t == types[|types| - 1];
    }
  }

  /** The observer an entry type queues for the disconnect on first input. */
  function Queued(entryType: string, failure: Option<JsError>): (r: seq<Observer>)
    ensures forall o :: o in r ==> Tracked(o)
  {
    if failure.Some? then []
    else if entryType == "element" then [ElementTimingObserver]
    else if entryType == "longtask" then [LongTasksObserver]
    else if entryType == "layout-shift" then [LayoutShiftObserver]
    else if entryType == "largest-contentful-paint" then [LargestContentfulPaintObserver]
    else []
  }

  lemma StartObserverEffect(s: PerformanceState, o: Observer, initializer: string, tracked: bool, logging: bool,
                            failure: Option<JsError>)
    ensures var t := StartObserver(s, o, initializer, tracked, logging, failure);
      && t.timeline == s.timeline && t.metrics == s.metrics
      && t.connected == (if failure.None? then s.connected + {o} else s.connected)
      && t.forDisconnect == s.forDisconnect + (if failure.None? && tracked then [o] else [])
  {
  }

  /** One entry type: the timeline is untouched, the type's store is created, its observers are
      connected unless construction throws, and only its tracked observer is queued. */
  lemma ObserveEntryTypeEffect(s: PerformanceState, entryType: string, logging: bool, failure: Option<JsError>)
    ensures var t := ObserveEntryType(s, entryType, logging, failure);
      && t.timeline == s.timeline
      && t.metrics == StoresFor(s.metrics, entryType)
      && t.connected == (if failure.None? then s.connected + ObserversFor(entryType) else s.connected)
      && t.forDisconnect == s.forDisconnect + Queued(entryType, failure)
  {
    var m := s.metrics;
    if entryType == "paint" {
      StartObserverEffect(s, FirstPaintObserver, "initFirstPaintObserver", false, logging, failure);
      StartObserverEffect(StartObserver(s, FirstPaintObserver, "initFirstPaintObserver", false, logging, failure),
                          FirstContentfulPaintObserver, "initFirstContentfulPaintObserver", false, logging, failure);
      assert s.forDisconnect + [] == s.forDisconnect;
    } else if entryType == "element" {
      StartObserverEffect(s.(metrics := StoresFor(m, entryType)), ElementTimingObserver, "initElementTimingObserver", true,
                          logging, failure);
    } else if entryType == "longtask" {
      StartObserverEffect(s.(metrics := StoresFor(m, entryType)), LongTasksObserver, "initLongTasksObserver", true,
                          logging, failure);
    } else if entryType == "layout-shift" {
      StartObserverEffect(s.(metrics := StoresFor(m, entryType)), LayoutShiftObserver, "initLayoutShiftObserver", true,
                          logging, failure);
    } else if entryType == "first-input" {
      StartObserverEffect(s, FirstInputDelayObserver, "initFirstInputDelayObserver", false, logging, failure);
    } else if entryType == "navigation" {
      StartObserverEffect(s, NavigationObserver, "initNavigationTimingsObserver", false, logging, failure);
    } else if entryType == "largest-contentful-paint" {
      StartObserverEffect(s, LargestContentfulPaintObserver, "initLargestContentfulPaintObserver", true, logging, failure);
    } else {
      assert s.forDisconnect + [] == s.forDisconnect;
    }
  }

  /** The stores the entry types create. */
  lemma {:induction false} ObservedStores(s: PerformanceState, types: seq<string>, logging: bool, failure: Option<JsError>)
    ensures var t := ObserveEntryTypes(s, types, logging, failure);
      && t.timeline == s.timeline
      && t.metrics == s.metrics.(
           longTasks := if "longtask" in types then Some(s.metrics.longTasks.GetOr(LongTasks(0, 0.0, 0.0))) else s.metrics.longTasks,
           customMetrics := if "element" in types then Some(s.metrics.customMetrics.GetOr(map[])) else s.metrics.customMetrics,
           cumulativeLayoutShift := if "layout-shift" in types then Some(s.metrics.cumulativeLayoutShift.GetOr(0.0))
                                    else s.metrics.cumulativeLayoutShift)
  {
    if types != [] {
      var prefix := types[..|types| - 1];
      ObservedStores(s, prefix, logging, failure);
      ObserveEntryTypeEffect(ObserveEntryTypes(s, prefix, logging, failure), types[|types| - 1], logging, failure);
      assert forall x :: x in types <==> x in prefix || x == types[|types| - 1];
    }
  }

  /** The observers connected: those of the types, unless construction throws. */
  lemma {:induction false} ObservedConnections(s: PerformanceState, types: seq<string>, logging: bool, failure: Option<JsError>)
    ensures var t := ObserveEntryTypes(s, types, logging, failure);
      t.connected == (if failure.None? then s.connected + ObserversOf(types) else s.connected)
  {
    if types != [] {
      var prefix := types[..|types| - 1];
      ObservedConnections(s, prefix, logging, failure);
      ObserveEntryTypeEffect(ObserveEntryTypes(s, prefix, logging, failure), types[|types| - 1], logging, failure);
    }
  }

  /** The observers queued for the disconnect on first input: only tracked ones, after the queue
      there was, and none when construction throws. */
  lemma {:induction false} ObservedForDisconnect(s: PerformanceState, types: seq<string>, logging: bool, failure: Option<JsError>)
    ensures var t := ObserveEntryTypes(s, types, logging, failure);
      && |s.forDisconnect| <= |t.forDisconnect| && t.forDisconnect[..|s.forDisconnect|] == s.forDisconnect
      && (failure.Some? ==> t.forDisconnect == s.forDisconnect)
      && forall i :: |s.forDisconnect| <= i < |t.forDisconnect| ==> Tracked(t.forDisconnect[i])
  {
    if types != [] {
      var prefix := types[..|types| - 1];
      ObservedForDisconnect(s, prefix, logging, failure);
      var t0 := ObserveEntryTypes(s, prefix, logging, failure);
      ObserveEntryTypeEffect(t0, types[|types| - 1], logging, failure);
      var t := ObserveEntryTypes(s, types, logging, failure);
      assert t.forDisconnect[..|s.forDisconnect|] == t.forDisconnect[..|t0.forDisconnect|][..|s.forDisconnect|];
    }
  }

  /** `init` */
  function InitSpec(s: PerformanceState, browser: Browser, logging: bool): PerformanceState {
    var device := if IsMobileDevice(browser.userAgent) then Mobile else Desktop;
    var m := s.metrics.(deviceInformation := Some(device));
    var m' := if browser.connection.Some? then m.(networkInformation := browser.connection) else m;
    ObserveEntryTypes(s.(metrics := m'), ObservedEntryTypes(browser.supportedEntryTypes), logging, browser.observerFailure)
  }

  /** A fresh store after `init`: the device type follows the user agent, network information is
      set only when the browser has a connection, the three accumulating stores start at zero or
      empty exactly when their entry type is observed, every other metric is still `null`, nothing
      was marked, the observers of the observed types are connected unless construction throws,
      and only tracked observers wait for the first input. */
  lemma InitFromScratch(browser: Browser, logging: bool)
    ensures var t := InitSpec(InitialState, browser, logging);
      var types := ObservedEntryTypes(browser.supportedEntryTypes);
      && t.metrics.deviceInformation == Some(if IsMobileDevice(browser.userAgent) then Mobile else Desktop)
      && t.metrics.networkInformation == browser.connection
      && t.metrics.longTasks == (if "longtask" in types then Some(LongTasks(0, 0.0, 0.0)) else None)
      && t.metrics.customMetrics == (if "element" in types then Some(map[]) else None)
      && t.metrics.cumulativeLayoutShift == (if "layout-shift" in types then Some(0.0) else None)
      && t.metrics.firstPaint.None? && t.metrics.firstContentfulPaint.None? && t.metrics.largestContentfulPaint.None?
      && t.metrics.firstInputDelay.None? && t.metrics.navigationTimings.None?
      && t.timeline == []
      && (forall o :: o in t.connected <==>
            browser.observerFailure.None? && exists entryType :: entryType in types && o in ObserversFor(entryType))
      && (forall o :: o in t.forDisconnect ==> Tracked(o))
  {
    var device := if IsMobileDevice(browser.userAgent) then Mobile else Desktop;
    var m := EmptyMetrics.(deviceInformation := Some(device));
    var m' := if browser.connection.Some? then m.(networkInformation := browser.connection) else m;
    var s := InitialState.(metrics := m');
    var types := ObservedEntryTypes(browser.supportedEntryTypes);
    ObservedStores(s, types, logging, browser.observerFailure);
    ObservedConnections(s, types, logging, browser.observerFailure);
    ObservedForDisconnect(s, types, logging, browser.observerFailure);
    forall o {
      ObserversOfMembers(types, o);
    }
  }

  // ---------------------------------------------------------------------------------------
  // The observers' callbacks.

  /** The last entry named `name` sets the paint time; without one it is unchanged. */
  function PaintTime(previous: Option<real>, entries: seq<NamedEntry>, name: string): Option<real> {
    if entries == [] then previous
    else
      var last := entries[|entries| - 1];
      if last.name == name then Some(last.startTime) else PaintTime(previous, entries[..|entries| - 1], name)
  }

  predicate HasEntryNamed(entries: seq<NamedEntry>, name: string) {
    exists i :: 0 <= i < |entries| && entries[i].name == name
  }

  /** Without an entry of that name the paint time is kept. */
  lemma {:induction false} PaintTimeNoMatch(previous: Option<real>, entries: seq<NamedEntry>, name: string)
    requires !HasEntryNamed(entries, name)
    ensures PaintTime(previous, entries, name) == previous
  {
    if entries != [] {
      var prefix := entries[..|entries| - 1];
      forall i | 0 <= i < |prefix|
        ensures prefix[i].name != name
      {
        assert prefix[i] == entries[i];
      }
      PaintTimeNoMatch(previous, prefix, name);
    }
  }

  /** With an entry of that name the paint time is the last such entry's start time. */
  lemma {:induction false} PaintTimeMatch(previous: Option<real>, entries: seq<NamedEntry>, name: string)
    requires HasEntryNamed(entries, name)
    ensures exists i :: 0 <= i < |entries| && entries[i].name == name
              && PaintTime(previous, entries, name) == Some(entries[i].startTime)
              && forall j :: i < j < |entries| ==> entries[j].name != name
  {
    var last := |entries| - 1;
    if entries[last].name == name {
      assert PaintTime(previous, entries, name) == Some(entries[last].startTime);
    } else {
      var prefix := entries[..last];
      var k :| 0 <= k < |entries| && entries[k].name == name;
      assert prefix[k] == entries[k];
      PaintTimeMatch(previous, prefix, name);
      var i :| 0 <= i < |prefix| && prefix[i].name == name && PaintTime(previous, prefix, name) == Some(prefix[i].startTime)
               && forall j :: i < j < |prefix| ==> prefix[j].name != name;
      assert entries[i] == prefix[i];
      forall j | i < j < |entries|
        ensures entries[j].name != name
      {
        if j < last {
          assert entries[j] == prefix[j];
        }
      }
    }
  }

  /** The paint time is the start time of the last entry with the metric's name, and is kept when
      no entry has that name. */
  lemma PaintTimeIsLastMatch(previous: Option<real>, entries: seq<NamedEntry>, name: string)
    ensures !HasEntryNamed(entries, name) ==> PaintTime(previous, entries, name) == previous
    ensures HasEntryNamed(entries, name) ==>
              exists i :: 0 <= i < |entries| && entries[i].name == name
                && PaintTime(previous, entries, name) == Some(entries[i].startTime)
                && forall j :: i < j < |entries| ==> entries[j].name != name
  {
    if HasEntryNamed(entries, name) {
      PaintTimeMatch(previous, entries, name);
    } else {
      PaintTimeNoMatch(previous, entries, name);
    }
  }

  /** The paint callbacks (first paint, first contentful paint): every matching entry sets the
      metric and disconnects the observer. */
  function OnPaintSpec(s: PerformanceState, entries: seq<NamedEntry>, name: string, o: Observer): PerformanceState {
    var m := s.metrics;
    var time := PaintTime(if name == "first-paint" then m.firstPaint else m.firstContentfulPaint, entries, name);
    s.(metrics := if name == "first-paint" then m.(firstPaint := time) else m.(firstContentfulPaint := time),
       connected := if HasEntryNamed(entries, name) then s.connected - {o} else s.connected)
  }

  function NavigationTimingsOf(e: NavigationEntry): NavigationTimings {
    NavigationTimings(e.domainLookupEnd - e.domainLookupStart, e.responseStart - e.requestStart,
                      e.connectEnd - e.connectStart, e.responseEnd - e.startTime)
  }

  /** The layout shift after a batch: each entry without recent input adds its value, `null`
      counting as zero. */
  function LayoutShift(previous: Option<real>, entries: seq<LayoutShiftEntry>): Option<real> {
    if entries == [] then previous
    else
      var shift := LayoutShift(previous, entries[..|entries| - 1]);
      var last := entries[|entries| - 1];
      if last.hadRecentInput then shift else Some(shift.GetOr(0.0) + last.value)
  }

  /** The sum of the values of the entries without recent input. */
  function ShiftSum(entries: seq<LayoutShiftEntry>): real {
    if entries == [] then 0.0
    else ShiftSum(entries[..|entries| - 1]) + (if entries[|entries| - 1].hadRecentInput then 0.0 else entries[|entries| - 1].value)
  }

  /** A started layout shift grows by exactly the values of the entries without recent input, and
      two batches add up to their concatenation. */
  lemma {:induction false} LayoutShiftAdds(previous: real, entries: seq<LayoutShiftEntry>)
    ensures LayoutShift(Some(previous), entries) == Some(previous + ShiftSum(entries))
  {
    if entries != [] {
      LayoutShiftAdds(previous, entries[..|entries| - 1]);
    }
  }

  lemma {:induction false} LayoutShiftBatches(previous: real, first: seq<LayoutShiftEntry>, second: seq<LayoutShiftEntry>)
    ensures LayoutShift(LayoutShift(Some(previous), first), second) == LayoutShift(Some(previous), first + second)
  {
    LayoutShiftAdds(previous, first);
    LayoutShiftAdds(previous + ShiftSum(first), second);
    LayoutShiftAdds(previous, first + second);
    ShiftSumAppend(first, second);
  }

  lemma {:induction false} ShiftSumAppend(a: seq<LayoutShiftEntry>, b: seq<LayoutShiftEntry>)
    ensures ShiftSum(a + b) == ShiftSum(a) + ShiftSum(b)
    decreases |b|
  {
    if b == [] {
      assert a + b == a;
    } else {
      assert (a + b)[..|a + b| - 1] == a + b[..|b| - 1];
      ShiftSumAppend(a, b[..|b| - 1]);
    }
  }

  /** The long-task callback: the count grows by the batch's length; the first task's duration
      and start time are taken from the batch's first entry while the stored duration is 0. */
  function LongTasksAfter(stored: LongTasks, entries: seq<LongTaskEntry>): (r: LongTasks)
    requires entries != [] || stored.firstLongTaskDuration != 0.0
    ensures r.totalLongTasks == stored.totalLongTasks + |entries|
    ensures stored.firstLongTaskDuration != 0.0 ==>
              r.firstLongTaskDuration == stored.firstLongTaskDuration && r.firstLongTaskStartTime == stored.firstLongTaskStartTime
    ensures stored.firstLongTaskDuration == 0.0 ==>
              r.firstLongTaskDuration == entries[0].duration && r.firstLongTaskStartTime == entries[0].startTime
  {
    var total := stored.totalLongTasks + |entries|;
    if stored.firstLongTaskDuration == 0.0 then LongTasks(total, entries[0].duration, entries[0].startTime)
    else stored.(totalLongTasks := total)
  }

  /** Once a first task with a non-zero duration is stored, later batches never change it. */
  lemma {:induction false} FirstLongTaskSticks(stored: LongTasks, batches: seq<seq<LongTaskEntry>>)
    requires stored.firstLongTaskDuration != 0.0
    ensures var r := LongTasksAfterAll(stored, batches);
      && r.firstLongTaskDuration == stored.firstLongTaskDuration
      && r.firstLongTaskStartTime == stored.firstLongTaskStartTime
      && r.totalLongTasks == stored.totalLongTasks + TotalLength(batches)
  {
    if batches != [] {
      FirstLongTaskSticks(stored, batches[..|batches| - 1]);
    }
  }

  function TotalLength(batches: seq<seq<LongTaskEntry>>): nat {
    if batches == [] then 0 else TotalLength(batches[..|batches| - 1]) + |batches[|batches| - 1]|
  }

  /** Several batches in turn. */
  function LongTasksAfterAll(stored: LongTasks, batches: seq<seq<LongTaskEntry>>): LongTasks
    requires stored.firstLongTaskDuration != 0.0
    ensures LongTasksAfterAll(stored, batches).firstLongTaskDuration != 0.0
  {
    if batches == [] then stored
    else LongTasksAfter(LongTasksAfterAll(stored, batches[..|batches| - 1]), batches[|batches| - 1])
  }

  /** The properties every plain object inherits from `Object.prototype`: on a `{}` that does not
      hold one of them itself, reading it gives a function (or the prototype), never `undefined`. */
  const InheritedNames: set<string> := {
    "constructor", "__proto__", "__defineGetter__", "__defineSetter__", "__lookupGetter__",
    "__lookupSetter__", "hasOwnProperty", "isPrototypeOf", "propertyIsEnumerable", "toString",
    "toLocaleString", "valueOf"}

  /** `customMetricsStore[name] === undefined` on the plain object the map stands for. */
  predicate Unset(store: map<string, Option<real>>, name: string) {
    name !in store && name !in InheritedNames
  }

  /** The element-timing callback: the first time seen for an identifier is kept. */
  function ElementTimings(store: map<string, Option<real>>, entries: seq<ElementEntry>): map<string, Option<real>> {
    if entries == [] then store
    else
      var m := ElementTimings(store, entries[..|entries| - 1]);
      var last := entries[|entries| - 1];
      if Unset(m, last.identifier) then m[last.identifier := Some(last.startTime)] else m
  }

  /** The index of the first entry for `id`. */
  predicate FirstFor(entries: seq<ElementEntry>, id: string, i: int) {
    0 <= i < |entries| && entries[i].identifier == id && forall j :: 0 <= j < i ==> entries[j].identifier != id
  }

  /** First write wins: a name already in the store (a running or finished measure, or an
      earlier element) keeps its value; a new identifier gets the start time of its first entry,
      unless it names an inherited property, which is never recorded; nothing else is added. */
  lemma {:induction false} ElementTimingsFirstWriteWins(store: map<string, Option<real>>, entries: seq<ElementEntry>)
    ensures var r := ElementTimings(store, entries);
      && (forall id :: id in store ==> id in r && r[id] == store[id])
      && (forall id :: id in r <==>
            id in store || (id !in InheritedNames && exists i :: 0 <= i < |entries| && entries[i].identifier == id))
      && (forall id, i :: Unset(store, id) && FirstFor(entries, id, i) ==> id in r && r[id] == Some(entries[i].startTime))
  {
    if entries != [] {
      var prefix := entries[..|entries| - 1];
      var last := entries[|entries| - 1];
      ElementTimingsFirstWriteWins(store, prefix);
      var m := ElementTimings(store, prefix);
      var r := ElementTimings(store, entries);
      assert forall i :: 0 <= i < |prefix| ==> prefix[i] == entries[i];
      forall id | id in r
        ensures id in store || (id !in InheritedNames && exists i :: 0 <= i < |entries| && entries[i].identifier == id)
      {
        if id !in m {
          assert entries[|entries| - 1].identifier == id;
        }
      }
      forall id, i | Unset(store, id) && FirstFor(entries, id, i)
        ensures id in r && r[id] == Some(entries[i].startTime)
      {
        if i < |prefix| {
          assert FirstFor(prefix, id, i);
        } else {
          assert Unset(m, id);
        }
      }
    }
  }

  // ---------------------------------------------------------------------------------------
  // Custom measures.

  /** `startPerformanceMeasure`: creates the map when it is `null`; a name it reads as
      `undefined` is stored as `null` and its start is marked. */
  function StartMeasureSpec(s: PerformanceState, name: string): PerformanceState {
    var store := s.metrics.customMetrics.GetOr(map[]);
    if !Unset(store, name) then s.(metrics := s.metrics.(customMetrics := Some(store)))
    else s.(metrics := s.metrics.(customMetrics := Some(store[name := None])),
            timeline := s.timeline + [Mark(name + ":start")])
  }

  /** The duration of the last `measure` entry, `null` when there is none. */
  function MeasuredDuration(entries: seq<TimingEntry>): Option<real> {
    if entries == [] then None
    else
      var last := entries[|entries| - 1];
      if last.entryType == "measure" then Some(last.duration) else MeasuredDuration(entries[..|entries| - 1])
  }

  predicate HasMeasure(entries: seq<TimingEntry>) {
    exists i :: 0 <= i < |entries| && entries[i].entryType == "measure"
  }

  lemma {:induction false} MeasuredDurationSome(entries: seq<TimingEntry>)
    ensures MeasuredDuration(entries).Some? <==> HasMeasure(entries)
  {
    if entries != [] {
      var prefix := entries[..|entries| - 1];
      MeasuredDurationSome(prefix);
      assert forall i :: 0 <= i < |prefix| ==> prefix[i] == entries[i];
      if HasMeasure(entries) && entries[|entries| - 1].entryType != "measure" {
        var i :| 0 <= i < |entries| && entries[i].entryType == "measure";
        assert prefix[i].entryType == "measure";
      }
    }
  }

  /** `stopPerformanceMeasure`: only a name stored as exactly `null` is marked, measured and given
      the duration of the last `measure` entry `getEntriesByName` returns. */
  function StopMeasureSpec(s: PerformanceState, name: string, entries: seq<TimingEntry>): PerformanceState {
    match s.metrics.customMetrics
    case None => s
    case Some(store) =>
      if name in store && store[name].None? then
        s.(metrics := s.metrics.(customMetrics := Some(store[name := MeasuredDuration(entries)])),
           timeline := s.timeline + [Mark(name + ":end"), Measure(name, name + ":start", name + ":end")])
      else s
  }

  /** Starting twice is starting once: one mark, one `null` entry. */
  lemma StartMeasureIdempotent(s: PerformanceState, name: string)
    ensures StartMeasureSpec(StartMeasureSpec(s, name), name) == StartMeasureSpec(s, name)
    ensures var t := StartMeasureSpec(s, name);
      && t.metrics.customMetrics.Some?
      && (name !in InheritedNames ==> name in t.metrics.customMetrics.value)
      && |t.timeline| <= |s.timeline| + 1
  {
  }

  /** A name the store inherits from `Object.prototype` (`toString`, say) is never started, so
      stopping it never measures: nothing is marked and nothing is stored. */
  lemma InheritedNameNeverMeasured(s: PerformanceState, name: string, entries: seq<TimingEntry>)
    requires name in InheritedNames && name !in s.metrics.customMetrics.GetOr(map[])
    ensures var t := StopMeasureSpec(StartMeasureSpec(s, name), name, entries);
      && t.timeline == s.timeline
      && t.metrics.customMetrics == Some(s.metrics.customMetrics.GetOr(map[]))
  {
  }

  /** A stop without a running measure (no map, a name never started, or one already stopped) does
      nothing; a stop that found a `measure` entry makes every later stop do nothing. */
  lemma StopMeasureOnce(s: PerformanceState, name: string, entries: seq<TimingEntry>, later: seq<TimingEntry>)
    ensures s.metrics.customMetrics.None? ==> StopMeasureSpec(s, name, entries) == s
    ensures s.metrics.customMetrics.Some? &&
            (name !in s.metrics.customMetrics.value || s.metrics.customMetrics.value[name].Some?) ==>
              StopMeasureSpec(s, name, entries) == s
    ensures HasMeasure(entries) ==>
              var t := StopMeasureSpec(s, name, entries);
              StopMeasureSpec(t, name, later) == t
  {
    MeasuredDurationSome(entries);
  }

  /** The client's own scenario: three starts, then three stops with `getEntriesByName` returning
      one measure of 100, on a store where the name is not taken yet: the start and the end are
      marked once each, measured once, and the duration stored. */
  lemma {:induction false} StartsThenStopsMeasureOnce(s: PerformanceState, name: string)
    requires Unset(s.metrics.customMetrics.GetOr(map[]), name) && s.timeline == []
    ensures var entries := [TimingEntry("measure", 100.0)];
      var started := StartMeasureSpec(StartMeasureSpec(StartMeasureSpec(s, name), name), name);
      var t := StopMeasureSpec(StopMeasureSpec(StopMeasureSpec(started, name, entries), name, entries), name, entries);
      && t.timeline == [Mark(name + ":start"), Mark(name + ":end"), Measure(name, name + ":start", name + ":end")]
      && t.metrics.customMetrics.Some? && name in t.metrics.customMetrics.value
      && t.metrics.customMetrics.value[name] == Some(100.0)
  {
    var entries := [TimingEntry("measure", 100.0)];
    var t1 := StartMeasureSpec(s, name);
    StartMeasureIdempotent(s, name);
    StartMeasureIdempotent(s, name);
    assert StartMeasureSpec(StartMeasureSpec(t1, name), name) == t1;
    assert t1.metrics.customMetrics.Some? && t1.metrics.customMetrics.value[name] == None;
    assert t1.timeline == [Mark(name + ":start")];
    var t2 := StopMeasureSpec(t1, name, entries);
    assert MeasuredDuration(entries) == Some(100.0);
    assert HasMeasure(entries);
    StopMeasureOnce(t1, name, entries, entries);
    StopMeasureOnce(t2, name, entries, entries);
    assert StopMeasureSpec(t2, name, entries) == t2;
  }

  // ---------------------------------------------------------------------------------------
  // The object.

  class Performance {
    /** Whether the logger prints. */
    const logging: bool
    var metrics: MetricsStore
    var performanceObserversForDisconnect: seq<Observer>
    /** The observers currently observing. */
    var connected: set<Observer>
    /** What the logger printed. */
    var console: seq<string>
    /** The calls made to `performance.mark` and `performance.measure`. */
    var timeline: seq<UserTiming>

    constructor(logging: bool)
      ensures this.logging == logging && State() == InitialState
    {
      this.logging := logging;
      metrics := EmptyMetrics;
      performanceObserversForDisconnect := [];
      connected := {};
      console := [];
      timeline := [];
    }

    function State(): PerformanceState
      reads this
    {
      PerformanceState(metrics, performanceObserversForDisconnect, connected, console, timeline)
    }

    method Init(browser: Browser)
      modifies this
      ensures State() == InitSpec(old(State()), browser, logging)
    {
      metrics := metrics.(deviceInformation := Some(if IsMobileDevice(browser.userAgent) then Mobile else Desktop));
      if browser.connection.Some? {
        metrics := metrics.(networkInformation := browser.connection);
      }
      var types := ObservedEntryTypes(browser.supportedEntryTypes);
      ghost var start := State();
      for i := 0 to |types|
        invariant State() == ObserveEntryTypes(start, types[..i], logging, browser.observerFailure)
      {
        assert types[..i + 1][..i] == types[..i];
        ObserveType(types[i], browser.observerFailure);
      }
      assert types[..|types|] == types;
    }

    /** One branch of the `switch`. */
    method ObserveType(entryType: string, failure: Option<JsError>)
      modifies this
      ensures State() == ObserveEntryType(old(State()), entryType, logging, failure)
    {
      if entryType == "paint" {
        StartObserving(FirstPaintObserver, "initFirstPaintObserver", false, failure);
        StartObserving(FirstContentfulPaintObserver, "initFirstContentfulPaintObserver", false, failure);
      } else if entryType == "element" {
        if metrics.customMetrics.None? {
          metrics := metrics.(customMetrics := Some(map[]));
        }
        StartObserving(ElementTimingObserver, "initElementTimingObserver", true, failure);
      } else if entryType == "longtask" {
        if metrics.longTasks.None? {
          metrics := metrics.(longTasks := Some(LongTasks(0, 0.0, 0.0)));
        }
        StartObserving(LongTasksObserver, "initLongTasksObserver", true, failure);
      } else if entryType == "layout-shift" {
        if metrics.cumulativeLayoutShift.None? {
          metrics := metrics.(cumulativeLayoutShift := Some(0.0));
        }
        StartObserving(LayoutShiftObserver, "initLayoutShiftObserver", true, failure);
      } else if entryType == "first-input" {
        StartObserving(FirstInputDelayObserver, "initFirstInputDelayObserver", false, failure);
      } else if entryType == "navigation" {
        StartObserving(NavigationObserver, "initNavigationTimingsObserver", false, failure);
      } else if entryType == "largest-contentful-paint" {
        StartObserving(LargestContentfulPaintObserver, "initLargestContentfulPaintObserver", true, failure);
      }
    }

    method StartObserving(o: Observer, initializer: string, tracked: bool, failure: Option<JsError>)
      modifies this
      ensures State() == StartObserver(old(State()), o, initializer, tracked, logging, failure)
    {
      if failure.Some? {
        console := console + ErrorLine(logging, "Performance:" + initializer, failure.value);
        return;
      }
      connected := connected + {o};
      if tracked {
        performanceObserversForDisconnect := performanceObserversForDisconnect + [o];
      }
    }

    /** The navigation-timings callback: the first entry's timings, then the observer stops. */
    method OnNavigationEntries(entries: seq<NavigationEntry>)
      requires entries != []
      modifies this
      ensures metrics == old(metrics).(navigationTimings := Some(NavigationTimingsOf(entries[0])))
      ensures connected == old(connected) - {NavigationObserver}
      ensures performanceObserversForDisconnect == old(performanceObserversForDisconnect)
      ensures console == old(console) && timeline == old(timeline)
    {
      metrics := metrics.(navigationTimings := Some(NavigationTimingsOf(entries[0])));
      connected := connected - {NavigationObserver};
    }

    /** The first-paint and first-contentful-paint callbacks. */
    method OnPaintEntries(entries: seq<NamedEntry>, name: string, o: Observer)
      requires name == "first-paint" || name == "first-contentful-paint"
      modifies this
      ensures State() == OnPaintSpec(old(State()), entries, name, o)
    {
      for i := 0 to |entries|
        invariant State() == OnPaintSpec(old(State()), entries[..i], name, o)
      {
        assert entries[..i + 1][..i] == entries[..i];
        if entries[i].name == name {
          if name == "first-paint" {
            metrics := metrics.(firstPaint := Some(entries[i].startTime));
          } else {
            metrics := metrics.(firstContentfulPaint := Some(entries[i].startTime));
          }
          connected := connected - {o};
          assert HasEntryNamed(entries[..i + 1], name) by {
            assert entries[..i + 1][i].name == name;
          }
        } else {
          assert HasEntryNamed(entries[..i + 1], name) <==> HasEntryNamed(entries[..i], name) by {
            assert forall j :: 0 <= j < i ==> entries[..i + 1][j] == entries[..i][j];
          }
        }
      }
      assert entries[..|entries|] == entries;
    }

    /** The first-input callback: the delay is `processingStart - startTime`; its observer and every
        tracked observer are disconnected. */
    method OnFirstInputEntries(entries: seq<FirstInputEntry>)
      requires entries != []
      modifies this
      ensures metrics == old(metrics).(firstInputDelay := Some(FirstInputDelay(entries[0].name, entries[0].startTime,
                                                                               entries[0].processingStart - entries[0].startTime)))
      ensures connected == old(connected) - {FirstInputDelayObserver} - set o | o in old(performanceObserversForDisconnect)
      ensures FirstInputDelayObserver !in connected
      ensures forall o :: o in performanceObserversForDisconnect ==> o !in connected
      ensures performanceObserversForDisconnect == old(performanceObserversForDisconnect)
      ensures console == old(console) && timeline == old(timeline)
    {
      var e := entries[0];
      metrics := metrics.(firstInputDelay := Some(FirstInputDelay(e.name, e.startTime, e.processingStart - e.startTime)));
      connected := connected - {FirstInputDelayObserver};
      DisconnectPerformanceObservers();
    }

    /** `disconnectPerformanceObservers` */
    method DisconnectPerformanceObservers()
      modifies this
      ensures connected == old(connected) - set o | o in performanceObserversForDisconnect
      ensures metrics == old(metrics) && performanceObserversForDisconnect == old(performanceObserversForDisconnect)
      ensures console == old(console) && timeline == old(timeline)
    {
      var observers := performanceObserversForDisconnect;
      for i := 0 to |observers|
        invariant connected == old(connected) - set o | o in observers[..i]
        invariant metrics == old(metrics) && performanceObserversForDisconnect == observers
        invariant console == old(console) && timeline == old(timeline)
      {
        assert forall o :: o in observers[..i + 1] <==> o in observers[..i] || o == observers[i];
        connected := connected - {observers[i]};
      }
      assert observers[..|observers|] == observers;
    }

    /** The largest-contentful-paint callback: the last entry wins. */
    method OnLargestContentfulPaintEntries(entries: seq<NamedEntry>)
      requires entries != []
      modifies this
      ensures metrics == old(metrics).(largestContentfulPaint := Some(entries[|entries| - 1].startTime))
      ensures connected == old(connected) && performanceObserversForDisconnect == old(performanceObserversForDisconnect)
      ensures console == old(console) && timeline == old(timeline)
    {
      metrics := metrics.(largestContentfulPaint := Some(entries[|entries| - 1].startTime));
    }

    /** The layout-shift callback. */
    method OnLayoutShiftEntries(entries: seq<LayoutShiftEntry>)
      modifies this
      ensures metrics == old(metrics).(cumulativeLayoutShift := LayoutShift(old(metrics.cumulativeLayoutShift), entries))
      ensures connected == old(connected) && performanceObserversForDisconnect == old(performanceObserversForDisconnect)
      ensures console == old(console) && timeline == old(timeline)
    {
      for i := 0 to |entries|
        invariant metrics == old(metrics).(cumulativeLayoutShift := LayoutShift(old(metrics.cumulativeLayoutShift), entries[..i]))
        invariant connected == old(connected) && performanceObserversForDisconnect == old(performanceObserversForDisconnect)
        invariant console == old(console) && timeline == old(timeline)
      {
        assert entries[..i + 1][..i] == entries[..i];
        if !entries[i].hadRecentInput {
          metrics := metrics.(cumulativeLayoutShift := Some(metrics.cumulativeLayoutShift.GetOr(0.0) + entries[i].value));
        }
      }
      assert entries[..|entries|] == entries;
    }

    /** The long-task callback, on the store created when its observer was. */
    method OnLongTaskEntries(entries: seq<LongTaskEntry>)
      requires metrics.longTasks.Some?
      requires entries != [] || metrics.longTasks.value.firstLongTaskDuration != 0.0
      modifies this
      ensures metrics == old(metrics).(longTasks := Some(LongTasksAfter(old(metrics.longTasks.value), entries)))
      ensures connected == old(connected) && performanceObserversForDisconnect == old(performanceObserversForDisconnect)
      ensures console == old(console) && timeline == old(timeline)
    {
      var store := metrics.longTasks.value;
      store := store.(totalLongTasks := store.totalLongTasks + |entries|);
      if store.firstLongTaskDuration == 0.0 {
        store := store.(firstLongTaskDuration := entries[0].duration, firstLongTaskStartTime := entries[0].startTime);
      }
      metrics := metrics.(longTasks := Some(store));
    }

    /** The element-timing callback, on the map created when its observer was (or by a measure). */
    method OnElementEntries(entries: seq<ElementEntry>)
      requires metrics.customMetrics.Some?
      modifies this
      ensures metrics == old(metrics).(customMetrics := Some(ElementTimings(old(metrics.customMetrics.value), entries)))
      ensures connected == old(connected) && performanceObserversForDisconnect == old(performanceObserversForDisconnect)
      ensures console == old(console) && timeline == old(timeline)
    {
      var store := metrics.customMetrics.value;
      for i := 0 to |entries|
        invariant store == ElementTimings(old(metrics.customMetrics.value), entries[..i])
        invariant metrics == old(metrics)
      {
        assert entries[..i + 1][..i] == entries[..i];
        if Unset(store, entries[i].identifier) {
          store := store[entries[i].identifier := Some(entries[i].startTime)];
        }
      }
      assert entries[..|entries|] == entries;
      metrics := metrics.(customMetrics := Some(store));
    }

    /** `startPerformanceMeasure` */
    method StartPerformanceMeasure(name: string)
      modifies this
      ensures State() == StartMeasureSpec(old(State()), name)
    {
      if metrics.customMetrics.None? {
        metrics := metrics.(customMetrics := Some(map[]));
      }
      var store := metrics.customMetrics.value;
      if Unset(store, name) {
        metrics := metrics.(customMetrics := Some(store[name := None]));
        timeline := timeline + [Mark(name + ":start")];
      }
    }

    /** `stopPerformanceMeasure`, with the entries `getEntriesByName` returns. */
    method StopPerformanceMeasure(name: string, entriesByName: seq<TimingEntry>)
      modifies this
      ensures State() == StopMeasureSpec(old(State()), name, entriesByName)
    {
      if metrics.customMetrics.None? {
        return;
      }
      var store := metrics.customMetrics.value;
      if name in store && store[name].None? {
        timeline := timeline + [Mark(name + ":end")];
        timeline := timeline + [Measure(name, name + ":start", name + ":end")];
        for i := 0 to |entriesByName|
          invariant store == old(metrics.customMetrics.value)[name := MeasuredDuration(entriesByName[..i])]
        {
          assert entriesByName[..i + 1][..i] == entriesByName[..i];
          if entriesByName[i].entryType == "measure" {
            store := store[name := Some(entriesByName[i].duration)];
          }
        }
        assert entriesByName[..|entriesByName|] == entriesByName;
        metrics := metrics.(customMetrics := Some(store));
      }
    }
  }
}
