/** The budget translator of the synthetic audit pipeline: a metric -> device -> value-kind
    budget record becomes the audit engine's three flat threshold lists. */
module LighthouseBudgets {
  import opened Wrappers
  import opened JsValues

  datatype DeviceType = Mobile | Desktop

  function DeviceKey(d: DeviceType): string {
    match d
    case Mobile => "mobile"
    case Desktop => "desktop"
  }

  datatype MetricValueKind = Target | Current

  function ValueKindKey(k: MetricValueKind): string {
    match k
    case Target => "target"
    case Current => "current"
  }

  const ResourceSizes := "resource-sizes"
  const ResourceRequests := "resource-requests"

  /** The values of the metric-name enumeration, in declaration order. */
  const MetricNames: seq<string> := [
    "speed-index", "first-paint", "first-cpu-idle", ResourceSizes, "interactive",
    "max-potential-fid", ResourceRequests, "lighthouse-scores", "total-blocking-time",
    "first-meaningful-paint", "first-contentful-paint", "estimated-input-latency",
    "largest-contentful-paint"
  ]

  datatype TimingBudget = TimingBudget(metric: string, budget: Number)
  datatype ResourceBudget = ResourceBudget(resourceType: string, budget: Number)
  datatype LighthouseBudget = LighthouseBudget(
    timings: seq<TimingBudget>,
    resourceSizes: seq<ResourceBudget>,
    resourceCounts: seq<ResourceBudget>)

  const EmptyLighthouseBudget := LighthouseBudget([], [], [])

  predicate IsMetricName(name: string) {
    name in MetricNames
  }

  predicate IsResourceMetric(name: string) {
    name == ResourceSizes || name == ResourceRequests
  }

  /** The budget keys that are members of the metric enumeration, in key order. */
  function ValidMetricNames(keys: seq<string>): (r: seq<string>)
    ensures forall n :: n in r <==> n in keys && IsMetricName(n)
    ensures |r| <= |keys|
  {
    if keys == [] then []
    else (ValidMetricNames(keys[..|keys| - 1])
      + (if IsMetricName(keys[|keys| - 1]) then [keys[|keys| - 1]] else []))
  }

  /** Every name except the two resource families. */
  function TimingsMetricNames(names: seq<string>): (r: seq<string>)
    ensures forall n :: n in r <==> n in names && !IsResourceMetric(n)
    ensures |r| <= |names|
  {
    if names == [] then []
    else (TimingsMetricNames(names[..|names| - 1])
      + (if IsResourceMetric(names[|names| - 1]) then [] else [names[|names| - 1]]))
  }

  /** Only `resource-sizes` and `resource-requests`. */
  function ResourceMetricNames(names: seq<string>): (r: seq<string>)
    ensures forall n :: n in r <==> n in names && IsResourceMetric(n)
  {
    if names == [] then []
    else (ResourceMetricNames(names[..|names| - 1])
      + (if IsResourceMetric(names[|names| - 1]) then [names[|names| - 1]] else []))
  }

  /** `typeof value === 'number' && !isNaN(value)` */
  predicate IsValidBudgetValue(v: JsValue) {
    IsNumberNotNaN(v)
  }

  function TimingPath(metric: string, d: DeviceType, k: MetricValueKind): seq<string> {
    [metric, DeviceKey(d), ValueKindKey(k)]
  }

  function ResourcePath(metric: string, resourceType: string, d: DeviceType, k: MetricValueKind): seq<string> {
    [metric, resourceType, DeviceKey(d), ValueKindKey(k)]
  }

  /** What one timing name contributes: one entry when its value is valid, none otherwise. */
  function TimingEntry(name: string, budget: JsValue, d: DeviceType, k: MetricValueKind): seq<TimingBudget> {
    var v := GetPath(budget, TimingPath(name, d, k));
    if IsValidBudgetValue(v) then [TimingBudget(name, v.n)] else []
  }

  /** The metric names of the timing entries, in order. */
  function EntryMetrics(entries: seq<TimingBudget>): seq<string> {
    seq(|entries|, i requires 0 <= i < |entries| => entries[i].metric)
  }

  function TimingEntries(names: seq<string>, budget: JsValue, d: DeviceType, k: MetricValueKind): seq<TimingBudget> {
    if names == [] then []
    else TimingEntries(names[..|names| - 1], budget, d, k) + TimingEntry(names[|names| - 1], budget, d, k)
  }

  function ResourceEntry(metric: string, resourceType: string, budget: JsValue, d: DeviceType, k: MetricValueKind): seq<ResourceBudget> {
    var v := GetPath(budget, ResourcePath(metric, resourceType, d, k));
    if IsValidBudgetValue(v) then [ResourceBudget(resourceType, v.n)] else []
  }

  function ResourceEntries(metric: string, types: seq<string>, budget: JsValue, d: DeviceType, k: MetricValueKind): seq<ResourceBudget> {
    if types == [] then []
    else ResourceEntries(metric, types[..|types| - 1], budget, d, k) + ResourceEntry(metric, types[|types| - 1], budget, d, k)
  }

  /** What one resource name adds to the two lists (the body of the source's forEach callback),
      or the error `Object.keys` throws when the metric's value is `null` or `undefined`. */
  function ResourceStep(name: string, budget: JsValue, d: DeviceType, k: MetricValueKind,
                        acc: (seq<ResourceBudget>, seq<ResourceBudget>))
    : Result<(seq<ResourceBudget>, seq<ResourceBudget>), JsError>
  {
    if name == ResourceSizes then
      match Keys(Get(budget, name))
      case Failure(e) => Failure(e)
      case Success(types) => Success((acc.0 + ResourceEntries(name, types, budget, d, k), acc.1))
    else if name == ResourceRequests then
      match Keys(Get(budget, name))
      case Failure(e) => Failure(e)
      case Success(types) => Success((acc.0, acc.1 + ResourceEntries(name, types, budget, d, k)))
    else Success(acc)
  }

  /** The `resourceSizes` and `resourceCounts` contributions of the resource names, or the first
      error thrown. */
  function ResourceThresholds(names: seq<string>, budget: JsValue, d: DeviceType, k: MetricValueKind)
    : Result<(seq<ResourceBudget>, seq<ResourceBudget>), JsError>
  {
    if names == [] then Success(([], []))
    else
      match ResourceThresholds(names[..|names| - 1], budget, d, k)
      case Failure(e) => Failure(e)
      case Success(acc) => ResourceStep(names[|names| - 1], budget, d, k, acc)
  }

  /** The whole translation, as a value. */
  function Translate(budget: JsValue, d: DeviceType, k: MetricValueKind): Result<LighthouseBudget, JsError> {
    match Keys(budget)
    case Failure(e) => Failure(e)
    case Success(keys) =>
      var valid := ValidMetricNames(keys);
      var timings := TimingEntries(TimingsMetricNames(valid), budget, d, k);
      match ResourceThresholds(ResourceMetricNames(valid), budget, d, k)
      case Failure(e) => Failure(e)
      case Success((sizes, counts)) => Success(LighthouseBudget(timings, sizes, counts))
  }

  function Appended(sizes: seq<ResourceBudget>, counts: seq<ResourceBudget>,
                    r: Result<(seq<ResourceBudget>, seq<ResourceBudget>), JsError>)
    : Result<(seq<ResourceBudget>, seq<ResourceBudget>), JsError>
  {
    match r
    case Failure(e) => Failure(e)
    case Success((s, c)) => Success((sizes + s, counts + c))
  }

  // ---------------------------------------------------------------------------------------
  // The translator as the source runs it: fresh lists, then two forEach loops that push.

  method AddTimingsMetricThresholds(names: seq<string>, budget: JsValue, d: DeviceType, k: MetricValueKind,
                                    timings: seq<TimingBudget>)
    returns (r: seq<TimingBudget>)
    ensures r == timings + TimingEntries(names, budget, d, k)
  {
    r := timings;
    for i := 0 to |names|
      invariant r == timings + TimingEntries(names[..i], budget, d, k)
    {
      assert names[..i + 1][..i] == names[..i];
      var v := GetPath(budget, [names[i], DeviceKey(d), ValueKindKey(k)]);
      if !IsValidBudgetValue(v) {
        continue;
      }
      r := r + [TimingBudget(names[i], v.n)];
    }
    assert names[..|names|] == names;
  }

  /** The inner forEach over resource-type keys, shared by both resource families. */
  method AddResourceTypeThresholds(metric: string, types: seq<string>, budget: JsValue, d: DeviceType,
                                   k: MetricValueKind, list: seq<ResourceBudget>)
    returns (r: seq<ResourceBudget>)
    ensures r == list + ResourceEntries(metric, types, budget, d, k)
  {
    r := list;
    for i := 0 to |types|
      invariant r == list + ResourceEntries(metric, types[..i], budget, d, k)
    {
      assert types[..i + 1][..i] == types[..i];
      var v := GetPath(budget, [metric, types[i], DeviceKey(d), ValueKindKey(k)]);
      if !IsValidBudgetValue(v) {
        continue;
      }
      r := r + [ResourceBudget(types[i], v.n)];
    }
    assert types[..|types|] == types;
  }

  /** A failure on a prefix of the names is the failure of the whole list: the first
      `Object.keys` that throws ends the loop. */
  lemma {:induction false} ResourceThresholdsFailureSticks(names: seq<string>, i: nat, budget: JsValue,
                                                           d: DeviceType, k: MetricValueKind)
    requires i <= |names|
    requires ResourceThresholds(names[..i], budget, d, k).Failure?
    ensures ResourceThresholds(names, budget, d, k) == ResourceThresholds(names[..i], budget, d, k)
    decreases |names| - i
  {
    if i == |names| {
      assert names[..i] == names;
    } else {
      var n := names[..|names| - 1];
      assert n[..i] == names[..i];
      ResourceThresholdsFailureSticks(n, i, budget, d, k);
    }
  }

  /** The forEach callback of `addResourceMetricTresholdsToLighthouseBudget` for one name. */
  method AddResourceMetricThreshold(name: string, budget: JsValue, d: DeviceType, k: MetricValueKind,
                                    sizes: seq<ResourceBudget>, counts: seq<ResourceBudget>)
    returns (r: Result<(seq<ResourceBudget>, seq<ResourceBudget>), JsError>)
    ensures r == ResourceStep(name, budget, d, k, (sizes, counts))
  {
    if name == ResourceSizes {
      var keys := Keys(Get(budget, name));
      if keys.Failure? {
        return Failure(keys.error);
      }
      var s := AddResourceTypeThresholds(name, keys.value, budget, d, k, sizes);
      return Success((s, counts));
    }
    if name == ResourceRequests {
      var keys := Keys(Get(budget, name));
      if keys.Failure? {
        return Failure(keys.error);
      }
      var c := AddResourceTypeThresholds(name, keys.value, budget, d, k, counts);
      return Success((sizes, c));
    }
    r := Success((sizes, counts));
  }

  /** Appending to the accumulators commutes with a step. */
  lemma ResourceStepAppends(name: string, budget: JsValue, d: DeviceType, k: MetricValueKind,
                            sizes: seq<ResourceBudget>, counts: seq<ResourceBudget>,
                            acc: (seq<ResourceBudget>, seq<ResourceBudget>))
    ensures ResourceStep(name, budget, d, k, (sizes + acc.0, counts + acc.1))
         == Appended(sizes, counts, ResourceStep(name, budget, d, k, acc))
  {
    if name == ResourceSizes {
      match Keys(Get(budget, name))
      case Failure(e) =>
      case Success(types) =>
        assert sizes + acc.0 + ResourceEntries(name, types, budget, d, k)
            == sizes + (acc.0 + ResourceEntries(name, types, budget, d, k));
    } else if name == ResourceRequests {
      match Keys(Get(budget, name))
      case Failure(e) =>
      case Success(types) =>
        assert counts + acc.1 + ResourceEntries(name, types, budget, d, k)
            == counts + (acc.1 + ResourceEntries(name, types, budget, d, k));
    }
  }

  method AddResourceMetricThresholds(names: seq<string>, budget: JsValue, d: DeviceType, k: MetricValueKind,
                                     sizes: seq<ResourceBudget>, counts: seq<ResourceBudget>)
    returns (r: Result<(seq<ResourceBudget>, seq<ResourceBudget>), JsError>)
    ensures r == Appended(sizes, counts, ResourceThresholds(names, budget, d, k))
  {
    var s, c := sizes, counts;
    assert sizes + [] == sizes && counts + [] == counts;
    for i := 0 to |names|
      invariant ResourceThresholds(names[..i], budget, d, k).Success?
      invariant Success((s, c)) == Appended(sizes, counts, ResourceThresholds(names[..i], budget, d, k))
    {
      assert names[..i + 1][..i] == names[..i];
      ghost var acc := ResourceThresholds(names[..i], budget, d, k).value;
      ResourceStepAppends(names[i], budget, d, k, sizes, counts, acc);
      var step := AddResourceMetricThreshold(names[i], budget, d, k, s, c);
      if step.Failure? {
        ResourceThresholdsFailureSticks(names, i + 1, budget, d, k);
        return Failure(step.error);
      }
      s, c := step.value.0, step.value.1;
    }
    assert names[..|names|] == names;
    r := Success((s, c));
  }

  /** `createLighthouseBudget(performanceBudget, deviceType, metricValueType = current)` */
  method CreateLighthouseBudget(budget: JsValue, d: DeviceType, k: MetricValueKind := Current)
    returns (r: Result<LighthouseBudget, JsError>)
    ensures r == Translate(budget, d, k)
  {
    var keys := Keys(budget);
    if keys.Failure? {
      return Failure(keys.error);
    }
    var valid := ValidMetricNames(keys.value);
    var timings := AddTimingsMetricThresholds(TimingsMetricNames(valid), budget, d, k, []);
    assert [] + TimingEntries(TimingsMetricNames(valid), budget, d, k) == TimingEntries(TimingsMetricNames(valid), budget, d, k);
    var resources := AddResourceMetricThresholds(ResourceMetricNames(valid), budget, d, k, [], []);
    ghost var spec := ResourceThresholds(ResourceMetricNames(valid), budget, d, k);
    if resources.Failure? {
      return Failure(resources.error);
    }
    assert resources.value.0 == spec.value.0 && resources.value.1 == spec.value.1;
    r := Success(LighthouseBudget(timings, resources.value.0, resources.value.1));
  }

  // ---------------------------------------------------------------------------------------
  // Properties of the translation.

  /** Timing names and resource names partition the valid names. */
  lemma {:induction false} MetricNamesPartition(names: seq<string>)
    ensures multiset(TimingsMetricNames(names)) + multiset(ResourceMetricNames(names)) == multiset(names)
  {
    if names != [] {
      var prefix := names[..|names| - 1];
      MetricNamesPartition(prefix);
      assert names == prefix + [names[|names| - 1]];
    }
  }

  /** Each timing entry names one of the given metrics and carries exactly the value found at
      `budget[metric][device][kind]`, which is a number other than NaN; there are at most as
      many entries as names. */
  lemma {:induction false} TimingEntriesSound(names: seq<string>, budget: JsValue, d: DeviceType, k: MetricValueKind)
    ensures |TimingEntries(names, budget, d, k)| <= |names|
    ensures multiset(EntryMetrics(TimingEntries(names, budget, d, k))) <= multiset(names)
    ensures forall e :: e in TimingEntries(names, budget, d, k) ==>
              e.metric in names && !e.budget.NaN? && GetPath(budget, TimingPath(e.metric, d, k)) == Num(e.budget)
  {
    TimingEntriesPerName(names, budget, d, k);
    if names != [] {
      var prefix := names[..|names| - 1];
      TimingEntriesSound(prefix, budget, d, k);
      assert forall n :: n in prefix ==> n in names;
    }
  }

  /** A name gives at most as many entries as it occurs among the names. */
  lemma {:induction false} TimingEntriesPerName(names: seq<string>, budget: JsValue, d: DeviceType, k: MetricValueKind)
    ensures multiset(EntryMetrics(TimingEntries(names, budget, d, k))) <= multiset(names)
  {
    if names != [] {
      var prefix := names[..|names| - 1];
      var last := names[|names| - 1];
      TimingEntriesPerName(prefix, budget, d, k);
      var before := TimingEntries(prefix, budget, d, k);
      var added := TimingEntry(last, budget, d, k);
      assert EntryMetrics(before + added) == EntryMetrics(before) + EntryMetrics(added);
      assert multiset(EntryMetrics(added)) <= multiset{last};
      assert names == prefix + [last];
    }
  }


  /** Every given metric whose value is valid gets an entry. */
  lemma {:induction false} TimingEntriesComplete(names: seq<string>, budget: JsValue, d: DeviceType, k: MetricValueKind, m: string)
    requires m in names && IsValidBudgetValue(GetPath(budget, TimingPath(m, d, k)))
    ensures TimingBudget(m, GetPath(budget, TimingPath(m, d, k)).n) in TimingEntries(names, budget, d, k)
  {
    var prefix := names[..|names| - 1];
    if names[|names| - 1] != m {
      assert names == prefix + [names[|names| - 1]];
      TimingEntriesComplete(prefix, budget, d, k, m);
    }
  }

  /** Each resource entry names one of the given resource types and carries exactly the value
      found at `budget[metric][type][device][kind]`, a number other than NaN. */
  lemma {:induction false} ResourceEntriesSound(metric: string, types: seq<string>, budget: JsValue, d: DeviceType, k: MetricValueKind)
    ensures |ResourceEntries(metric, types, budget, d, k)| <= |types|
    ensures forall e :: e in ResourceEntries(metric, types, budget, d, k) ==>
              e.resourceType in types && !e.budget.NaN?
              && GetPath(budget, ResourcePath(metric, e.resourceType, d, k)) == Num(e.budget)
  {
    if types != [] {
      var prefix := types[..|types| - 1];
      ResourceEntriesSound(metric, prefix, budget, d, k);
      assert forall n :: n in prefix ==> n in types;
    }
  }

  /** Every resource type whose value is valid gets an entry. */
  lemma {:induction false} ResourceEntriesComplete(metric: string, types: seq<string>, budget: JsValue, d: DeviceType,
                                                   k: MetricValueKind, t: string)
    requires t in types && IsValidBudgetValue(GetPath(budget, ResourcePath(metric, t, d, k)))
    ensures ResourceBudget(t, GetPath(budget, ResourcePath(metric, t, d, k)).n) in ResourceEntries(metric, types, budget, d, k)
  {
    var prefix := types[..|types| - 1];
    if types[|types| - 1] != t {
      assert types == prefix + [types[|types| - 1]];
      ResourceEntriesComplete(metric, prefix, budget, d, k, t);
    }
  }

  /** `Object.keys` throws exactly when a resource metric's value is `null` or `undefined`. */
  predicate KeysThrow(v: JsValue) {
    v.Undefined? || v.Null?
  }

  /** The resource-type keys of a resource metric's value (empty when it has none). */
  function ResourceTypesOf(budget: JsValue, metric: string): seq<string> {
    match Keys(Get(budget, metric))
    case Success(types) => types
    case Failure(_) => []
  }

  /** The resource step fails iff the name is a resource metric whose value is `null`/`undefined`. */
  lemma ResourceThresholdsFailIff(names: seq<string>, budget: JsValue, d: DeviceType, k: MetricValueKind)
    ensures ResourceThresholds(names, budget, d, k).Failure?
        <==> exists n :: n in names && IsResourceMetric(n) && KeysThrow(Get(budget, n))
  {
    if names != [] {
      var prefix := names[..|names| - 1];
      ResourceThresholdsFailIff(prefix, budget, d, k);
      assert names == prefix + [names[|names| - 1]];
    }
  }

  /** `resource-sizes` feeds only `resourceSizes` and `resource-requests` only `resourceCounts`:
      every entry comes from the matching family's resource types and value lookup. */
  lemma {:induction false} ResourceThresholdsRouting(names: seq<string>, budget: JsValue, d: DeviceType, k: MetricValueKind)
    requires ResourceThresholds(names, budget, d, k).Success?
    ensures var (sizes, counts) := ResourceThresholds(names, budget, d, k).value;
      && (forall e :: e in sizes ==>
            (ResourceSizes in names
             && e in ResourceEntries(ResourceSizes, ResourceTypesOf(budget, ResourceSizes), budget, d, k)))
      && (forall e :: e in counts ==>
            (ResourceRequests in names
             && e in ResourceEntries(ResourceRequests, ResourceTypesOf(budget, ResourceRequests), budget, d, k)))
  {
    if names != [] {
      var prefix := names[..|names| - 1];
      ResourceThresholdsRouting(prefix, budget, d, k);
      assert forall n :: n in prefix ==> n in names;
    }
  }

  /** Every valid value of a resource family present in the names gets an entry in its list. */
  lemma {:induction false} ResourceThresholdsComplete(names: seq<string>, budget: JsValue, d: DeviceType, k: MetricValueKind,
                                                      metric: string, t: string)
    requires ResourceThresholds(names, budget, d, k).Success?
    requires metric in names && IsResourceMetric(metric)
    requires t in ResourceTypesOf(budget, metric) && IsValidBudgetValue(GetPath(budget, ResourcePath(metric, t, d, k)))
    ensures var e := ResourceBudget(t, GetPath(budget, ResourcePath(metric, t, d, k)).n);
      var (sizes, counts) := ResourceThresholds(names, budget, d, k).value;
      if metric == ResourceSizes then e in sizes else e in counts
  {
    var prefix := names[..|names| - 1];
    var last := names[|names| - 1];
    assert names == prefix + [last];
    assert ResourceThresholds(prefix, budget, d, k).Success?;
    if last == metric {
      ResourceEntriesComplete(metric, ResourceTypesOf(budget, metric), budget, d, k, t);
    } else {
      ResourceThresholdsComplete(prefix, budget, d, k, metric, t);
    }
  }

  /** The translation throws iff the budget is `null`/`undefined` or one of its resource
      metrics holds `null`/`undefined`. */
  lemma TranslateFailsIff(budget: JsValue, d: DeviceType, k: MetricValueKind)
    ensures Translate(budget, d, k).Failure? <==>
              (KeysThrow(budget)
               || exists n :: n in Keys(budget).value && IsResourceMetric(n) && KeysThrow(Get(budget, n)))
  {
    if !KeysThrow(budget) {
      var valid := ValidMetricNames(Keys(budget).value);
      ResourceThresholdsFailIff(ResourceMetricNames(valid), budget, d, k);
      assert forall n :: IsResourceMetric(n) ==> IsMetricName(n);
    }
  }

  /** The timing list of a successful translation is the entry list of its timing names. */
  lemma TranslatedTimingsAre(budget: JsValue, d: DeviceType, k: MetricValueKind)
    requires Translate(budget, d, k).Success?
    ensures Translate(budget, d, k).value.timings
         == TimingEntries(TimingsMetricNames(ValidMetricNames(Keys(budget).value)), budget, d, k)
  {
  }

  /** A timing entry for metric m exists iff m is a key of the budget, a member of the metric
      enumeration, not a resource family, and `budget[m][device][kind]` is a number other than
      NaN; that number is the entry's budget; there are at most as many entries as keys. */
  lemma TranslatedTimings(budget: JsValue, d: DeviceType, k: MetricValueKind, m: string)
    requires Translate(budget, d, k).Success?
    ensures var lb := Translate(budget, d, k).value;
      && |lb.timings| <= |Keys(budget).value|
      && ((exists t :: t in lb.timings && t.metric == m) <==>
            (m in Keys(budget).value && IsMetricName(m) && !IsResourceMetric(m)
             && IsValidBudgetValue(GetPath(budget, TimingPath(m, d, k)))))
      && (forall t :: t in lb.timings ==> GetPath(budget, TimingPath(t.metric, d, k)) == Num(t.budget))
  {
    var names := TimingsMetricNames(ValidMetricNames(Keys(budget).value));
    TranslatedTimingsAre(budget, d, k);
    TimingEntriesSound(names, budget, d, k);
    if m in names && IsValidBudgetValue(GetPath(budget, TimingPath(m, d, k))) {
      TimingEntriesComplete(names, budget, d, k, m);
    }
  }

  /** Resource entries: each one comes from a key of its own family's object with the value
      found at `budget[family][type][device][kind]`, and every such valid value is emitted. */
  lemma TranslatedResources(budget: JsValue, d: DeviceType, k: MetricValueKind, metric: string, t: string)
    requires Translate(budget, d, k).Success?
    requires IsResourceMetric(metric)
    ensures var lb := Translate(budget, d, k).value;
      var list := if metric == ResourceSizes then lb.resourceSizes else lb.resourceCounts;
      && (forall e :: e in list ==>
            (metric in Keys(budget).value && e.resourceType in ResourceTypesOf(budget, metric)
             && IsValidBudgetValue(GetPath(budget, ResourcePath(metric, e.resourceType, d, k)))
             && GetPath(budget, ResourcePath(metric, e.resourceType, d, k)) == Num(e.budget)))
      && (metric in Keys(budget).value && t in ResourceTypesOf(budget, metric)
            && IsValidBudgetValue(GetPath(budget, ResourcePath(metric, t, d, k)))
          ==> ResourceBudget(t, GetPath(budget, ResourcePath(metric, t, d, k)).n) in list)
  {
    var names := ResourceMetricNames(ValidMetricNames(Keys(budget).value));
    ResourceThresholdsRouting(names, budget, d, k);
    ResourceEntriesSound(metric, ResourceTypesOf(budget, metric), budget, d, k);
    if metric in Keys(budget).value && t in ResourceTypesOf(budget, metric)
       && IsValidBudgetValue(GetPath(budget, ResourcePath(metric, t, d, k))) {
      ResourceThresholdsComplete(names, budget, d, k, metric, t);
    }
  }

  /** A budget none of whose keys is a known metric (only `url`, say) translates to three empty lists. */
  lemma NoMetricKeysGiveEmptyBudget(budget: JsValue, d: DeviceType, k: MetricValueKind)
    requires budget.Obj?
    requires forall i :: 0 <= i < |budget.props| ==> !IsMetricName(budget.props[i].0)
    ensures Translate(budget, d, k) == Success(EmptyLighthouseBudget)
  {
  }
}
