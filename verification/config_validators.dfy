/** The checks the audit pipeline makes on its configuration before doing anything: `urls`,
    then `numberOfAuditRuns` when given, then `budgets` when given; the first violation is
    thrown. The configuration is only read. */
module ConfigValidators {
  import opened Wrappers
  import opened JsValues

  const UrlsMissing := Error("Specify \"urls\" property to run a performance audit")
  const UrlsNotObject := Error("The \"urls\" property must be an object")
  const UrlsEmpty := Error("Specify at least one URL in the \"urls\" property to run a performance audit")
  const UrlNotString := Error("The values of the \"urls\" property object must be a string")
  const BudgetsNotArray := Error("The \"budgets\" property must be an array")
  const BudgetUrlNotString := Error("The \"url\" property in budget must be a string")
  const RunsNotNumber := Error("The \"numberOfAuditRuns\" property must be a number")
  const RunsBelowOne := Error("The value of the \"numberOfAuditRuns\" property must not be less than one")

  /** The `forEach` over `Object.values(urls)`: the first non-string value throws. */
  function CheckUrlValues(props: seq<(string, JsValue)>): (r: Outcome<JsError>)
    ensures r.Pass? <==> forall i :: 0 <= i < |props| ==> props[i].1.Str?
    ensures r.Fail? ==> r.error == UrlNotString
  {
    if props == [] then Pass
    else if !props[0].1.Str? then Fail(UrlNotString)
    else
      var r := CheckUrlValues(props[1..]);
      assert forall i :: 1 <= i < |props| ==> props[i] == props[1..][i - 1];
      r
  }

  /** `validateUrlsProperty`: `typeof urls === 'object'` and not an array and not `null` leaves
      only a plain object. */
  function ValidateUrlsProperty(urls: JsValue): Outcome<JsError> {
    if urls.Undefined? then Fail(UrlsMissing)
    else if !urls.Obj? then Fail(UrlsNotObject)
    else if |urls.props| == 0 then Fail(UrlsEmpty)
    else CheckUrlValues(urls.props)
  }

  /** A budget whose `url` can be read and is a string. */
  predicate HasStringUrl(budget: JsValue) {
    !budget.Undefined? && !budget.Null? && Get(budget, "url").Str?
  }

  /** The `forEach` over the budgets: reading `url` of `undefined` or `null` throws a TypeError;
      a non-string `url` throws the validator's error. */
  function CheckBudgetUrls(items: seq<JsValue>): (r: Outcome<JsError>)
    ensures r.Pass? <==> forall i :: 0 <= i < |items| ==> HasStringUrl(items[i])
    ensures r.Fail? ==> r.error == BudgetUrlNotString || r.error.name == "TypeError"
  {
    if items == [] then Pass
    else
      match Member(items[0], "url")
      case Failure(e) => Fail(e)
      case Success(url) =>
        if !url.Str? then Fail(BudgetUrlNotString)
        else
          var r := CheckBudgetUrls(items[1..]);
          assert forall i :: 1 <= i < |items| ==> items[i] == items[1..][i - 1];
          r
  }

  /** `validateBudgetsProperty` */
  function ValidateBudgetsProperty(budgets: JsValue): Outcome<JsError> {
    if !budgets.Arr? then Fail(BudgetsNotArray) else CheckBudgetUrls(budgets.items)
  }

  predicate LessThanOne(n: Number) {
    n.NegInfinity? || (n.Finite? && n.value < 1.0)
  }

  /** `validateNumberOfAuditRunsProperty` */
  function ValidateNumberOfAuditRunsProperty(runs: JsValue): Outcome<JsError> {
    if !IsNumberNotNaN(runs) then Fail(RunsNotNumber)
    else if LessThanOne(runs.n) then Fail(RunsBelowOne)
    else Pass
  }

  /** `validatePerformanceConfig` */
  function ValidatePerformanceConfig(config: JsValue): Outcome<JsError> {
    var urls := Get(config, "urls");
    var runs := Get(config, "numberOfAuditRuns");
    var budgets := Get(config, "budgets");
    match ValidateUrlsProperty(urls)
    case Fail(e) => Fail(e)
    case Pass =>
      match (if runs.Undefined? then Pass else ValidateNumberOfAuditRunsProperty(runs))
      case Fail(e) => Fail(e)
      case Pass => if budgets.Undefined? then Pass else ValidateBudgetsProperty(budgets)
  }

  /** A non-empty map of string URLs. */
  predicate WellFormedUrls(urls: JsValue) {
    urls.Obj? && |urls.props| > 0 && forall i :: 0 <= i < |urls.props| ==> urls.props[i].1.Str?
  }

  /** Absent, or a number that is not NaN and at least one (fractions and +Infinity included). */
  predicate WellFormedRuns(runs: JsValue) {
    runs.Undefined? || (runs.Num? && (runs.n.PosInfinity? || (runs.n.Finite? && runs.n.value >= 1.0)))
  }

  /** Absent, or an array of budgets that each carry a string `url`. */
  predicate WellFormedBudgets(budgets: JsValue) {
    budgets.Undefined? || (budgets.Arr? && forall i :: 0 <= i < |budgets.items| ==> HasStringUrl(budgets.items[i]))
  }

  predicate WellFormedConfig(config: JsValue) {
    && WellFormedUrls(Get(config, "urls"))
    && WellFormedRuns(Get(config, "numberOfAuditRuns"))
    && WellFormedBudgets(Get(config, "budgets"))
  }

  /** A configuration passes exactly when it is well formed. */
  lemma ValidateIffWellFormed(config: JsValue)
    ensures ValidatePerformanceConfig(config).Pass? <==> WellFormedConfig(config)
  {
  }

  /** Each error names the first violated rule, in the order urls, numberOfAuditRuns, budgets. */
  lemma FirstViolationDecides(config: JsValue)
    ensures var r := ValidatePerformanceConfig(config);
      var urls := Get(config, "urls");
      var runs := Get(config, "numberOfAuditRuns");
      var budgets := Get(config, "budgets");
      && (r == Fail(UrlsMissing) <==> urls.Undefined?)
      && (r == Fail(UrlsNotObject) <==> !urls.Undefined? && !urls.Obj?)
      && (r == Fail(UrlsEmpty) <==> urls.Obj? && |urls.props| == 0)
      && (r == Fail(UrlNotString) <==> urls.Obj? && |urls.props| > 0 && !WellFormedUrls(urls))
      && (r == Fail(RunsNotNumber) <==> WellFormedUrls(urls) && !runs.Undefined? && !IsNumberNotNaN(runs))
      && (r == Fail(RunsBelowOne) <==> WellFormedUrls(urls) && IsNumberNotNaN(runs) && LessThanOne(runs.n))
      && (r == Fail(BudgetsNotArray) <==>
            WellFormedUrls(urls) && WellFormedRuns(runs) && !budgets.Undefined? && !budgets.Arr?)
      && (r.Fail? && r.error in {BudgetUrlNotString, JsError("TypeError", r.error.message)} <==>
            WellFormedUrls(urls) && WellFormedRuns(runs) && budgets.Arr? && !WellFormedBudgets(budgets))
  {
  }

  /** Run counts are not rounded: 1.5 and +Infinity pass, 0.5 does not. */
  lemma RunCountExamples()
    ensures ValidateNumberOfAuditRunsProperty(Num(Finite(1.5))).Pass?
    ensures ValidateNumberOfAuditRunsProperty(Num(PosInfinity)).Pass?
    ensures ValidateNumberOfAuditRunsProperty(Num(Finite(0.5))) == Fail(RunsBelowOne)
    ensures ValidateNumberOfAuditRunsProperty(Num(NaN)) == Fail(RunsNotNumber)
    ensures ValidateNumberOfAuditRunsProperty(Str("3")) == Fail(RunsNotNumber)
  {
  }
}
