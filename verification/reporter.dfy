/**
 * The reporter of the synthetic audit pipeline: its configuration defaults, the report file
 * name, writing one file per requested format into the report directory, and clearing that
 * directory. Rendering (the HTML generator, `JSON.stringify`), `path.join`, the working
 * directory and `Date.now()` are parameters.
 */
module Reporters {
  import opened Wrappers
  import opened JsValues
  import opened FileSystems
  import opened LighthouseBudgets

  const Html := "html"
  const Json := "json"

  datatype ReporterConfig = ReporterConfig(reportFormats: seq<string>, reportPrefixName: string, reportOutputPath: string)

  /** The reporter configuration as the user gives it: any field may be missing. */
  datatype ReporterConfigInput = ReporterConfigInput(
    reportFormats: Option<seq<string>>,
    reportPrefixName: Option<string>,
    reportOutputPath: Option<string>)

  /** `value || fallback` for a string field: a missing or empty string is falsy. */
  function StringOr(value: Option<string>, fallback: string): string {
    if value.Some? && value.value != "" then value.value else fallback
  }

  /** Each field of the configuration, or its default when the field is falsy. An array is
      always truthy, so a given empty list of formats is kept. */
  function ResolveReporterConfig(initial: Option<ReporterConfigInput>, defaults: ReporterConfig): ReporterConfig {
    var given := if initial.Some? then initial.value else ReporterConfigInput(None, None, None);
    ReporterConfig(
      if given.reportFormats.Some? then given.reportFormats.value else defaults.reportFormats,
      StringOr(given.reportPrefixName, defaults.reportPrefixName),
      StringOr(given.reportOutputPath, defaults.reportOutputPath))
  }

  lemma ReporterConfigDefaults(initial: Option<ReporterConfigInput>, defaults: ReporterConfig)
    ensures var c := ResolveReporterConfig(initial, defaults);
      && (initial.None? ==> c == defaults)
      && (initial.Some? && initial.value.reportFormats.Some? ==> c.reportFormats == initial.value.reportFormats.value)
      && (initial.Some? && initial.value.reportPrefixName == Some("") ==> c.reportPrefixName == defaults.reportPrefixName)
      && (initial.Some? && initial.value.reportOutputPath == Some("") ==> c.reportOutputPath == defaults.reportOutputPath)
      && (c.reportPrefixName == "" ==> defaults.reportPrefixName == "")
      && (c.reportOutputPath == "" ==> defaults.reportOutputPath == "")
  {
  }

  // ---------------------------------------------------------------------------------------
  // Report file names.

  /** `[A-Za-z0-9]`: the characters the pattern `[\W_]` does not match. */
  predicate IsAlnum(c: char) {
    'a' <= c <= 'z' || 'A' <= c <= 'Z' || '0' <= c <= '9'
  }

  predicate NoDoubleDash(s: string) {
    forall i :: 0 <= i < |s| - 1 ==> !(s[i] == '-' && s[i + 1] == '-')
  }

  predicate PlainName(s: string) {
    forall i :: 0 <= i < |s| ==> IsAlnum(s[i]) || s[i] == '-'
  }

  /** `s.replace(/[\W_]+/gi, '-')`: each maximal run of characters other than ASCII letters
      and digits becomes one `-`. */
  function Sanitize(s: string): (r: string)
    ensures PlainName(r) && NoDoubleDash(r)
    ensures |r| == 0 <==> |s| == 0
    ensures |r| > 0 ==> (r[|r| - 1] == '-' <==> !IsAlnum(s[|s| - 1]))
  {
    if s == [] then []
    else
      var p := Sanitize(s[..|s| - 1]);
      var c := s[|s| - 1];
      if IsAlnum(c) then p + [c]
      else if p != [] && p[|p| - 1] == '-' then p
      else p + ['-']
  }

  /** The letters and digits of a string, in order. */
  function Alnums(s: string): string {
    if s == [] then []
    else Alnums(s[..|s| - 1]) + (if IsAlnum(s[|s| - 1]) then [s[|s| - 1]] else [])
  }

  /** Sanitising keeps every letter and digit, in order, and adds none. */
  lemma {:induction false} SanitizeKeepsAlnums(s: string)
    ensures Alnums(Sanitize(s)) == Alnums(s)
  {
    if s != [] {
      var p := Sanitize(s[..|s| - 1]);
      SanitizeKeepsAlnums(s[..|s| - 1]);
      var c := s[|s| - 1];
      if IsAlnum(c) {
        assert (p + [c])[..|p|] == p;
      } else if !(p != [] && p[|p| - 1] == '-') {
        assert (p + ['-'])[..|p|] == p;
      }
    }
  }

  /** A string that has only letters, digits and single dashes is its own sanitised form. */
  lemma {:induction false} SanitizeFixes(t: string)
    requires PlainName(t) && NoDoubleDash(t)
    ensures Sanitize(t) == t
  {
    if t != [] {
      var q := t[..|t| - 1];
      SanitizeFixes(q);
      if t[|t| - 1] == '-' && q != [] {
        assert q[|q| - 1] == t[|t| - 2];
      }
      assert q + [t[|t| - 1]] == t;
    }
  }

  /** Sanitising is idempotent. */
  lemma SanitizeIdempotent(s: string)
    ensures Sanitize(Sanitize(s)) == Sanitize(s)
  {
    SanitizeFixes(Sanitize(s));
  }

  /** A non-empty run of characters outside `[A-Za-z0-9]` becomes a single dash. */
  lemma {:induction false} SanitizeRun(s: string)
    requires s != [] && forall i :: 0 <= i < |s| ==> !IsAlnum(s[i])
    ensures Sanitize(s) == "-"
  {
    if |s| > 1 {
      SanitizeRun(s[..|s| - 1]);
    }
  }

  /** `${prefix}-${urlName}-${deviceType}-${Date.now()}` with prefix and URL name sanitised. */
  function ReportFileName(prefixName: string, urlName: string, d: DeviceType, now: nat): string {
    Sanitize(prefixName) + "-" + Sanitize(urlName) + "-" + DeviceKey(d) + "-" + DecimalString(now)
  }

  lemma PlainJoin(a: string, b: string)
    requires PlainName(a) && PlainName(b)
    ensures PlainName(a + b)
  {
    forall i | 0 <= i < |a + b|
      ensures IsAlnum((a + b)[i]) || (a + b)[i] == '-'
    {
      if i >= |a| {
        assert (a + b)[i] == b[i - |a|];
      }
    }
  }

  /** A report file name consists of letters, digits and dashes only, so joining it to the
      report directory names an entry of that directory. */
  lemma ReportFileNamePlain(prefixName: string, urlName: string, d: DeviceType, now: nat)
    ensures PlainName(ReportFileName(prefixName, urlName, d, now))
  {
    var dash := "-";
    PlainJoin(Sanitize(prefixName), dash);
    PlainJoin(Sanitize(prefixName) + dash, Sanitize(urlName));
    PlainJoin(Sanitize(prefixName) + dash + Sanitize(urlName), dash);
    PlainJoin(Sanitize(prefixName) + dash + Sanitize(urlName) + dash, DeviceKey(d));
    PlainJoin(Sanitize(prefixName) + dash + Sanitize(urlName) + dash + DeviceKey(d), dash);
    PlainJoin(Sanitize(prefixName) + dash + Sanitize(urlName) + dash + DeviceKey(d) + dash, DecimalString(now));
  }

  /** Reports for the same URL and device written at different milliseconds get different names. */
  lemma ReportFileNameUnique(prefixName: string, urlName: string, d: DeviceType, now: nat, later: nat)
    requires now != later
    ensures ReportFileName(prefixName, urlName, d, now) != ReportFileName(prefixName, urlName, d, later)
  {
    var head := Sanitize(prefixName) + "-" + Sanitize(urlName) + "-" + DeviceKey(d) + "-";
    assert ReportFileName(prefixName, urlName, d, now) == head + DecimalString(now);
    assert ReportFileName(prefixName, urlName, d, later) == head + DecimalString(later);
    if head + DecimalString(now) == head + DecimalString(later) {
      assert (head + DecimalString(now))[|head|..] == DecimalString(now);
      assert (head + DecimalString(later))[|head|..] == DecimalString(later);
      DecimalStringInjective(now, later);
    }
  }

  // ---------------------------------------------------------------------------------------
  // Saving and clearing, over the file tree.

  function WithDirectory(tree: Tree, dir: string): (t: Tree)
    ensures dir in t
  {
    if dir in tree then tree else tree[dir := []]
  }

  function WriteIf(requested: bool, l: Listing, name: string, content: string): Result<Listing, JsError> {
    if requested then WriteEntry(l, name, content) else Success(l)
  }

  /** Creates the directory when missing, then writes `<name>.html` if the formats include
      `html` and `<name>.json` if they include `json`, stopping at the first failed write. */
  function SaveReport(tree: Tree, dir: string, name: string, formats: seq<string>, html: string, json: string)
    : (Outcome<JsError>, Tree)
  {
    var t0 := WithDirectory(tree, dir);
    match WriteIf(Html in formats, t0[dir], name + ".html", html)
    case Failure(e) => (Fail(e), t0)
    case Success(l1) =>
      match WriteIf(Json in formats, l1, name + ".json", json)
      case Failure(e) => (Fail(e), t0[dir := l1])
      case Success(l2) => (Pass, t0[dir := l2])
  }

  /** Creating the directory first does not change what saving does. */
  lemma SaveReportAfterMakingDirectory(tree: Tree, dir: string, name: string, formats: seq<string>, html: string, json: string)
    ensures SaveReport(WithDirectory(tree, dir), dir, name, formats, html, json) == SaveReport(tree, dir, name, formats, html, json)
  {
    assert WithDirectory(WithDirectory(tree, dir), dir) == WithDirectory(tree, dir);
  }

  /** After saving, the report directory exists and no other directory has changed. */
  lemma SaveReportTouchesOnlyItsDirectory(tree: Tree, dir: string, name: string, formats: seq<string>, html: string, json: string)
    ensures var t := SaveReport(tree, dir, name, formats, html, json).1;
      && dir in t
      && forall p :: p != dir ==> (p in t <==> p in tree) && (p in tree ==> t[p] == tree[p])
  {
  }

  lemma HtmlAndJsonNamesDiffer(name: string)
    ensures name + ".html" != name + ".json"
  {
    assert (name + ".html")[|name| + 1] == 'h';
    assert (name + ".json")[|name| + 1] == 'j';
  }

  /** Saving fails iff a requested target is an existing directory (the HTML one is tried first). */
  lemma SaveReportFailsIff(tree: Tree, dir: string, name: string, formats: seq<string>, html: string, json: string)
    ensures var before := WithDirectory(tree, dir)[dir];
      SaveReport(tree, dir, name, formats, html, json).0.Fail? <==>
        (Html in formats && Find(before, name + ".html") == Some(Directory))
        || (Json in formats && Find(before, name + ".json") == Some(Directory))
  {
    HtmlAndJsonNamesDiffer(name);
  }

  /** On success the HTML file holds the rendered HTML iff `html` is requested and the JSON file
      the JSON iff `json` is requested (an unrequested name keeps what it had), and no other
      entry changes. Only whether a format is listed matters, not how often. */
  lemma SaveReportWrites(tree: Tree, dir: string, name: string, formats: seq<string>, html: string, json: string)
    requires SaveReport(tree, dir, name, formats, html, json).0.Pass?
    ensures var before := WithDirectory(tree, dir)[dir];
      var after := SaveReport(tree, dir, name, formats, html, json).1[dir];
      && Find(after, name + ".html") == (if Html in formats then Some(File(html)) else Find(before, name + ".html"))
      && Find(after, name + ".json") == (if Json in formats then Some(File(json)) else Find(before, name + ".json"))
      && forall n :: n != name + ".html" && n != name + ".json" ==> Find(after, n) == Find(before, n)
  {
    HtmlAndJsonNamesDiffer(name);
  }

  /** `clearReportFilesDirectory`: nothing happens when the directory is missing; otherwise its
      entries are unlinked in listing order, and the first subdirectory met stops the loop with
      an error, leaving it and the entries after it in place. */
  function ClearDirectory(tree: Tree, dir: string): (Outcome<JsError>, Tree) {
    if dir !in tree then (Pass, tree)
    else
      match FirstDirectory(tree[dir])
      case None => (Pass, tree[dir := []])
      case Some(k) => (Fail(IllegalOnDirectory), tree[dir := tree[dir][k..]])
  }

  /** Clearing succeeds iff the directory is missing or holds only files, and then leaves it
      missing or empty; only the report directory ever changes, and only files are removed. */
  lemma ClearDirectoryProperties(tree: Tree, dir: string)
    ensures var (o, t) := ClearDirectory(tree, dir);
      && (forall p :: p != dir ==> (p in t <==> p in tree) && (p in tree ==> t[p] == tree[p]))
      && (dir in t <==> dir in tree)
      && (o.Pass? <==> dir !in tree || forall i :: 0 <= i < |tree[dir]| ==> tree[dir][i].1.File?)
      && (o.Pass? && dir in tree ==> t[dir] == [])
      && (dir in tree ==>
            exists k :: 0 <= k <= |tree[dir]| && t[dir] == tree[dir][k..] && forall i :: 0 <= i < k ==> tree[dir][i].1.File?)
  {
    if dir in tree {
      var l := tree[dir];
      match FirstDirectory(l)
      case None =>
        assert ClearDirectory(tree, dir).1[dir] == l[|l|..];
      case Some(k) =>
    }
  }

  /** The message a failed report carries: the device names which report failed. */
  function ReportError(d: DeviceType, e: JsError): JsError {
    Error("Creating performance report for " + DeviceKey(d) + " devices failed\n\n" + ErrorString(e))
  }

  class Reporter {
    const config: ReporterConfig
    const fs: FileSystem
    /** `process.cwd()` */
    const cwd: string
    /** `path.join` */
    const join: (string, string) -> string
    /** `ReportGenerator.generateReportHtml` */
    const renderHtml: JsValue -> string
    /** `JSON.stringify` */
    const renderJson: JsValue -> string

    constructor(fs: FileSystem, initial: Option<ReporterConfigInput>, defaults: ReporterConfig, cwd: string,
                join: (string, string) -> string, renderHtml: JsValue -> string, renderJson: JsValue -> string)
      ensures config == ResolveReporterConfig(initial, defaults)
      ensures this.fs == fs && this.cwd == cwd && this.join == join
      ensures this.renderHtml == renderHtml && this.renderJson == renderJson
    {
      this.config := ResolveReporterConfig(initial, defaults);
      this.fs := fs;
      this.cwd := cwd;
      this.join := join;
      this.renderHtml := renderHtml;
      this.renderJson := renderJson;
    }

    function ReportFilesDirectoryPath(): string {
      join(cwd, config.reportOutputPath)
    }

    /** What saving one audit result produces, from the current file tree. */
    function SavedReport(tree: Tree, result: JsValue, urlName: string, d: DeviceType, now: nat): (Outcome<JsError>, Tree) {
      SaveReport(tree, ReportFilesDirectoryPath(), ReportFileName(config.reportPrefixName, urlName, d, now),
                 config.reportFormats, renderHtml(Get(result, "lhr")), renderJson(Get(result, "lhr")))
    }

    /** One `writeFileSync` into the report directory, when its format is requested. */
    method WriteIfRequested(requested: bool, dir: string, name: string, content: string) returns (r: Outcome<JsError>)
      requires dir in fs.tree
      modifies fs
      ensures match WriteIf(requested, old(fs.tree)[dir], name, content)
        case Success(l) => r == Pass && fs.tree == old(fs.tree)[dir := l]
        case Failure(e) => r == Fail(e) && fs.tree == old(fs.tree)
    {
      r := Pass;
      if requested {
        r := fs.WriteFile(dir, name, content);
      }
    }

    /** `generateAndSaveReport`: creates the report directory when it is missing, then writes
        the requested files. */
    method GenerateAndSaveReport(result: JsValue, urlName: string, d: DeviceType, now: nat) returns (r: Outcome<JsError>)
      modifies fs
      ensures (r, fs.tree) == SavedReport(old(fs.tree), result, urlName, d, now)
    {
      var name := ReportFileName(config.reportPrefixName, urlName, d, now);
      var dir := ReportFilesDirectoryPath();
      var html, json := renderHtml(Get(result, "lhr")), renderJson(Get(result, "lhr"));
      if !fs.Exists(dir) {
        fs.MakeDirectory(dir);
      }
      SaveReportAfterMakingDirectory(old(fs.tree), dir, name, config.reportFormats, html, json);
      r := SaveReportFiles(dir, name, html, json);
    }

    /** The two `writeFileSync` calls, into a directory that exists. */
    method SaveReportFiles(dir: string, name: string, html: string, json: string) returns (r: Outcome<JsError>)
      requires dir in fs.tree
      modifies fs
      ensures (r, fs.tree) == SaveReport(old(fs.tree), dir, name, config.reportFormats, html, json)
    {
      ghost var t0 := fs.tree;
      r := WriteIfRequested(Html in config.reportFormats, dir, name + ".html", html);
      if r.Pass? {
        ghost var t1 := fs.tree;
        assert t1 == t0[dir := t1[dir]];
        r := WriteIfRequested(Json in config.reportFormats, dir, name + ".json", json);
        assert fs.tree == t0[dir := fs.tree[dir]];
      }
    }

    /** `createReport`: saves the report and wraps any failure with the device's message. */
    method CreateReport(result: JsValue, urlName: string, d: DeviceType, now: nat) returns (r: Outcome<JsError>)
      modifies fs
      ensures var (o, t) := SavedReport(old(fs.tree), result, urlName, d, now);
        && fs.tree == t
        && r == (if o.Fail? then Fail(ReportError(d, o.error)) else Pass)
    {
      r := GenerateAndSaveReport(result, urlName, d, now);
      if r.Fail? {
        r := Fail(ReportError(d, r.error));
      }
    }

    method ClearReportFilesDirectory() returns (r: Outcome<JsError>)
      modifies fs
      ensures (r, fs.tree) == ClearDirectory(old(fs.tree), ReportFilesDirectoryPath())
    {
      var dir := ReportFilesDirectoryPath();
      if !fs.Exists(dir) {
        return Pass;
      }
      var listed := fs.ReadDirectory(dir);
      var names := listed.value;
      ghost var l := fs.tree[dir];
      for i := 0 to |names|
        invariant fs.tree == old(fs.tree)[dir := l[i..]]
        invariant forall j :: 0 <= j < i ==> l[j].1.File?
      {
        UnlinkFirst(l, i);
        r := fs.Unlink(dir, names[i]);
        if r.Fail? {
          assert FirstDirectory(l) == Some(i) by { FirstDirectoryAt(l, i); }
          return;
        }
      }
      assert FirstDirectory(l).None?;
      assert l[|names|..] == [];
      r := Pass;
    }
  }

  /** Unlinking the first remaining entry of a listing by its name. */
  lemma UnlinkFirst(l: Listing, i: nat)
    requires i < |l|
    ensures RemoveEntry(l[i..], l[i].0) == if l[i].1.Directory? then Failure(IllegalOnDirectory) else Success(l[i + 1..])
  {
    assert l[i..][0] == l[i] && l[i..][1..] == l[i + 1..];
  }

  lemma {:induction false} FirstDirectoryAt(l: Listing, i: nat)
    requires i < |l| && l[i].1.Directory? && forall j :: 0 <= j < i ==> l[j].1.File?
    ensures FirstDirectory(l) == Some(i)
  {
    if i > 0 {
      FirstDirectoryAt(l[1..], i - 1);
    }
  }
}
