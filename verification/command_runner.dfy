/**
 * Running a shell command and waiting until it reports readiness. The child process, its two
 * output streams and the timer are replaced by a trace of the events the listeners receive, in
 * arrival order. The timer is always armed, so a trace that ends before anything decided the
 * wait is followed by the timer firing.
 */
module CommandRunner {
  import opened Wrappers
  import opened JsValues

  /** What reaches a listener: a chunk on stdout or stderr, the exit of the process (its code,
      or `null` when it was ended by a signal) or the timer. */
  datatype Event = StdoutChunk(text: string) | StderrChunk(text: string) | Exit(code: Option<int>) | TimerFired

  /** `pattern` occurs in `text` starting at index i. */
  predicate OccursAt(text: string, pattern: string, i: int) {
    0 <= i <= |text| - |pattern| && text[i..i + |pattern|] == pattern
  }

  /** `text.includes(pattern)` */
  function Includes(text: string, pattern: string): (r: bool)
    ensures r <==> exists i :: OccursAt(text, pattern, i)
  {
    if |pattern| > |text| then false
    else if text[..|pattern|] == pattern then (assert OccursAt(text, pattern, 0); true)
    else
      var r := Includes(text[1..], pattern);
      assert forall i :: OccursAt(text, pattern, i) ==> i > 0 && OccursAt(text[1..], pattern, i - 1);
      assert forall i :: OccursAt(text[1..], pattern, i) ==> OccursAt(text, pattern, i + 1);
      r
  }

  /** The default timeout, in minutes. */
  const DefaultCommandTimeout: real := 5.0

  /** The delay of the timer: the timeout (5 minutes when none is given) in milliseconds. */
  function TimeoutMilliseconds(minutes: Option<real>): (ms: real)
    ensures minutes.None? ==> ms == 300000.0
    ensures minutes.Some? ==> ms / 60000.0 == minutes.value
  {
    minutes.GetOr(DefaultCommandTimeout) * 60.0 * 1000.0
  }

  /** `commandExecutionContextPath || process.cwd()` */
  function WorkingDirectory(contextPath: Option<string>, processCwd: string): (cwd: string)
    ensures contextPath.Some? && contextPath.value != "" ==> cwd == contextPath.value
    ensures (contextPath.None? || contextPath.value == "") ==> cwd == processCwd
  {
    if contextPath.Some? && contextPath.value != "" then contextPath.value else processCwd
  }

  /** A string option that is truthy: given and not empty. */
  predicate Given(s: Option<string>) {
    s.Some? && s.value != ""
  }

  /** `new Error('Missed the "<property>" property')` */
  function MissedProperty(property: string): JsError {
    Error("Missed the \"" + property + "\" property")
  }

  /** The arguments a stage passes to the runner. */
  datatype CommandRequest = CommandRequest(command: string, timeout: Option<real>, pattern: string, contextPath: Option<string>)

  /** The record the listeners fill in. */
  datatype ProcessRecord = ProcessRecord(stderr: string, stdout: string, timedOut: bool, completed: bool)

  const EmptyRecord := ProcessRecord("", "", false, false)

  /** The record and whether the race between completion and the timer is decided. */
  datatype WaitState = WaitState(data: ProcessRecord, decided: bool)

  /** An event that decides the wait from an undecided state. */
  predicate Decisive(e: Event, pattern: string) {
    match e
    case StdoutChunk(c) => Includes(c, pattern)
    case StderrChunk(_) => false
    case Exit(code) => code.Some? && code.value != 0
    case TimerFired => true
  }

  /** One event: nothing listens any more once the wait is decided. A stdout chunk sets the
      completion flag to whether that chunk alone holds the pattern; a non-zero exit code
      rejects; the timer marks the record timed out. */
  function Step(s: WaitState, e: Event, pattern: string): WaitState {
    if s.decided then s
    else
      match e
      case StdoutChunk(c) =>
        var done := Includes(c, pattern);
        WaitState(s.data.(stdout := s.data.stdout + c, completed := done), done)
      case StderrChunk(c) => s.(data := s.data.(stderr := s.data.stderr + c))
      case Exit(code) => if code.Some? && code.value != 0 then s.(decided := true) else s
      case TimerFired => s.(data := s.data.(timedOut := true), decided := true)
  }

  /** The state after the events of `trace`, in order. */
  function Fold(trace: seq<Event>, pattern: string): WaitState {
    if trace == [] then WaitState(EmptyRecord, false)
    else Step(Fold(trace[..|trace| - 1], pattern), trace[|trace| - 1], pattern)
  }

  /** `waitForCommandCompleteOrTimeout`: an empty record when a stream is missing; otherwise the
      record once the wait is decided, the timer deciding it after the trace if nothing did. */
  function WaitResult(streams: bool, trace: seq<Event>, pattern: string): ProcessRecord {
    if !streams then EmptyRecord
    else
      var s := Fold(trace, pattern);
      if s.decided then s.data else s.data.(timedOut := true)
  }

  /** `emoji.get('speech_balloon')` */
  const SpeechBalloon := "\U{1F4AC}"

  function FailureHeading(command: string): string {
    "Running command \"" + command + "\" failed\n\n"
  }

  function StderrSection(stderr: string): string {
    if stderr != "" then SpeechBalloon + "  STDERR: " + stderr + "\n" else ""
  }

  function StdoutSection(stdout: string): string {
    if stdout != "" then SpeechBalloon + "  STDOUT: " + stdout else ""
  }

  function TimedOutError(command: string): JsError {
    Error("Command \"" + command + "\" timed out")
  }

  /** What `runCommandProcessAndWaitForComplete` makes of the record: success when completed,
      the timeout error when timed out, otherwise the failure with the non-empty logs. */
  function CommandOutcome(command: string, data: ProcessRecord): Outcome<JsError> {
    if data.completed then Pass
    else if data.timedOut then Fail(TimedOutError(command))
    else Fail(Error(FailureHeading(command) + StderrSection(data.stderr) + StdoutSection(data.stdout)))
  }

  /** The stdout chunks of a trace, concatenated in order. */
  function StdoutOf(trace: seq<Event>): string {
    if trace == [] then ""
    else StdoutOf(trace[..|trace| - 1]) + (if trace[|trace| - 1].StdoutChunk? then trace[|trace| - 1].text else "")
  }

  /** The stderr chunks of a trace, concatenated in order. */
  function StderrOf(trace: seq<Event>): string {
    if trace == [] then ""
    else StderrOf(trace[..|trace| - 1]) + (if trace[|trace| - 1].StderrChunk? then trace[|trace| - 1].text else "")
  }

  /** Until the wait is decided, every chunk is appended to its log in arrival order, no event
      so far was decisive and no flag is set; the wait is decided exactly when some event was. */
  lemma {:induction false} FoldUndecided(trace: seq<Event>, pattern: string)
    ensures !Fold(trace, pattern).decided <==> forall i :: 0 <= i < |trace| ==> !Decisive(trace[i], pattern)
    ensures !Fold(trace, pattern).decided ==>
              Fold(trace, pattern).data == ProcessRecord(StderrOf(trace), StdoutOf(trace), false, false)
  {
    if trace != [] {
      var prefix := trace[..|trace| - 1];
      FoldUndecided(prefix, pattern);
      assert forall i :: 0 <= i < |prefix| ==> prefix[i] == trace[i];
    }
  }

  /** A decided wait stays as it is, whatever comes after. */
  lemma {:induction false} FoldDecidedSticks(trace: seq<Event>, more: seq<Event>, pattern: string)
    requires Fold(trace, pattern).decided
    ensures Fold(trace + more, pattern) == Fold(trace, pattern)
  {
    if more != [] {
      var last := more[|more| - 1];
      var rest := more[..|more| - 1];
      assert (trace + more)[..|trace + more| - 1] == trace + rest;
      assert (trace + more)[|trace + more| - 1] == last;
      FoldDecidedSticks(trace, rest, pattern);
    } else {
      assert trace + more == trace;
    }
  }

  /** The first decisive event wins: it alone decides the record, and nothing after it counts. */
  lemma FirstDecisiveEventWins(before: seq<Event>, e: Event, after: seq<Event>, pattern: string)
    requires forall i :: 0 <= i < |before| ==> !Decisive(before[i], pattern)
    requires Decisive(e, pattern)
    ensures var r := WaitResult(true, before + [e] + after, pattern);
      && r.stdout == StdoutOf(before + [e])
      && r.stderr == StderrOf(before)
      && (e.StdoutChunk? ==> r.completed && !r.timedOut)
      && (e.Exit? ==> !r.completed && !r.timedOut)
      && (e.TimerFired? ==> !r.completed && r.timedOut)
  {
    FoldUndecided(before, pattern);
    var t := before + [e];
    assert t[..|t| - 1] == before;
    assert Fold(t, pattern).decided;
    FoldDecidedSticks(t, after, pattern);
  }

  /** An exit with code 0 or `null` changes nothing: removing it leaves the result as it was. */
  lemma {:induction false} ExitWithoutErrorIgnored(before: seq<Event>, code: Option<int>, after: seq<Event>, pattern: string)
    requires code.None? || code.value == 0
    ensures Fold(before + [Exit(code)] + after, pattern) == Fold(before + after, pattern)
  {
    if after == [] {
      var t := before + [Exit(code)];
      assert t[..|t| - 1] == before;
      assert before + [Exit(code)] + after == t;
      assert before + after == before;
    } else {
      var rest := after[..|after| - 1];
      var last := after[|after| - 1];
      ExitWithoutErrorIgnored(before, code, rest, pattern);
      var t1 := before + [Exit(code)] + after;
      var t2 := before + after;
      assert t1[..|t1| - 1] == before + [Exit(code)] + rest && t1[|t1| - 1] == last;
      assert t2[..|t2| - 1] == before + rest && t2[|t2| - 1] == last;
    }
  }

  /** Completion is tested chunk by chunk: a pattern split over two chunks is never seen, and the
      wait ends with the timer. */
  lemma SplitPatternNotDetected()
    ensures var r := WaitResult(true, [StdoutChunk("Compiled suc"), StdoutChunk("cessfully")], "Compiled successfully");
      !r.completed && r.timedOut && r.stdout == "Compiled successfully"
  {
    var trace := [StdoutChunk("Compiled suc"), StdoutChunk("cessfully")];
    assert trace[..1] == [StdoutChunk("Compiled suc")];
    assert [StdoutChunk("Compiled suc")][..0] == [];
    assert !Includes("Compiled suc", "Compiled successfully");
    assert !Includes("cessfully", "Compiled successfully");
  }

  /** Without both streams the wait ends at once with no flag set, which is a failure whose
      message holds no log section. */
  lemma MissingStreamsFail(command: string, trace: seq<Event>, pattern: string)
    ensures CommandOutcome(command, WaitResult(false, trace, pattern)) == Fail(Error(FailureHeading(command)))
  {
    assert FailureHeading(command) + "" + "" == FailureHeading(command);
  }

  /** The failure message: the heading, then the STDERR section only when stderr is non-empty,
      then the STDOUT section only when stdout is non-empty. */
  lemma FailureMessageSections(command: string, data: ProcessRecord)
    requires !data.completed && !data.timedOut
    ensures var m := CommandOutcome(command, data).error.message;
      var h := FailureHeading(command);
      var err := SpeechBalloon + "  STDERR: " + data.stderr + "\n";
      && |h| <= |m| && m[..|h|] == h
      && (data.stderr == "" && data.stdout == "" ==> m == h)
      && (data.stderr != "" ==> |h + err| <= |m| && m[..|h + err|] == h + err)
      && (data.stderr == "" && data.stdout != "" ==> m == h + SpeechBalloon + "  STDOUT: " + data.stdout)
  {
    var h := FailureHeading(command);
    var m := h + StderrSection(data.stderr) + StdoutSection(data.stdout);
    assert m == h + (StderrSection(data.stderr) + StdoutSection(data.stdout));
    if data.stderr != "" {
      var err := SpeechBalloon + "  STDERR: " + data.stderr + "\n";
      assert m == (h + err) + StdoutSection(data.stdout);
    }
  }

  /** The record `waitForCommandCompleteOrTimeout` builds; the listeners update it in place. */
  class CommandProcessData {
    var standardErrorCommandData: string
    var standardOutputCommandData: string
    var isCommandTimedOut: bool
    var isCommandCompleted: bool

    constructor()
      ensures Record() == EmptyRecord
    {
      standardErrorCommandData := "";
      standardOutputCommandData := "";
      isCommandTimedOut := false;
      isCommandCompleted := false;
    }

    function Record(): ProcessRecord
      reads this
    {
      ProcessRecord(standardErrorCommandData, standardOutputCommandData, isCommandTimedOut, isCommandCompleted)
    }

    /** The stdout listener; answers whether it resolved the completion promise. */
    method OnStandardOutput(chunk: string, pattern: string) returns (resolved: bool)
      modifies this
      ensures Record() == old(Record()).(stdout := old(Record()).stdout + chunk, completed := Includes(chunk, pattern))
      ensures resolved == Includes(chunk, pattern)
    {
      standardOutputCommandData := standardOutputCommandData + chunk;
      isCommandCompleted := Includes(chunk, pattern);
      resolved := isCommandCompleted;
    }

    /** The stderr listener. */
    method OnStandardError(chunk: string)
      modifies this
      ensures Record() == old(Record()).(stderr := old(Record()).stderr + chunk)
    {
      standardErrorCommandData := standardErrorCommandData + chunk;
    }

    /** The timer callback. */
    method OnTimeout()
      modifies this
      ensures Record() == old(Record()).(timedOut := true)
    {
      isCommandTimedOut := true;
    }
  }

  /** The exit listener: rejects the completion promise on a non-null, non-zero code. */
  function ExitRejects(code: Option<int>): (rejects: bool)
    ensures rejects <==> Decisive(Exit(code), "")
  {
    code.Some? && code.value != 0
  }

  /** One event delivered to the listeners of an undecided wait. */
  method Deliver(data: CommandProcessData, e: Event, pattern: string) returns (decided: bool)
    modifies data
    ensures WaitState(data.Record(), decided) == Step(WaitState(old(data.Record()), false), e, pattern)
  {
    match e
    case StdoutChunk(c) =>
      decided := data.OnStandardOutput(c, pattern);
    case StderrChunk(c) =>
      data.OnStandardError(c);
      decided := false;
    case Exit(code) =>
      decided := ExitRejects(code);
    case TimerFired =>
      data.OnTimeout();
      decided := true;
  }

  /** `waitForCommandCompleteOrTimeout` */
  method WaitForCommandCompleteOrTimeout(streams: bool, trace: seq<Event>, pattern: string)
    returns (data: CommandProcessData)
    ensures fresh(data)
    ensures data.Record() == WaitResult(streams, trace, pattern)
  {
    data := new CommandProcessData();
    if !streams {
      return;
    }
    var decided := false;
    var i := 0;
    while i < |trace| && !decided
      invariant 0 <= i <= |trace|
      invariant WaitState(data.Record(), decided) == Fold(trace[..i], pattern)
    {
      assert trace[..i + 1][..i] == trace[..i];
      decided := Deliver(data, trace[i], pattern);
      i := i + 1;
    }
    if decided {
      assert trace == trace[..i] + trace[i..];
      FoldDecidedSticks(trace[..i], trace[i..], pattern);
    } else {
      assert trace[..i] == trace;
      data.OnTimeout();
    }
  }

  /** The spawned child process, and its stop callback (`tree-kill` on its process id). The
      callback always resolves: a failure to kill is only logged. */
  class CommandProcess {
    const command: string
    const cwd: string
    const timeoutMilliseconds: real
    /** How many times the stop callback has been run. */
    var stopCount: nat

    constructor(command: string, cwd: string, timeoutMilliseconds: real)
      ensures this.command == command && this.cwd == cwd && this.timeoutMilliseconds == timeoutMilliseconds
      ensures stopCount == 0
    {
      this.command := command;
      this.cwd := cwd;
      this.timeoutMilliseconds := timeoutMilliseconds;
      stopCount := 0;
    }

    method Stop()
      modifies this
      ensures stopCount == old(stopCount) + 1
    {
      stopCount := stopCount + 1;
    }
  }

  /** What the child process will do: the working directory of this process, whether the child
      has both pipes, and the events its listeners will receive. */
  datatype ProcessEnvironment = ProcessEnvironment(processCwd: string, streams: bool, trace: seq<Event>)

  /** `runCommandProcessAndWaitForComplete`: on completion the process is handed back with its
      stop callback not run; otherwise the callback is run exactly once before the error. */
  method RunCommandProcessAndWaitForComplete(command: string, timeout: Option<real>, pattern: string,
                                             contextPath: Option<string>, env: ProcessEnvironment)
    returns (process: CommandProcess, r: Outcome<JsError>)
    ensures fresh(process)
    ensures process.command == command && process.cwd == WorkingDirectory(contextPath, env.processCwd)
    ensures process.timeoutMilliseconds == TimeoutMilliseconds(timeout)
    ensures r == CommandOutcome(command, WaitResult(env.streams, env.trace, pattern))
    ensures process.stopCount == if r.Pass? then 0 else 1
  {
    process := new CommandProcess(command, WorkingDirectory(contextPath, env.processCwd), TimeoutMilliseconds(timeout));
    var data := WaitForCommandCompleteOrTimeout(env.streams, env.trace, pattern);
    if data.isCommandCompleted {
      return process, Pass;
    }
    process.Stop();
    if data.isCommandTimedOut {
      r := Fail(TimedOutError(command));
    } else {
      var message := FailureHeading(command);
      if data.standardErrorCommandData != "" {
        message := message + (SpeechBalloon + "  STDERR: " + data.standardErrorCommandData + "\n");
      }
      if data.standardOutputCommandData != "" {
        message := message + (SpeechBalloon + "  STDOUT: " + data.standardOutputCommandData);
      }
      assert message == FailureHeading(command) + StderrSection(data.standardErrorCommandData)
                        + StdoutSection(data.standardOutputCommandData);
      r := Fail(Error(message));
    }
  }
}
