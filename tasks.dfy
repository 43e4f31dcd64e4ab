/** The Celery background job `run_jipipe_task`: it writes the pipeline
    configuration into a fresh input directory, runs JIPipe with its output
    streamed into a log file, registers the process id in the cache while the
    run lasts, and cleans up in `finally`.

    Failures are not sampled from the environment: a `Fault` parameter says
    at which step an exception is raised or the SIGTERM-turned-
    KeyboardInterrupt arrives, and the run is then followed to its end with
    Python's try/except/finally rules, including the places where a handler
    or the `finally` block raises a new exception of its own. */
module Tasks {
  import opened Wrappers
  import opened Decimal
  import opened Json
  import opened Host

  /** The name of the configuration file inside the input directory. */
  const ProjectFile: string := "JIPipeProject.jip"

  /** Cache key of the set of a user's running job ids. */
  const ActivePrefix: string := "active_jipipe_jobs_"
  function UserKey(user: string): string { ActivePrefix + user }

  /** First chunk of the log. */
  const HeaderPrefix: string := "Executable ImageJ at: "
  const Newline: string := "\n"
  function Header(imagej: string): string { HeaderPrefix + imagej + Newline }

  /** Last chunk of the log of a run that ends normally. */
  const ExitPrefix: string := "\n[ JIPipe exited with code "
  const ExitSuffix: string := " ]\n"
  function ExitMarker(code: int): string { ExitPrefix + IntToString(code) + ExitSuffix }

  /** Chunk appended by the `except Exception` handler. */
  const ErrorPrefix: string := "\nERROR in JIPipe background job: "
  function ErrorLine(message: string): string { ErrorPrefix + message + Newline }

  /** The text of the TypeError raised by `str + None` when the configuration
      has no `omero.web.imagej` entry. */
  const NoneConcatenation: string := "can only concatenate str (not \"NoneType\") to str"

  /** The steps of the job, in the order they run. `Stream(k)` writes output line k. */
  datatype Step =
    | MakeInputDir | MakeOutputDir | WriteProjectFile | LoadConfig | ReadImageJPath
    | OpenLog | WriteHeader | Launch | Register | Stream(line: nat) | Wait | WriteMarker

  function Rank(s: Step): nat {
    match s
    case MakeInputDir => 0
    case MakeOutputDir => 1
    case WriteProjectFile => 2
    case LoadConfig => 3
    case ReadImageJPath => 4
    case OpenLog => 5
    case WriteHeader => 6
    case Launch => 7
    case Register => 8
    case Stream(_) => 9
    case Wait => 10
    case WriteMarker => 11
  }

  /** Step a runs (and finishes) before step b starts. */
  predicate Precedes(a: Step, b: Step) {
    Rank(a) < Rank(b) || (a.Stream? && b.Stream? && a.line < b.line)
  }

  /** Where the run is cut short: not at all, by an exception, or by a KeyboardInterrupt. */
  datatype Fault = NoFault | RaiseAt(step: Step, message: string) | InterruptAt(step: Step)

  predicate StopsAt(f: Fault, s: Step) { !f.NoFault? && f.step == s }

  /** Step s runs to completion in a run cut short by f. */
  predicate Completes(f: Fault, s: Step) { f.NoFault? || Precedes(s, f.step) }

  /** Step s is reached at all by a process that prints `lines` lines. */
  predicate Reached(s: Step, lines: nat) { !s.Stream? || s.line < lines }

  /** The fault that actually ends the run: the requested one if its step is
      reached, except that a missing ImageJ path raises a TypeError at the
      header write, which pre-empts any fault requested for a later step. */
  function Effective(f: Fault, lines: nat, hasPath: bool): (e: Fault)
    ensures e.NoFault? || Reached(e.step, lines)
    ensures !hasPath ==> !Completes(e, WriteHeader)
    ensures hasPath && !f.NoFault? && Reached(f.step, lines) ==> e == f
    ensures hasPath && (f.NoFault? || !Reached(f.step, lines)) ==> e.NoFault?
    ensures !f.NoFault? && Reached(f.step, lines) && Rank(f.step) <= Rank(WriteHeader) ==> e == f
    ensures !hasPath && (f.NoFault? || !Reached(f.step, lines) || Rank(f.step) > Rank(WriteHeader))
      ==> e == RaiseAt(WriteHeader, NoneConcatenation)
  {
    if !f.NoFault? && Reached(f.step, lines) && (hasPath || Rank(f.step) <= Rank(WriteHeader)) then f
    else if hasPath then NoFault
    else RaiseAt(WriteHeader, NoneConcatenation)
  }

  /** The arguments of one run, the environment it meets and the fault it suffers. */
  datatype Job = Job(
    config: Json,             // project_config
    job: string,              // job_uuid
    user: string,             // user_name
    logPath: string,          // log_file_path
    imagej: Option<string>,   // omero.web.imagej from the server configuration
    output: seq<string>,      // the lines the process prints, in order
    exitCode: int,            // its return code
    pid: int,                 // its process id, also its process-group id
    fault: Fault)

  function Stop(j: Job): (stop: Fault)
    ensures Admissible(j, stop)
  {
    Effective(j.fault, |j.output|, j.imagej.Some?)
  }

  /** What every stop of a run satisfies: its step is reached, and the header
      is written only when there is an ImageJ path. */
  predicate Admissible(j: Job, stop: Fault) {
    (stop.NoFault? || Reached(stop.step, |j.output|))
    && (j.imagej.None? ==> !Completes(stop, WriteHeader))
  }

  /** `cfg` is bound once the configuration is loaded (line 24). */
  predicate CfgBound(stop: Fault) { Completes(stop, LoadConfig) }

  /** `process` is bound once Popen returns (line 40). */
  predicate ProcessBound(stop: Fault) { Completes(stop, Launch) }

  /** The complete log of a run that ends normally. */
  function FullLog(imagej: string, output: seq<string>, code: int): seq<string> {
    [Header(imagej)] + output + [ExitMarker(code)]
  }

  /** How many output lines reach the log. */
  function Streamed(stop: Fault, lines: nat): (n: nat)
    requires stop.NoFault? || Reached(stop.step, lines)
    ensures n <= lines
  {
    if stop.NoFault? || Rank(stop.step) > Rank(Stream(0)) then lines
    else if stop.step.Stream? then stop.step.line
    else 0
  }

  /** How many chunks of the full log are written before the run stops. */
  function Written(stop: Fault, lines: nat): (n: nat)
    requires stop.NoFault? || Reached(stop.step, lines)
    ensures n <= lines + 2
  {
    (if Completes(stop, WriteHeader) then 1 else 0) + Streamed(stop, lines)
    + (if Completes(stop, WriteMarker) then 1 else 0)
  }

  /** The log as the `try` block leaves it, once it has been opened. */
  function TryLog(j: Job, stop: Fault): seq<string>
    requires stop.NoFault? || Reached(stop.step, |j.output|)
  {
    if j.imagej.Some? then FullLog(j.imagej.value, j.output, j.exitCode)[..Written(stop, |j.output|)] else []
  }

  /** Effects of the `try` block (lines 19-56) on the trace. */
  function TryEvents(j: Job, tin: nat, stop: Fault): seq<Event> {
    (if Completes(stop, WriteProjectFile) then [FileWritten(tin, ProjectFile, j.config)] else [])
    + LaunchEvents(j, stop)
  }

  /** Effects of lines 40-50 on the trace: the launch and the registration of its pid. */
  function LaunchEvents(j: Job, stop: Fault): seq<Event> {
    (if Completes(stop, Launch) then [Launched(j.pid)] else [])
    + (if Completes(stop, Register) then [KeySet(j.job, Pid(j.pid))] else [])
  }

  /** The state after the `try` block (lines 19-56), cut short by `stop`. */
  function TryEffects(w: World, j: Job, tin: nat, stop: Fault): World
    requires stop.NoFault? || Reached(stop.step, |j.output|)
  {
    World(
      if Completes(stop, Register) then w.registry[j.job := Pid(j.pid)] else w.registry,
      w.dirs,
      w.nextTemp,
      if Completes(stop, OpenLog) then w.logs[j.logPath := TryLog(j, stop)] else w.logs,
      w.events + TryEvents(j, tin, stop))
  }

  /** What `set(cache.get(key, []))` yields: the stored set, the empty set when
      the key is absent, and None (a TypeError) when a process id is stored there. */
  function ActiveJobs(r: map<string, Value>, key: string): Option<set<string>> {
    if key !in r then Some({})
    else match r[key]
      case JobSet(ids) => Some(ids)
      case Pid(_) => None
  }

  /** The registry after `cache.delete(job)` and the read-discard-write of the
      user's active set; None when the set cannot be built. */
  function Released(r: map<string, Value>, job: string, user: string): Option<map<string, Value>> {
    var r1 := r - {job};
    match ActiveJobs(r1, UserKey(user))
    case None => None
    case Some(active) => Some(r1[UserKey(user) := JobSet(active - {job})])
  }

  /** How the run ends: normally, or with an exception escaping the task. */
  datatype Outcome = Returned | Escaped(error: TaskError)

  datatype TaskError =
    | Raised(step: Step, message: string)   // the requested exception, outside the try
    | Interrupted(step: Step)               // the KeyboardInterrupt, outside the try
    | CfgUnbound                            // UnboundLocalError at cfg.close()
    | ProcessUnbound                        // UnboundLocalError at process.pid
    | DirMissing(dir: nat)                  // FileNotFoundError from shutil.rmtree
    | ActiveNotASet                         // TypeError from set(<pid>)

  function Thrown(f: Fault): TaskError
    requires !f.NoFault?
  {
    if f.RaiseAt? then Raised(f.step, f.message) else Interrupted(f.step)
  }

  /** The cleanup sequence after `cfg.close()` (lines 74-80, and 59-65): delete
      the job key, discard the job from the user's set, remove both directories;
      each step may raise, which ends the sequence. */
  function CleanupSpec(w: World, job: string, user: string, tin: nat, tout: nat): (World, Option<TaskError>) {
    var r1 := w.registry - {job};
    var e1 := w.events + [KeyDeleted(job)];
    match ActiveJobs(r1, UserKey(user))
    case None => (w.(registry := r1, events := e1), Some(ActiveNotASet))
    case Some(active) =>
      var v := JobSet(active - {job});
      var w2 := w.(registry := r1[UserKey(user) := v], events := e1 + [KeySet(UserKey(user), v)]);
      if tin !in w2.dirs then (w2, Some(DirMissing(tin)))
      else
        var w3 := w2.(dirs := w2.dirs - {tin}, events := w2.events + [DirRemoved(tin)]);
        if tout !in w3.dirs then (w3, Some(DirMissing(tout)))
        else (w3.(dirs := w3.dirs - {tout}, events := w3.events + [DirRemoved(tout)]), None)
  }

  /** The except clauses (lines 57-70): the state they leave and the exception
      they raise themselves, if any. */
  function HandlerSpec(w: World, j: Job, tin: nat, tout: nat, stop: Fault): (World, Option<TaskError>) {
    match stop
    case NoFault => (w, None)
    case RaiseAt(_, message) =>
      (w.(logs := w.logs[j.logPath := w.LogOf(j.logPath) + [ErrorLine(message)]]), None)
    case InterruptAt(_) =>
      if !CfgBound(stop) then (w, Some(CfgUnbound))
      else
        var c := CleanupSpec(w, j.job, j.user, tin, tout);
        if c.1.Some? then c
        else if !ProcessBound(stop) then (c.0, Some(ProcessUnbound))
        else (c.0.(events := c.0.events + [GroupSignalled(j.pid)]), None)
  }

  /** The `finally` clause (lines 72-80). */
  function FinallySpec(w: World, j: Job, tin: nat, tout: nat, stop: Fault): (World, Option<TaskError>) {
    if !CfgBound(stop) then (w, Some(CfgUnbound))
    else CleanupSpec(w, j.job, j.user, tin, tout)
  }

  /** Lines 18-80 once both directories exist: the try block, the except
      clauses and the finally clause. An exception raised in `finally`
      replaces the one pending from the handlers. */
  function Protected(w: World, j: Job, tin: nat, tout: nat, stop: Fault): (World, Outcome)
    requires stop.NoFault? || Reached(stop.step, |j.output|)
  {
    var h := HandlerSpec(TryEffects(w, j, tin, stop), j, tin, tout, stop);
    var f := FinallySpec(h.0, j, tin, tout, stop);
    (f.0, if f.1.Some? then Escaped(f.1.value) else if h.1.Some? then Escaped(h.1.value) else Returned)
  }

  /** The whole task: the state it leaves and how it ends. */
  function Run(w: World, j: Job): (World, Outcome) {
    RunUntil(w, j, Stop(j))
  }

  /** The task cut short by `stop`. The two mkdtemp calls (lines 15-16) run
      outside the try statement. */
  function RunUntil(w: World, j: Job, stop: Fault): (World, Outcome)
    requires Admissible(j, stop)
  {
    var tin := w.nextTemp;
    var tout := tin + 1;
    if StopsAt(stop, MakeInputDir) then (w, Escaped(Thrown(stop)))
    else
      var w1 := w.(dirs := w.dirs + {tin}, nextTemp := tin + 1);
      if StopsAt(stop, MakeOutputDir) then (w1, Escaped(Thrown(stop)))
      else Protected(Entered(w), j, tin, tout, stop)
  }

  /** Lines 19-56: the body of the `try`, executed step by step until `stop` cuts it short. */
  method RunTryBody(h: Host, j: Job, tin: nat, stop: Fault)
    requires tin in h.dirs
    requires Admissible(j, stop) && !StopsAt(stop, MakeInputDir) && !StopsAt(stop, MakeOutputDir)
    modifies h
    ensures h.State() == TryEffects(old(h.State()), j, tin, stop)
  {
    if StopsAt(stop, WriteProjectFile) { return; }
    ghost var w := h.State();
    h.WriteFile(tin, ProjectFile, j.config);
    RunLogged(h, j, stop);
    assert w.events + TryEvents(j, tin, stop) == w.events + [FileWritten(tin, ProjectFile, j.config)] + LaunchEvents(j, stop);
  }

  /** Lines 24-56: everything after the project file is written. */
  method RunLogged(h: Host, j: Job, stop: Fault)
    requires Admissible(j, stop) && Completes(stop, WriteProjectFile)
    modifies h`registry, h`logs, h`events
    ensures h.registry == if Completes(stop, Register) then old(h.registry)[j.job := Pid(j.pid)] else old(h.registry)
    ensures h.logs == if Completes(stop, OpenLog) then old(h.logs)[j.logPath := TryLog(j, stop)] else old(h.logs)
    ensures h.events == old(h.events) + LaunchEvents(j, stop)
  {
    if StopsAt(stop, LoadConfig) || StopsAt(stop, ReadImageJPath) || StopsAt(stop, OpenLog) { return; }
    h.OpenTruncate(j.logPath);
    WriteHeaderAndLaunch(h, j, stop);
  }

  /** Lines 38-56: write the header into the freshly truncated log, then launch. */
  method WriteHeaderAndLaunch(h: Host, j: Job, stop: Fault)
    requires Admissible(j, stop) && Completes(stop, OpenLog)
    requires j.logPath in h.logs && h.logs[j.logPath] == []
    modifies h`registry, h`logs, h`events
    ensures h.registry == if Completes(stop, Register) then old(h.registry)[j.job := Pid(j.pid)] else old(h.registry)
    ensures h.logs == old(h.logs)[j.logPath := TryLog(j, stop)]
    ensures h.events == old(h.events) + LaunchEvents(j, stop)
  {
    if StopsAt(stop, WriteHeader) {
      assert h.logs == h.logs[j.logPath := []];
      return;
    }
    var imagej := j.imagej.value;
    h.Append(j.logPath, Header(imagej));
    assert [] + [Header(imagej)] == [Header(imagej)];
    LaunchAndStream(h, j, imagej, stop);
  }

  /** Lines 40-56: start the process, register its pid, stream its output. */
  method LaunchAndStream(h: Host, j: Job, imagej: string, stop: Fault)
    requires Admissible(j, stop) && Completes(stop, WriteHeader) && j.imagej == Some(imagej)
    requires j.logPath in h.logs && h.logs[j.logPath] == [Header(imagej)]
    modifies h`registry, h`logs, h`events
    ensures h.registry == if Completes(stop, Register) then old(h.registry)[j.job := Pid(j.pid)] else old(h.registry)
    ensures h.logs == old(h.logs)[j.logPath := TryLog(j, stop)]
    ensures h.events == old(h.events) + LaunchEvents(j, stop)
  {
    assert FullLog(imagej, j.output, j.exitCode)[..1] == [Header(imagej)];
    assert old(h.logs) == old(h.logs)[j.logPath := [Header(imagej)]];
    if StopsAt(stop, Launch) { return; }
    h.Launch(j.pid);
    if StopsAt(stop, Register) { return; }
    h.CacheSet(j.job, Pid(j.pid));
    StreamOutput(h, j, imagej, stop);
  }

  /** Lines 51-56: copy the process output into the log, line by line, then
      wait and write the exit-code marker. */
  method StreamOutput(h: Host, j: Job, imagej: string, stop: Fault)
    requires Admissible(j, stop) && Completes(stop, Register) && j.imagej == Some(imagej)
    requires j.logPath in h.logs && h.logs[j.logPath] == [Header(imagej)]
    modifies h`logs
    ensures h.logs == old(h.logs)[j.logPath := TryLog(j, stop)]
  {
    var i := CopyLines(h, j, imagej, stop);
    StreamedLog(j, stop);
    if i < |j.output| || StopsAt(stop, Wait) || StopsAt(stop, WriteMarker) {
      assert !Completes(stop, WriteMarker);
      return;
    }
    assert stop.NoFault?;
    assert [Header(imagej)] + j.output[..i] == [Header(imagej)] + j.output;
    h.Append(j.logPath, ExitMarker(j.exitCode));
  }

  /** Lines 51-53: the loop over the output lines, cut short by a fault at line `i`. */
  method CopyLines(h: Host, j: Job, imagej: string, stop: Fault) returns (i: nat)
    requires Admissible(j, stop) && Completes(stop, Register)
    requires j.logPath in h.logs && h.logs[j.logPath] == [Header(imagej)]
    modifies h`logs
    ensures i == Streamed(stop, |j.output|)
    ensures h.logs == old(h.logs)[j.logPath := [Header(imagej)] + j.output[..i]]
  {
    ghost var logs0 := h.logs;
    assert [Header(imagej)] + j.output[..0] == [Header(imagej)];
    assert logs0 == logs0[j.logPath := [Header(imagej)]];
    i := 0;
    while i < |j.output| && !StopsAt(stop, Stream(i))
      invariant i <= |j.output|
      invariant forall k :: 0 <= k < i ==> !StopsAt(stop, Stream(k))
      invariant h.logs == logs0[j.logPath := [Header(imagej)] + j.output[..i]]
    {
      assert j.output[..i + 1] == j.output[..i] + [j.output[i]];
      assert Contents(h.logs, j.logPath) == [Header(imagej)] + j.output[..i];
      assert [Header(imagej)] + j.output[..i] + [j.output[i]] == [Header(imagej)] + j.output[..i + 1];
      h.Append(j.logPath, j.output[i]);
      i := i + 1;
    }
  }

  /** Lines 74-80 (and 59-65): the cleanup after `cfg.close()`. */
  method Cleanup(h: Host, job: string, user: string, tin: nat, tout: nat) returns (err: Option<TaskError>)
    modifies h
    ensures (h.State(), err) == CleanupSpec(old(h.State()), job, user, tin, tout)
  {
    h.CacheDelete(job);
    var active := ActiveJobs(h.registry, UserKey(user));
    if active.None? {
      return Some(ActiveNotASet);
    }
    h.CacheSet(UserKey(user), JobSet(active.value - {job}));
    var ok := h.RemoveTree(tin);
    if !ok {
      return Some(DirMissing(tin));
    }
    ok := h.RemoveTree(tout);
    if !ok {
      return Some(DirMissing(tout));
    }
    return None;
  }

  /** Lines 57-70: the except clauses, entered when `stop` cut the try block short. */
  method RunHandlers(h: Host, j: Job, tin: nat, tout: nat, stop: Fault) returns (pending: Option<TaskError>)
    modifies h
    ensures (h.State(), pending) == HandlerSpec(old(h.State()), j, tin, tout, stop)
  {
    pending := None;
    if stop.RaiseAt? {
      h.Append(j.logPath, ErrorLine(stop.message));
    } else if stop.InterruptAt? {
      if !CfgBound(stop) {
        pending := Some(CfgUnbound);
      } else {
        pending := Cleanup(h, j.job, j.user, tin, tout);
        if pending.None? {
          if ProcessBound(stop) {
            h.SignalGroup(j.pid);
          } else {
            pending := Some(ProcessUnbound);
          }
        }
      }
    }
  }

  /** Lines 72-80: the finally clause. */
  method RunFinally(h: Host, j: Job, tin: nat, tout: nat, stop: Fault) returns (raised: Option<TaskError>)
    modifies h
    ensures (h.State(), raised) == FinallySpec(old(h.State()), j, tin, tout, stop)
  {
    if !CfgBound(stop) {
      raised := Some(CfgUnbound);
    } else {
      raised := Cleanup(h, j.job, j.user, tin, tout);
    }
  }

  /** Lines 18-80. */
  method RunProtected(h: Host, j: Job, tin: nat, tout: nat, stop: Fault) returns (outcome: Outcome)
    requires tin in h.dirs
    requires stop == Stop(j) && !StopsAt(stop, MakeInputDir) && !StopsAt(stop, MakeOutputDir)
    modifies h
    ensures (h.State(), outcome) == Protected(old(h.State()), j, tin, tout, stop)
  {
    RunTryBody(h, j, tin, stop);
    var pending := RunHandlers(h, j, tin, tout, stop);
    var raised := RunFinally(h, j, tin, tout, stop);
    outcome := if raised.Some? then Escaped(raised.value) else if pending.Some? then Escaped(pending.value) else Returned;
  }

  /** run_jipipe_task (lines 11-80). */
  method RunJipipeTask(h: Host, j: Job) returns (outcome: Outcome)
    modifies h
    ensures (h.State(), outcome) == Run(old(h.State()), j)
  {
    ghost var w := h.State();
    var stop := Stop(j);
    if StopsAt(stop, MakeInputDir) { return Escaped(Thrown(stop)); }
    var tin := h.MakeTemp();
    if StopsAt(stop, MakeOutputDir) { return Escaped(Thrown(stop)); }
    var tout := h.MakeTemp();
    outcome := RunProtected(h, j, tin, tout, stop);
  }

  // ---------------------------------------------------------------------
  // Properties of the specification

  function Final(w: World, j: Job, stop: Fault): World requires Admissible(j, stop) { RunUntil(w, j, stop).0 }
  function Ending(w: World, j: Job, stop: Fault): Outcome requires Admissible(j, stop) { RunUntil(w, j, stop).1 }

  /** The last chunk of a log says which exit code the process had. */
  lemma {:induction false} ExitMarkerInjective(a: int, b: int)
    requires ExitMarker(a) == ExitMarker(b)
    ensures a == b
  {
    var p := "\n[ JIPipe exited with code ";
    var sa, sb := IntToString(a), IntToString(b);
    assert ExitMarker(a) == p + sa + " ]\n" && ExitMarker(b) == p + sb + " ]\n";
    assert |sa| == |sb|;
    assert sa == ExitMarker(a)[|p|..|p| + |sa|];
    assert sb == ExitMarker(b)[|p|..|p| + |sb|];
    IntToStringInjective(a, b);
  }

  /** The layout of a complete log: the header first, then the output lines in
      the order they were produced, then the marker, from which the exit code
      can be read back. */
  lemma {:induction false} FullLogLayout(imagej: string, output: seq<string>, code: int)
    ensures var log := FullLog(imagej, output, code);
      |log| == |output| + 2 && log[0] == Header(imagej) && log[1..|output| + 1] == output
      && log[|log| - 1] == ExitMarker(code)
      && forall c :: log[|log| - 1] == ExitMarker(c) ==> c == code
  {
    var log := FullLog(imagej, output, code);
    assert log[1..|output| + 1] == output;
    forall c | log[|log| - 1] == ExitMarker(c)
      ensures c == code
    {
      ExitMarkerInjective(c, code);
    }
  }

  /** Whatever stops the run, the log written so far is a prefix of the complete
      log, and every line it holds after the header is the matching output line. */
  lemma {:induction false} TryLogIsPrefix(j: Job, stop: Fault)
    requires Admissible(j, stop) && j.imagej.Some?
    ensures var full := FullLog(j.imagej.value, j.output, j.exitCode);
      TryLog(j, stop) <= full
      && forall k :: 1 <= k < |TryLog(j, stop)| && k <= |j.output| ==> TryLog(j, stop)[k] == j.output[k - 1]
  {
  }

  /** The log a stopped run leaves once the header is written: the header, the
      output lines streamed before the stop, and the exit-code marker exactly
      when the run gets past the wait. */
  lemma {:induction false} StreamedLog(j: Job, stop: Fault)
    requires Admissible(j, stop) && Completes(stop, WriteHeader) && j.imagej.Some?
    ensures !Completes(stop, WriteMarker) ==>
      TryLog(j, stop) == [Header(j.imagej.value)] + j.output[..Streamed(stop, |j.output|)]
    ensures Completes(stop, WriteMarker) ==>
      TryLog(j, stop) == [Header(j.imagej.value)] + j.output + [ExitMarker(j.exitCode)]
  {
    var n := Streamed(stop, |j.output|);
    var full := FullLog(j.imagej.value, j.output, j.exitCode);
    if Completes(stop, WriteMarker) {
      assert j.output[..n] == j.output;
      assert full[..Written(stop, |j.output|)] == full;
    } else {
      assert full[..Written(stop, |j.output|)] == [Header(j.imagej.value)] + j.output[..n];
    }
  }

  /** The registry after the cleanup: the job key is gone, the job is no longer
      in the user's set, the rest of the set is kept, and every other key is untouched. */
  lemma {:induction false} ReleasedEffect(r: map<string, Value>, job: string, user: string)
    requires job != UserKey(user)
    requires ActiveJobs(r, UserKey(user)).Some?
    ensures Released(r, job, user).Some?
    ensures var r2 := Released(r, job, user).value;
      job !in r2 && UserKey(user) in r2 && r2[UserKey(user)].JobSet?
      && (forall x :: x in r2[UserKey(user)].ids <==> x in ActiveJobs(r, UserKey(user)).value && x != job)
      && (forall k :: k != job && k != UserKey(user) ==> (k in r2 <==> k in r) && (k in r ==> r2[k] == r[k]))
  {
  }

  /** Releasing succeeds whenever the user's entry can be read as a set. */
  lemma {:induction false} ReleasedWhenActive(r: map<string, Value>, job: string, user: string)
    requires ActiveJobs(r, UserKey(user)).Some?
    ensures Released(r, job, user).Some?
  {
    if job != UserKey(user) {
      assert ActiveJobs(r - {job}, UserKey(user)) == ActiveJobs(r, UserKey(user));
    }
  }

  /** Discarding a job that is not in the set, for a job that has no key, changes nothing. */
  lemma {:induction false} ReleaseAbsent(r: map<string, Value>, job: string, user: string)
    requires job !in r
    requires UserKey(user) in r && r[UserKey(user)].JobSet? && job !in r[UserKey(user)].ids
    ensures Released(r, job, user) == Some(r)
  {
    var r2 := Released(r, job, user).value;
    assert r - {job} == r;
    assert r[UserKey(user)].ids - {job} == r[UserKey(user)].ids;
    assert r2 == r;
  }

  /** Releasing a job twice has the effect of releasing it once. */
  lemma {:induction false} ReleaseIdempotent(r: map<string, Value>, job: string, user: string)
    requires Released(r, job, user).Some?
    ensures Released(Released(r, job, user).value, job, user) == Released(r, job, user)
  {
    var r1 := Released(r, job, user).value;
    var r2 := r1 - {job};
    var key := UserKey(user);
    if job == key {
      assert r1[key] == JobSet({});
      assert ActiveJobs(r2, key) == Some({});
      assert r2[key := JobSet({} - {job})] == r1;
    } else {
      assert job !in r1;
      assert r2 == r1;
      var ids := r1[key].ids;
      assert ActiveJobs(r2, key) == Some(ids);
      assert ids - {job} == ids;
      assert r2[key := JobSet(ids - {job})] == r1;
    }
  }

  /** Both mkdtemp calls succeed: the run continues in the try statement with
      two new, empty directories. */
  lemma {:induction false} RunEntersTry(w: World, j: Job, stop: Fault)
    requires Admissible(j, stop) && !StopsAt(stop, MakeInputDir) && !StopsAt(stop, MakeOutputDir)
    ensures var p := Protected(Entered(w), j, w.nextTemp, w.nextTemp + 1, stop);
      Final(w, j, stop) == p.0 && Ending(w, j, stop) == p.1
  {
    assert RunUntil(w, j, stop) == Protected(Entered(w), j, w.nextTemp, w.nextTemp + 1, stop);
  }

  /** The state once both mkdtemp calls have returned. */
  function Entered(w: World): World {
    var tin := w.nextTemp;
    w.(dirs := w.dirs + {tin} + {tin + 1}, nextTemp := tin + 2)
  }

  /** The cleanup sequence runs to its end when both directories exist and the
      user's entry is a set (or absent). */
  lemma {:induction false} CleanupCompletes(w: World, job: string, user: string, tin: nat, tout: nat)
    requires tin in w.dirs && tout in w.dirs && tin != tout
    requires Released(w.registry, job, user).Some?
    ensures var key := UserKey(user);
      CleanupSpec(w, job, user, tin, tout) == (w.(
        registry := Released(w.registry, job, user).value,
        dirs := w.dirs - {tin} - {tout},
        events := w.events + [KeyDeleted(job), KeySet(key, Released(w.registry, job, user).value[key])]
                           + [DirRemoved(tin), DirRemoved(tout)]), None)
  {
    var key := UserKey(user);
    var r1 := w.registry - {job};
    var v := JobSet(ActiveJobs(r1, key).value - {job});
    assert Released(w.registry, job, user).value == r1[key := v];
    var w2 := w.(registry := r1[key := v], events := w.events + [KeyDeleted(job)] + [KeySet(key, v)]);
    var w3 := w2.(dirs := w2.dirs - {tin}, events := w2.events + [DirRemoved(tin)]);
    assert tout in w3.dirs;
    assert CleanupSpec(w, job, user, tin, tout) == (w3.(dirs := w3.dirs - {tout}, events := w3.events + [DirRemoved(tout)]), None);
    assert w3.events + [DirRemoved(tout)]
      == w.events + [KeyDeleted(job), KeySet(key, v)] + [DirRemoved(tin), DirRemoved(tout)];
  }

  /** The cleanup sequence run a second time: the registry part succeeds and
      changes nothing, and the first rmtree raises because the directory is gone. */
  lemma {:induction false} CleanupRepeated(w: World, job: string, user: string, tin: nat, tout: nat)
    requires tin !in w.dirs
    requires Released(w.registry, job, user) == Some(w.registry)
    ensures var key := UserKey(user);
      CleanupSpec(w, job, user, tin, tout) == (w.(
        events := w.events + [KeyDeleted(job), KeySet(key, w.registry[key])]), Some(DirMissing(tin)))
  {
    var key := UserKey(user);
    var r1 := w.registry - {job};
    var active := ActiveJobs(r1, key).value;
    assert r1[key := JobSet(active - {job})] == w.registry;
    assert w.registry[key] == JobSet(active - {job});
    var w2 := w.(registry := r1[key := JobSet(active - {job})], events := w.events + [KeyDeleted(job)] + [KeySet(key, JobSet(active - {job}))]);
    assert CleanupSpec(w, job, user, tin, tout) == (w2, Some(DirMissing(tin)));
    assert w.events + [KeyDeleted(job)] + [KeySet(key, JobSet(active - {job}))] == w.events + [KeyDeleted(job), KeySet(key, w.registry[key])];
  }

  /** The job's own key does not matter to the cleanup, which deletes it first. */
  lemma {:induction false} ReleasedIgnoresJobKey(r: map<string, Value>, job: string, user: string, v: Value)
    ensures Released(r[job := v], job, user) == Released(r, job, user)
  {
    assert r[job := v] - {job} == r - {job};
  }

  /** The try block's effects that the cleanup undoes or keeps. */
  lemma {:induction false} TryEffectsFrame(w: World, j: Job, tin: nat, stop: Fault)
    requires tin in w.dirs && Admissible(j, stop)
    ensures var t := TryEffects(w, j, tin, stop);
      t.dirs == w.dirs && t.nextTemp == w.nextTemp
      && Released(t.registry, j.job, j.user) == Released(w.registry, j.job, j.user)
      && t.events == w.events + TryEvents(j, tin, stop)
      && t.logs == if Completes(stop, OpenLog) then w.logs[j.logPath := TryLog(j, stop)] else w.logs
  {
    ReleasedIgnoresJobKey(w.registry, j.job, j.user, Pid(j.pid));
  }

  /** While the process runs, the cache maps the job id to its pid, registered
      right after the launch (and the pid is the process-group id that an
      interrupt signals). */
  lemma {:induction false} RegisteredWhileRunning(w: World, j: Job, tin: nat, stop: Fault)
    requires tin in w.dirs && Admissible(j, stop) && Completes(stop, Register)
    ensures TryEffects(w, j, tin, stop).registry[j.job] == Pid(j.pid)
    ensures TryEffects(w, j, tin, stop).events[|w.events| + 1..]
      == [Launched(j.pid), KeySet(j.job, Pid(j.pid))]
  {
  }

  /** The log a run leaves when the except clauses do not raise: what the try
      block wrote, and the error line appended by the `except Exception` clause. */
  function HandledLog(w: World, j: Job, stop: Fault): map<string, seq<string>>
    requires Admissible(j, stop)
  {
    var before := if Completes(stop, OpenLog) then TryLog(j, stop) else w.LogOf(j.logPath);
    if stop.RaiseAt? then w.logs[j.logPath := before + [ErrorLine(stop.message)]]
    else if Completes(stop, OpenLog) then w.logs[j.logPath := before]
    else w.logs
  }

  /** Lines 18-80 without an interrupt, once `cfg` is bound: the finally clause
      cleans up completely and the task returns. */
  lemma {:induction false} ProtectedCleansUp(w: World, j: Job, tin: nat, tout: nat, stop: Fault)
    requires tin in w.dirs && tout in w.dirs && tin != tout
    requires Admissible(j, stop) && !stop.InterruptAt? && CfgBound(stop)
    requires Released(w.registry, j.job, j.user).Some?
    ensures var p, key, r := Protected(w, j, tin, tout, stop), UserKey(j.user), Released(w.registry, j.job, j.user).value;
      p.1 == Returned && p.0.registry == r && p.0.dirs == w.dirs - {tin} - {tout}
      && p.0.nextTemp == w.nextTemp && p.0.logs == HandledLog(w, j, stop)
      && p.0.events == w.events + TryEvents(j, tin, stop)
           + [KeyDeleted(j.job), KeySet(key, r[key])] + [DirRemoved(tin), DirRemoved(tout)]
  {
    var w3 := TryEffects(w, j, tin, stop);
    TryEffectsFrame(w, j, tin, stop);
    var w4 := if stop.RaiseAt? then w3.(logs := w3.logs[j.logPath := w3.LogOf(j.logPath) + [ErrorLine(stop.message)]]) else w3;
    assert HandlerSpec(w3, j, tin, tout, stop) == (w4, None);
    assert w4.logs == HandledLog(w, j, stop);
    CleanupCompletes(w4, j.job, j.user, tin, tout);
  }

  /** Lines 18-80 with an interrupt once `cfg` is bound: the handler cleans up
      and signals (or raises on the unbound `process`), then the repeated
      cleanup in finally raises on the first directory. */
  lemma {:induction false} ProtectedInterrupted(w: World, j: Job, tin: nat, tout: nat, stop: Fault)
    requires tin in w.dirs && tout in w.dirs && tin != tout
    requires Admissible(j, stop) && stop.InterruptAt? && CfgBound(stop)
    requires Released(w.registry, j.job, j.user).Some?
    ensures var p, key, r := Protected(w, j, tin, tout, stop), UserKey(j.user), Released(w.registry, j.job, j.user).value;
      p.1 == Escaped(DirMissing(tin)) && p.0.registry == r && p.0.dirs == w.dirs - {tin} - {tout}
      && p.0.nextTemp == w.nextTemp && p.0.logs == HandledLog(w, j, stop)
      && p.0.events == w.events + TryEvents(j, tin, stop)
           + [KeyDeleted(j.job), KeySet(key, r[key])] + [DirRemoved(tin), DirRemoved(tout)]
           + (if ProcessBound(stop) then [GroupSignalled(j.pid)] else [])
           + [KeyDeleted(j.job), KeySet(key, r[key])]
  {
    var w3 := TryEffects(w, j, tin, stop);
    TryEffectsFrame(w, j, tin, stop);
    CleanupCompletes(w3, j.job, j.user, tin, tout);
    var c := CleanupSpec(w3, j.job, j.user, tin, tout);
    var w4 := if ProcessBound(stop) then c.0.(events := c.0.events + [GroupSignalled(j.pid)]) else c.0;
    assert HandlerSpec(w3, j, tin, tout, stop).0 == w4;
    assert w4.events == c.0.events + (if ProcessBound(stop) then [GroupSignalled(j.pid)] else []);
    ReleaseIdempotent(w.registry, j.job, j.user);
    CleanupRepeated(w4, j.job, j.user, tin, tout);
  }

  /** Lines 18-80 when the try block stops before `cfg` is bound: the finally
      clause raises at `cfg.close()` before any cleanup. */
  lemma {:induction false} ProtectedCfgUnbound(w: World, j: Job, tin: nat, tout: nat, stop: Fault)
    requires tin in w.dirs && Admissible(j, stop) && !CfgBound(stop)
    ensures var p := Protected(w, j, tin, tout, stop);
      p.1 == Escaped(CfgUnbound) && p.0.registry == w.registry && p.0.dirs == w.dirs
      && p.0.events == w.events + TryEvents(j, tin, stop)
      && p.0.logs == if stop.RaiseAt? then w.logs[j.logPath := w.LogOf(j.logPath) + [ErrorLine(stop.message)]] else w.logs
  {
    TryEffectsFrame(w, j, tin, stop);
  }

  /** ProtectedCleansUp for the directories the two mkdtemp calls made. */
  lemma {:induction false} EnteredCleansUp(w: World, j: Job, stop: Fault)
    requires Admissible(j, stop) && !stop.InterruptAt? && CfgBound(stop)
    requires Released(w.registry, j.job, j.user).Some?
    ensures var tin, key, r := w.nextTemp, UserKey(j.user), Released(w.registry, j.job, j.user).value;
      var p := Protected(Entered(w), j, tin, tin + 1, stop);
      p.1 == Returned && p.0.registry == r && p.0.dirs == Entered(w).dirs - {tin} - {tin + 1}
      && p.0.nextTemp == tin + 2 && p.0.logs == HandledLog(w, j, stop)
      && p.0.events == w.events + TryEvents(j, tin, stop)
           + [KeyDeleted(j.job), KeySet(key, r[key])] + [DirRemoved(tin), DirRemoved(tin + 1)]
  {
    ProtectedCleansUp(Entered(w), j, w.nextTemp, w.nextTemp + 1, stop);
  }

  /** ProtectedInterrupted for the directories the two mkdtemp calls made. */
  lemma {:induction false} EnteredInterrupted(w: World, j: Job, stop: Fault)
    requires Admissible(j, stop) && stop.InterruptAt? && CfgBound(stop)
    requires Released(w.registry, j.job, j.user).Some?
    ensures var tin, key, r := w.nextTemp, UserKey(j.user), Released(w.registry, j.job, j.user).value;
      var p := Protected(Entered(w), j, tin, tin + 1, stop);
      p.1 == Escaped(DirMissing(tin)) && p.0.registry == r && p.0.dirs == Entered(w).dirs - {tin} - {tin + 1}
      && p.0.nextTemp == tin + 2 && p.0.logs == HandledLog(w, j, stop)
      && p.0.events == w.events + TryEvents(j, tin, stop)
           + [KeyDeleted(j.job), KeySet(key, r[key])] + [DirRemoved(tin), DirRemoved(tin + 1)]
           + (if ProcessBound(stop) then [GroupSignalled(j.pid)] else [])
           + [KeyDeleted(j.job), KeySet(key, r[key])]
  {
    assert HandledLog(Entered(w), j, stop) == HandledLog(w, j, stop);
    ProtectedInterrupted(Entered(w), j, w.nextTemp, w.nextTemp + 1, stop);
  }

  /** ProtectedCfgUnbound for the directories the two mkdtemp calls made. */
  lemma {:induction false} EnteredCfgUnbound(w: World, j: Job, stop: Fault)
    requires Admissible(j, stop) && !CfgBound(stop)
    ensures var tin := w.nextTemp;
      var p := Protected(Entered(w), j, tin, tin + 1, stop);
      p.1 == Escaped(CfgUnbound) && p.0.registry == w.registry && p.0.dirs == Entered(w).dirs
      && p.0.events == w.events + TryEvents(j, tin, stop)
      && p.0.logs == if stop.RaiseAt? then w.logs[j.logPath := w.LogOf(j.logPath) + [ErrorLine(stop.message)]] else w.logs
  {
    ProtectedCfgUnbound(Entered(w), j, w.nextTemp, w.nextTemp + 1, stop);
  }

  /** Removing the two directories a run made leaves the directories it found. */
  lemma {:induction false} FreshDirsRemoved(w: World)
    requires w.Valid()
    ensures var n := w.nextTemp; Entered(w).dirs - {n} - {n + 1} == w.dirs
  {
  }

  /** A run with no fault and a configured ImageJ path: the log is complete,
      the job is released, both directories are gone again, and the effects
      happen in the order of the source. */
  lemma {:induction false} NormalRun(w: World, j: Job)
    requires w.Valid()
    requires j.fault.NoFault? && j.imagej.Some?
    requires ActiveJobs(w.registry, UserKey(j.user)).Some?
    ensures Run(w, j).1 == Returned
    ensures Run(w, j).0.logs == w.logs[j.logPath := FullLog(j.imagej.value, j.output, j.exitCode)]
    ensures Run(w, j).0.dirs == w.dirs && Run(w, j).0.nextTemp == w.nextTemp + 2
    ensures Some(Run(w, j).0.registry) == Released(w.registry, j.job, j.user)
  {
    RunEntersTry(w, j, Stop(j));
    ReleasedWhenActive(w.registry, j.job, j.user);
    EnteredCleansUp(w, j, Stop(j));
    FreshDirsRemoved(w);
    var full := FullLog(j.imagej.value, j.output, j.exitCode);
    assert full[..Written(Stop(j), |j.output|)] == full;
  }

  /** The trace of a normal run, in the order of the source: write the project
      file, launch, register the pid, then release the job and remove both
      directories. */
  lemma {:induction false} NormalTrace(w: World, j: Job)
    requires j.fault.NoFault? && j.imagej.Some?
    requires j.job != UserKey(j.user) && ActiveJobs(w.registry, UserKey(j.user)).Some?
    ensures var tin, key := w.nextTemp, UserKey(j.user);
      Run(w, j).0.events == w.events
        + [FileWritten(tin, ProjectFile, j.config), Launched(j.pid), KeySet(j.job, Pid(j.pid))]
        + [KeyDeleted(j.job), KeySet(key, JobSet(ActiveJobs(w.registry, key).value - {j.job}))]
        + [DirRemoved(tin), DirRemoved(tin + 1)]
  {
    RunEntersTry(w, j, Stop(j));
    ReleasedWhenActive(w.registry, j.job, j.user);
    EnteredCleansUp(w, j, Stop(j));
  }

  /** An exception inside the try block once `cfg` is bound: the handler appends
      the error line to whatever the log holds, and the finally clause cleans up. */
  lemma {:induction false} ExceptionRun(w: World, j: Job, stop: Fault)
    requires Admissible(j, stop)
    requires w.Valid()
    requires stop.RaiseAt? && CfgBound(stop)
    requires Released(w.registry, j.job, j.user).Some?
    ensures Ending(w, j, stop) == Returned
    ensures Final(w, j, stop).logs == w.logs[j.logPath :=
      (if Completes(stop, OpenLog) then TryLog(j, stop) else w.LogOf(j.logPath)) + [ErrorLine(stop.message)]]
    ensures Final(w, j, stop).registry == Released(w.registry, j.job, j.user).value
    ensures Final(w, j, stop).dirs == w.dirs
  {
    RunEntersTry(w, j, stop);
    EnteredCleansUp(w, j, stop);
    FreshDirsRemoved(w);
  }

  /** A configuration without an ImageJ path: the header write raises a
      TypeError after the log was truncated, so the log holds only the error
      line; any fault requested for a later step, or for an output line never
      printed, is pre-empted. */
  lemma {:induction false} MissingImageJ(w: World, j: Job)
    requires w.Valid()
    requires j.imagej.None?
    requires j.fault.NoFault? || !Reached(j.fault.step, |j.output|) || Rank(j.fault.step) > Rank(WriteHeader)
    requires Released(w.registry, j.job, j.user).Some?
    ensures Ending(w, j, Stop(j)) == Returned
    ensures Final(w, j, Stop(j)).logs == w.logs[j.logPath := [ErrorLine(NoneConcatenation)]]
  {
    var stop := Stop(j);
    assert stop == RaiseAt(WriteHeader, NoneConcatenation);
    assert TryLog(j, stop) + [ErrorLine(NoneConcatenation)] == [ErrorLine(NoneConcatenation)];
    ExceptionRun(w, j, stop);
  }

  /** A fault before `cfg` is bound leaves at most the project file in the trace. */
  lemma {:induction false} EarlyTryEvents(j: Job, tin: nat, stop: Fault)
    requires StopsAt(stop, WriteProjectFile) || StopsAt(stop, LoadConfig)
    ensures TryEvents(j, tin, stop) == if StopsAt(stop, LoadConfig) then [FileWritten(tin, ProjectFile, j.config)] else []
  {
  }

  /** A fault before `cfg` is bound (lines 19-24): `cfg.close()` in finally
      raises, so nothing is cleaned up — the registry is untouched and both
      directories are left behind. */
  lemma {:induction false} FaultBeforeConfig(w: World, j: Job, stop: Fault)
    requires Admissible(j, stop)
    requires StopsAt(stop, WriteProjectFile) || StopsAt(stop, LoadConfig)
    ensures Ending(w, j, stop) == Escaped(CfgUnbound)
    ensures Final(w, j, stop).registry == w.registry
    ensures w.nextTemp in Final(w, j, stop).dirs && w.nextTemp + 1 in Final(w, j, stop).dirs
    ensures Final(w, j, stop).events == w.events
      + (if StopsAt(stop, LoadConfig) then [FileWritten(w.nextTemp, ProjectFile, j.config)] else [])
    ensures Final(w, j, stop).logs == if stop.RaiseAt?
      then w.logs[j.logPath := w.LogOf(j.logPath) + [ErrorLine(stop.message)]] else w.logs
  {
    EarlyTryEvents(j, w.nextTemp, stop);
    RunEntersTry(w, j, stop);
    EnteredCfgUnbound(w, j, stop);
  }

  /** A fault at one of the mkdtemp calls (lines 15-16), outside the try
      statement: it escapes at once, and a first directory already made is leaked. */
  lemma {:induction false} FaultOutsideTry(w: World, j: Job, stop: Fault)
    requires Admissible(j, stop)
    requires StopsAt(stop, MakeInputDir) || StopsAt(stop, MakeOutputDir)
    ensures Ending(w, j, stop) == Escaped(Thrown(stop))
    ensures Final(w, j, stop) == if StopsAt(stop, MakeInputDir) then w
      else w.(dirs := w.dirs + {w.nextTemp}, nextTemp := w.nextTemp + 1)
  {
  }

  /** An interrupt once `cfg` is bound. The except clause cleans up, removes
      both directories and only then signals the process group (if `process` is
      bound; otherwise it raises). The finally clause then repeats the cleanup:
      the registry part changes nothing, but the first rmtree raises because the
      directory is already gone, and that error is what escapes. */
  lemma {:induction false} InterruptRun(w: World, j: Job, stop: Fault)
    requires Admissible(j, stop)
    requires w.Valid()
    requires stop.InterruptAt? && CfgBound(stop)
    requires Released(w.registry, j.job, j.user).Some?
    ensures Ending(w, j, stop) == Escaped(DirMissing(w.nextTemp))
    ensures Final(w, j, stop).registry == Released(w.registry, j.job, j.user).value
    ensures Final(w, j, stop).dirs == w.dirs
    ensures Final(w, j, stop).logs == HandledLog(w, j, stop)
  {
    RunEntersTry(w, j, stop);
    EnteredInterrupted(w, j, stop);
    FreshDirsRemoved(w);
  }

  /** An interrupt while line k of the output is being copied: the log keeps the
      header and the first k lines, with neither an exit marker nor an error line. */
  lemma {:induction false} InterruptedStreamLog(w: World, j: Job, k: nat)
    requires k < |j.output| && j.imagej.Some?
    requires w.Valid()
    requires Released(w.registry, j.job, j.user).Some?
    ensures var stop := InterruptAt(Stream(k));
      Final(w, j, stop).logs == w.logs[j.logPath := [Header(j.imagej.value)] + j.output[..k]]
  {
    var stop := InterruptAt(Stream(k));
    assert Streamed(stop, |j.output|) == k && Completes(stop, OpenLog) && !Completes(stop, WriteMarker);
    StreamedLog(j, stop);
    assert HandledLog(w, j, stop) == w.logs[j.logPath := TryLog(j, stop)];
    InterruptRun(w, j, stop);
  }

  /** The trace of an interrupted run: the cleanup appears twice, and the
      signal to the process group comes after both directories are removed. */
  lemma {:induction false} InterruptTrace(w: World, j: Job, stop: Fault)
    requires Admissible(j, stop)
    requires stop.InterruptAt? && CfgBound(stop)
    requires Released(w.registry, j.job, j.user).Some?
    ensures var tin, key, r := w.nextTemp, UserKey(j.user), Released(w.registry, j.job, j.user).value;
      Final(w, j, stop).events == w.events + TryEvents(j, tin, stop)
        + [KeyDeleted(j.job), KeySet(key, r[key])] + [DirRemoved(tin), DirRemoved(tin + 1)]
        + (if ProcessBound(stop) then [GroupSignalled(j.pid)] else [])
        + [KeyDeleted(j.job), KeySet(key, r[key])]
  {
    RunEntersTry(w, j, stop);
    EnteredInterrupted(w, j, stop);
  }
}
