/** The resource lifecycle of a desktop browser backend as functions over a
    value: launching the browser (`__init__` and `GetBrowserStartupArgs`), the
    bounded wait for it to close (`util.WaitFor` with the inner `IsClosed`), and
    the two-phase shutdown (`Close`). The class in module Desktop is proved
    against these functions; the lemmas here state what they guarantee. */
module Lifecycle {
  import opened Wrappers
  import opened Decimal
  import opened Processes

  type Path = string

  /** Python truthiness of a path string. */
  predicate Truthy(path: Path) {
    path != ""
  }

  /** The options the backend reads. */
  datatype BrowserOptions = BrowserOptions(
    extensionsToLoad: seq<Path>,
    showStdout: bool,
    dontOverrideProfile: bool)

  /** The unbuffered temporary file that captures stdout and stderr. */
  datatype OutputFile = OutputFile(name: Path)

  /** The effects the backend has on the operating system, in order. */
  datatype Event =
    | PortAllocated(port: nat)
    | TempDirCreated(dir: Path)
    | OutputFileCreated(file: OutputFile)
    | Spawned(args: seq<string>, stdout: Option<OutputFile>)
    | Terminated
    | Killed
    | DirRemoved(dir: Path)
    | FileClosed(file: OutputFile)

  /** The exceptions the backend raises. */
  datatype Failure =
    | NoExecutable            // 'Cannot create browser, no executable found!'
    | ExtensionsNotSupported  // content shell asked to load extensions
    | StartupFailed           // the readiness wait or post-startup step raised
    | ShutdownFailed          // 'Could not shutdown the browser.'
    | SpawnFailed             // `subprocess.Popen` raised (e.g. OSError)
    | OutputNotCaptured       // the assertion in GetStandardOutput
    | NoProcess               // `None` has no `poll`

  /** The backend's three resource fields together with the part of the system
      they refer to: the directories that exist, the clock in ticks, and the
      effects so far. */
  datatype State = State(
    proc: Option<Process>,
    tmpdir: Option<Path>,
    outputFile: Option<OutputFile>,
    dirs: set<Path>,
    now: nat,
    trace: seq<Event>)

  /** What the surroundings supply to a launch: the free port, the base class's
      startup arguments, the directory `mkdtemp` makes, the file
      `NamedTemporaryFile` opens, whether `Popen` succeeds, how the spawned
      process behaves, and whether the readiness wait and post-startup step
      succeed. */
  datatype Launcher = Launcher(
    port: nat,
    baseArgs: seq<string>,
    freshDir: Path,
    outputFile: OutputFile,
    spawns: bool,
    behaviour: Behaviour,
    comesUp: bool)

  const GracefulTimeout: nat := 1
  const ForcedTimeout: nat := 5

  const PortFlagPrefix := "--remote-debugging-port="
  const WindowSizeFlag := "--window-size=1280,1024"
  const BenchmarkingFlag := "--enable-benchmarking"
  const UserDataDirPrefix := "--user-data-dir="

  /** The list `GetBrowserStartupArgs` returns: the base arguments, then the
      fixed flags, then the profile flag when a profile directory was made. */
  function StartupArgs(baseArgs: seq<string>, port: nat, profileDir: Option<Path>): (args: seq<string>) {
    baseArgs + [PortFlagPrefix + NatToString(port), WindowSizeFlag, BenchmarkingFlag]
    + (if profileDir.Some? then [UserDataDirPrefix + profileDir.value] else [])
  }

  /** Reads the port back from a `--remote-debugging-port=` flag. */
  function PortOfFlag(flag: string): (r: Option<nat>) {
    if |flag| > |PortFlagPrefix| && flag[..|PortFlagPrefix|] == PortFlagPrefix && AllDigits(flag[|PortFlagPrefix|..])
    then Some(ParseNat(flag[|PortFlagPrefix|..]))
    else None
  }

  /** The command line spawned: executable first, then the base arguments, then
      a port flag naming the port, the window size and benchmarking flags, and
      last the profile flag exactly when a profile directory is given. */
  lemma CommandLineLayout(executable: string, baseArgs: seq<string>, port: nat, profileDir: Option<Path>)
    ensures var args := [executable] + StartupArgs(baseArgs, port, profileDir);
      && |args| == |baseArgs| + 4 + (if profileDir.Some? then 1 else 0)
      && args[0] == executable
      && args[1..|baseArgs| + 1] == baseArgs
      && PortOfFlag(args[|baseArgs| + 1]) == Some(port)
      && args[|baseArgs| + 2] == WindowSizeFlag
      && args[|baseArgs| + 3] == BenchmarkingFlag
      && (profileDir.Some? <==> |args[|args| - 1]| >= |UserDataDirPrefix| && args[|args| - 1][..|UserDataDirPrefix|] == UserDataDirPrefix)
      && (profileDir.Some? ==> args[|args| - 1] == UserDataDirPrefix + profileDir.value)
  {
    var args := [executable] + StartupArgs(baseArgs, port, profileDir);
    var flag := PortFlagPrefix + NatToString(port);
    assert args[|baseArgs| + 1] == flag;
    assert flag[..|PortFlagPrefix|] == PortFlagPrefix;
    assert flag[|PortFlagPrefix|..] == NatToString(port);
    ParseNatToString(port);
    if profileDir.None? {
      assert args[|args| - 1] == BenchmarkingFlag;
      assert BenchmarkingFlag[2] != UserDataDirPrefix[2];
    }
  }

  /** The inner `IsClosed` of `Close`: no handle, or the process has exited. */
  predicate IsClosed(proc: Option<Process>, t: nat) {
    proc.None? || HasExited(proc.value, t)
  }

  /** How `util.WaitFor` returned, and at which tick. */
  datatype WaitResult = Done(at: nat) | TimedOut(at: nat)

  /** `util.WaitFor(IsClosed, timeout)` polling from tick t with `budget` ticks
      left: poll; if closed, return at once; otherwise one tick passes, and the
      wait times out once more than the timeout has elapsed. */
  function WaitOutcome(proc: Option<Process>, t: nat, budget: nat): (r: WaitResult)
    ensures r.Done? <==> IsClosed(proc, t + budget)
    ensures r.Done? ==> t <= r.at <= t + budget && IsClosed(proc, r.at)
    ensures r.Done? ==> forall u :: t <= u < r.at ==> !IsClosed(proc, u)
    ensures r.TimedOut? ==> r.at == t + budget + 1
    decreases budget
  {
    if IsClosed(proc, t) then Done(t)
    else if budget == 0 then TimedOut(t + 1)
    else WaitOutcome(proc, t + 1, budget - 1)
  }

  /** The poll loop of `util.WaitFor`. */
  method WaitFor(proc: Option<Process>, start: nat, timeout: nat) returns (closed: bool, at: nat)
    ensures WaitOutcome(proc, start, timeout) == if closed then Done(at) else TimedOut(at)
    ensures closed <==> IsClosed(proc, start + timeout)
  {
    at := start;
    while true
      invariant start <= at <= start + timeout
      invariant WaitOutcome(proc, at, start + timeout - at) == WaitOutcome(proc, start, timeout)
      decreases start + timeout - at
    {
      if IsClosed(proc, at) {
        return true, at;
      }
      at := at + 1;
      if at - start > timeout {
        return false, at;
      }
    }
  }

  /** Lines 105-111 of `Close`: remove the profile directory if it is set and
      still exists, then close the output file. */
  function Cleanup(s: State): (c: State)
    ensures c.proc == s.proc && c.now == s.now && c.outputFile.None?
    ensures if s.tmpdir.Some? && Truthy(s.tmpdir.value) && s.tmpdir.value in s.dirs
            then c.tmpdir.None? && c.dirs == s.dirs - {s.tmpdir.value}
            else c.tmpdir == s.tmpdir && c.dirs == s.dirs
    ensures c.trace == s.trace
      + (if s.tmpdir != c.tmpdir then [DirRemoved(s.tmpdir.value)] else [])
      + (if s.outputFile.Some? then [FileClosed(s.outputFile.value)] else [])
  {
    var s1 :=
      if s.tmpdir.Some? && Truthy(s.tmpdir.value) && s.tmpdir.value in s.dirs
      then s.(tmpdir := None, dirs := s.dirs - {s.tmpdir.value}, trace := s.trace + [DirRemoved(s.tmpdir.value)])
      else s;
    if s1.outputFile.Some?
    then s1.(outputFile := None, trace := s1.trace + [FileClosed(s1.outputFile.value)])
    else s1
  }

  /** Lines 80-103 of `Close`: terminate and wait, then kill and wait if the
      process is still running. Only the handle, the clock and the effects
      change; a forced wait that times out clears the handle and raises. */
  function StopProcess(s: State): (r: (State, Outcome<Failure>))
    ensures r.0.tmpdir == s.tmpdir && r.0.outputFile == s.outputFile && r.0.dirs == s.dirs
    ensures s.trace <= r.0.trace
    ensures r.1.Pass? ==> IsClosed(r.0.proc, r.0.now)
    ensures r.1.Fail? ==> r.1.error == ShutdownFailed && r.0.proc.None?
  {
    if s.proc.None? then (s, Pass)
    else
      var terminated := s.(proc := Some(Terminate(s.proc.value, s.now)), trace := s.trace + [Terminated]);
      var graceful := WaitOutcome(terminated.proc, s.now, GracefulTimeout);
      var s2 := terminated.(proc := if graceful.Done? then None else terminated.proc, now := graceful.at);
      if IsClosed(s2.proc, s2.now) then (s2, Pass)
      else
        var killed := s2.(proc := Some(Kill(s2.proc.value, s2.now)), trace := s2.trace + [Killed]);
        var forced := WaitOutcome(killed.proc, killed.now, ForcedTimeout);
        var s3 := killed.(proc := None, now := forced.at);
        if forced.Done? then (s3, Pass) else (s3, Fail(ShutdownFailed))
  }

  /** `Close`: stop the process, then clean up. A forced wait that times out
      raises before the clean-up runs. */
  function Shutdown(s: State): (r: (State, Outcome<Failure>))
    ensures s.trace <= r.0.trace
    ensures r.1.Fail? ==> r.1.error == ShutdownFailed && r.0.proc.None?
  {
    var stopped := StopProcess(s);
    if stopped.1.Pass? then (Cleanup(stopped.0), Pass) else stopped
  }

  /** Lines 34-43 of `__init__`: allocate the port, build the arguments
      (making the profile directory), open the output file when output is
      captured, and spawn. A spawn that raises leaves what was made before. */
  function StartBrowser(s: State, options: BrowserOptions, executable: string, w: Launcher): (r: (State, Outcome<Failure>))
    ensures s.trace <= r.0.trace
    ensures r.1.Fail? ==> r.1.error == SpawnFailed && r.0.proc == s.proc
    ensures r.1.Pass? ==> r.0.proc == Some(Spawn(w.behaviour))
  {
    var withPort := s.(trace := s.trace + [PortAllocated(w.port)]);
    var withProfile :=
      if !options.dontOverrideProfile
      then withPort.(tmpdir := Some(w.freshDir), dirs := withPort.dirs + {w.freshDir}, trace := withPort.trace + [TempDirCreated(w.freshDir)])
      else withPort;
    var args := [executable] + StartupArgs(w.baseArgs, w.port, if options.dontOverrideProfile then None else Some(w.freshDir));
    var withOutput :=
      if !options.showStdout
      then withProfile.(outputFile := Some(w.outputFile), trace := withProfile.trace + [OutputFileCreated(w.outputFile)])
      else withProfile;
    if !w.spawns then (withOutput, Fail(SpawnFailed))
    else (withOutput.(proc := Some(Spawn(w.behaviour)), trace := withOutput.trace + [Spawned(args, withOutput.outputFile)]), Pass)
  }

  /** `__init__` after the three resource fields were set to `None`: validate,
      start the browser, and wait for it. A spawn that raises propagates at
      once, before the `try`; a failed wait runs `Close` and the exception
      propagates (the one `Close` raised, if it raised). */
  function Launch(s: State, options: BrowserOptions, executable: Option<string>, isContentShell: bool, w: Launcher): (r: (State, Outcome<Failure>))
    ensures executable.None? || executable.value == "" ==> r == (s, Fail(NoExecutable))
    ensures executable.Some? && executable.value != "" && |options.extensionsToLoad| > 0 && isContentShell
      ==> r == (s, Fail(ExtensionsNotSupported))
    ensures s.trace <= r.0.trace
  {
    if executable.None? || executable.value == "" then (s, Fail(NoExecutable))
    else if |options.extensionsToLoad| > 0 && isContentShell then (s, Fail(ExtensionsNotSupported))
    else
      var started := StartBrowser(s, options, executable.value, w);
      if started.1.Fail? || w.comesUp then started
      else
        var closed := Shutdown(started.0);
        (closed.0, if closed.1.Fail? then closed.1 else Fail(StartupFailed))
  }

  /** The resource fields as `__init__` leaves them before any check can raise. */
  predicate Unset(s: State) {
    s.proc.None? && s.tmpdir.None? && s.outputFile.None?
  }

  /** A profile directory that `Close` would remove. */
  predicate HoldsDir(s: State) {
    s.tmpdir.Some? && Truthy(s.tmpdir.value) && s.tmpdir.value in s.dirs
  }

  /** A launch that passes validation and whose browser comes up leaves a
      spawned process, a profile directory exactly when the profile is
      overridden (named in the last argument), and an output file exactly when
      output is captured; the port is allocated first and the spawn is last. */
  lemma LaunchStarted(s: State, options: BrowserOptions, executable: Option<string>, isContentShell: bool, w: Launcher)
    requires Unset(s)
    requires executable.Some? && executable.value != ""
    requires !(|options.extensionsToLoad| > 0 && isContentShell)
    requires w.spawns && w.comesUp
    ensures var r := Launch(s, options, executable, isContentShell, w);
      && r.1 == Pass
      && r.0.proc == Some(Spawn(w.behaviour))
      && (r.0.tmpdir.Some? <==> !options.dontOverrideProfile)
      && (r.0.tmpdir.Some? ==> r.0.tmpdir.value == w.freshDir && w.freshDir in r.0.dirs)
      && (r.0.outputFile.Some? <==> !options.showStdout)
      && (r.0.outputFile.Some? ==> r.0.outputFile.value == w.outputFile)
      && r.0.trace[|s.trace|] == PortAllocated(w.port)
      && r.0.trace[|r.0.trace| - 1] == Spawned([executable.value] + StartupArgs(w.baseArgs, w.port, r.0.tmpdir), r.0.outputFile)
  {
  }

  /** A `Popen` that raises propagates without `Close`: no process is held, but
      the profile directory and the output file made before it stay held. */
  lemma LaunchSpawnFailureKeepsResources(s: State, options: BrowserOptions, executable: Option<string>, isContentShell: bool, w: Launcher)
    requires Unset(s)
    requires executable.Some? && executable.value != ""
    requires !(|options.extensionsToLoad| > 0 && isContentShell)
    requires !w.spawns
    ensures var r := Launch(s, options, executable, isContentShell, w);
      && r.1 == Fail(SpawnFailed)
      && r.0.proc.None?
      && (r.0.tmpdir.Some? <==> !options.dontOverrideProfile)
      && (r.0.tmpdir.Some? ==> r.0.tmpdir.value == w.freshDir && w.freshDir in r.0.dirs)
      && (r.0.outputFile.Some? <==> !options.showStdout)
      && Terminated !in r.0.trace[|s.trace|..]
  {
  }

  /** A launch whose browser does not come up ends as the same launch coming
      up followed by `Close`. It raises StartupFailed exactly when that `Close`
      returns, and then nothing is left behind; when the forced wait times
      out, `Close`'s own exception replaces it and the profile directory and
      output file stay allocated. */
  lemma LaunchFailureCloses(s: State, options: BrowserOptions, executable: Option<string>, isContentShell: bool, w: Launcher)
    requires Unset(s)
    requires executable.Some? && executable.value != ""
    requires !(|options.extensionsToLoad| > 0 && isContentShell)
    requires w.spawns && !w.comesUp && Truthy(w.freshDir)
    ensures var r := Launch(s, options, executable, isContentShell, w);
      var up := Launch(s, options, executable, isContentShell, w.(comesUp := true)).0;
      && r.0 == Shutdown(up).0
      && (r.1 == Fail(StartupFailed) <==> Shutdown(up).1.Pass?)
      && (r.1 == Fail(StartupFailed) || r.1 == Fail(ShutdownFailed))
      && (r.1 == Fail(StartupFailed) ==>
            IsClosed(r.0.proc, r.0.now) && r.0.tmpdir.None? && r.0.outputFile.None?
            && (!options.dontOverrideProfile ==> w.freshDir !in r.0.dirs))
      && (r.1 == Fail(ShutdownFailed) ==>
            r.0.proc.None?
            && (r.0.tmpdir.Some? <==> !options.dontOverrideProfile)
            && (r.0.outputFile.Some? <==> !options.showStdout))
  {
    var up := w.(comesUp := true);
    assert StartBrowser(s, options, executable.value, w) == StartBrowser(s, options, executable.value, up);
    ShutdownPassed(StartBrowser(s, options, executable.value, w).0);
  }

  /** With no process, `Close` neither terminates nor kills: it goes straight
      to the clean-up. */
  lemma ShutdownWithoutProcess(s: State)
    requires s.proc.None?
    ensures var r := Shutdown(s);
      && r == (Cleanup(s), Pass)
      && Terminated !in r.0.trace[|s.trace|..] && Killed !in r.0.trace[|s.trace|..]
  {
  }

  /** A process that exits within the graceful wait after terminate: the handle
      is cleared, kill is never sent, and the clean-up runs. */
  lemma GracefulShutdown(s: State)
    requires s.proc.Some?
    requires HasExited(Terminate(s.proc.value, s.now), s.now + GracefulTimeout)
    ensures var r := Shutdown(s);
      && r.1 == Pass && r.0.proc.None? && r.0.outputFile.None? && !HoldsDir(r.0)
      && (HoldsDir(s) ==> r.0.tmpdir.None? && s.tmpdir.value !in r.0.dirs)
      && r.0.trace[|s.trace|] == Terminated && Killed !in r.0.trace[|s.trace|..]
      && r.0.now <= s.now + GracefulTimeout
  {
  }

  /** A process that exits after the graceful wait timed out but before the
      re-check: kill is skipped and the handle is NOT cleared. */
  lemma GracefulTimeoutButExited(s: State)
    requires s.proc.Some?
    requires !HasExited(Terminate(s.proc.value, s.now), s.now + GracefulTimeout)
    requires HasExited(Terminate(s.proc.value, s.now), s.now + GracefulTimeout + 1)
    ensures var r := Shutdown(s);
      && r.1 == Pass && r.0.proc == Some(Terminate(s.proc.value, s.now))
      && r.0.now == s.now + GracefulTimeout + 1
      && r.0.outputFile.None? && !HoldsDir(r.0)
      && r.0.trace[|s.trace|] == Terminated && Killed !in r.0.trace[|s.trace|..]
  {
  }

  /** A process still running at the re-check is killed; if it exits within
      the forced wait the handle is cleared and the clean-up runs. */
  lemma ForcedShutdown(s: State)
    requires s.proc.Some?
    requires var q := Terminate(s.proc.value, s.now);
      && !HasExited(q, s.now + GracefulTimeout + 1)
      && HasExited(Kill(q, s.now + GracefulTimeout + 1), s.now + GracefulTimeout + 1 + ForcedTimeout)
    ensures var r := Shutdown(s);
      && r.1 == Pass && r.0.proc.None? && r.0.outputFile.None? && !HoldsDir(r.0)
      && (HoldsDir(s) ==> r.0.tmpdir.None? && s.tmpdir.value !in r.0.dirs)
      && r.0.trace[|s.trace|..|s.trace| + 2] == [Terminated, Killed]
  {
  }

  /** A process that survives both waits: the handle is cleared and the
      exception is raised before the clean-up, so the profile directory and
      the output file are left as they were. */
  lemma ForcedShutdownTimeout(s: State)
    requires s.proc.Some?
    requires var q := Terminate(s.proc.value, s.now);
      && !HasExited(q, s.now + GracefulTimeout + 1)
      && !HasExited(Kill(q, s.now + GracefulTimeout + 1), s.now + GracefulTimeout + 1 + ForcedTimeout)
    ensures Shutdown(s) == (
      s.(proc := None, now := s.now + GracefulTimeout + ForcedTimeout + 2, trace := s.trace + [Terminated, Killed]),
      Fail(ShutdownFailed))
  {
    assert s.trace + [Terminated] + [Killed] == s.trace + [Terminated, Killed];
  }

  /** After a `Close` that returned normally, the process is closed, the output
      file is released, and a profile directory is left set only if it is not
      one `Close` could remove. A `Close` that raised has cleared the handle. */
  lemma ShutdownPassed(s: State)
    ensures var r := Shutdown(s);
      && (r.1.Pass? ==> IsClosed(r.0.proc, r.0.now) && r.0.outputFile.None? && !HoldsDir(r.0))
      && (r.1.Pass? && HoldsDir(s) ==>
            r.0.tmpdir.None? && s.tmpdir.value !in r.0.dirs && DirRemoved(s.tmpdir.value) in r.0.trace[|s.trace|..])
      && (r.1.Pass? && s.outputFile.Some? ==> FileClosed(s.outputFile.value) in r.0.trace[|s.trace|..])
      && (r.1.Pass? && r.0.tmpdir.Some? ==> r.0.tmpdir == s.tmpdir)
      && (r.1.Fail? ==> r.0.proc.None? && r.0.tmpdir == s.tmpdir && r.0.outputFile == s.outputFile)
  {
    var stopped := StopProcess(s);
    if stopped.1.Pass? {
      CleanupRecords(stopped.0, |s.trace|);
    }
  }

  /** The clean-up records the removal of the directory it holds and the
      closing of its output file, after any earlier effects. */
  lemma CleanupRecords(x: State, k: nat)
    requires k <= |x.trace|
    ensures HoldsDir(x) ==> DirRemoved(x.tmpdir.value) in Cleanup(x).trace[k..]
    ensures x.outputFile.Some? ==> FileClosed(x.outputFile.value) in Cleanup(x).trace[k..]
  {
    var c := Cleanup(x);
    var added := c.trace[|x.trace|..];
    assert c.trace[k..] == x.trace[k..] + added;
    if HoldsDir(x) {
      assert added[0] == DirRemoved(x.tmpdir.value);
    }
    if x.outputFile.Some? {
      assert added[|added| - 1] == FileClosed(x.outputFile.value);
    }
  }

  /** On a backend with nothing left to release, `Close` changes nothing and
      raises nothing. */
  lemma ShutdownOfReleased(s: State)
    requires s.proc.None? && s.outputFile.None? && !HoldsDir(s)
    ensures Shutdown(s) == (s, Pass)
  {
  }

  /** A second `Close` after one that returned with the handle cleared changes
      nothing and raises nothing. */
  lemma ShutdownIdempotent(s: State)
    requires Shutdown(s).1.Pass? && Shutdown(s).0.proc.None?
    ensures Shutdown(Shutdown(s).0) == (Shutdown(s).0, Pass)
  {
    ShutdownPassed(s);
    ShutdownOfReleased(Shutdown(s).0);
  }

  /** Whatever the first `Close` did (returned with an exited handle still set,
      or raised before the clean-up), a second `Close` returns normally and
      releases everything, and a third changes nothing. */
  lemma ShutdownTwice(s: State)
    ensures var s2 := Shutdown(Shutdown(s).0);
      && s2.1 == Pass && s2.0.proc.None? && s2.0.outputFile.None? && !HoldsDir(s2.0)
      && Shutdown(s2.0) == (s2.0, Pass)
  {
    var s1 := Shutdown(s).0;
    ShutdownPassed(s);
    if s1.proc.Some? {
      ExitIsFinal(s1.proc.value, s1.now, s1.now, s1.now);
    }
    ShutdownOfReleased(Shutdown(s1).0);
  }
}
