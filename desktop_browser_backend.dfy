/** The backend that launches and controls a browser on the local machine.
    Its methods update the three resource fields step by step, as the Python
    class does, and each is proved to agree with the function in Lifecycle
    that specifies it, through the value `Snapshot()`. */
module Desktop {
  import opened Wrappers
  import opened Decimal
  import opened Processes
  import opened Lifecycle

  /** The parts of the operating system the backend touches: the directories
      that exist, the clock in ticks, and (ghost) the effects so far. */
  class Os {
    var dirs: set<Path>
    var now: nat
    ghost var trace: seq<Event>

    constructor (dirs: set<Path>, now: nat)
      ensures this.dirs == dirs && this.now == now && trace == []
    {
      this.dirs := dirs;
      this.now := now;
      trace := [];
    }
  }

  class DesktopBrowserBackend {
    const os: Os
    const options: BrowserOptions
    const isContentShell: bool
    const supportsExtensions: bool
    var executable: Option<string>
    var port: Option<nat>
    var proc: Option<Process>
    var tmpdir: Option<Path>
    var tmpOutputFile: Option<OutputFile>

    /** The backend's resource fields and the system they refer to, as a value. */
    ghost function Snapshot(): State
      reads this, os
    {
      State(proc, tmpdir, tmpOutputFile, os.dirs, os.now, os.trace)
    }

    /** The base class records the options; the three resource fields are set
        to `None` before anything can raise. */
    constructor (os: Os, options: BrowserOptions, isContentShell: bool)
      ensures this.os == os && this.options == options && this.isContentShell == isContentShell
      ensures supportsExtensions == !isContentShell
      ensures proc.None? && tmpdir.None? && tmpOutputFile.None?
      ensures executable.None? && port.None?
    {
      this.os := os;
      this.options := options;
      this.isContentShell := isContentShell;
      supportsExtensions := !isContentShell;
      executable := None;
      port := None;
      proc := None;
      tmpdir := None;
      tmpOutputFile := None;
    }

    /** The rest of `__init__`: validate, allocate the port, spawn the browser
        and wait for it; a failed spawn raises at once, a failed wait runs
        `Close` and re-raises. */
    method Initialize(executable: Option<string>, w: Launcher) returns (outcome: Outcome<Failure>)
      requires proc.None? && tmpdir.None? && tmpOutputFile.None?
      modifies this, os
      ensures (Snapshot(), outcome) == Launch(old(Snapshot()), options, executable, isContentShell, w)
      ensures this.executable == executable
      ensures outcome == Fail(NoExecutable) || outcome == Fail(ExtensionsNotSupported) ==> port == old(port)
      ensures outcome.Pass? || outcome.error in {ShutdownFailed, StartupFailed, SpawnFailed} ==> port == Some(w.port)
    {
      this.executable := executable;
      if executable.None? || executable.value == "" {
        return Fail(NoExecutable);
      }
      if |options.extensionsToLoad| > 0 && isContentShell {
        return Fail(ExtensionsNotSupported);
      }
      port := Some(w.port);
      os.trace := os.trace + [PortAllocated(w.port)];
      var startupArgs := GetBrowserStartupArgs(w.baseArgs, w.freshDir);
      var args := [executable.value] + startupArgs;
      if !options.showStdout {
        tmpOutputFile := Some(w.outputFile);
        os.trace := os.trace + [OutputFileCreated(w.outputFile)];
        if !w.spawns {
          return Fail(SpawnFailed);
        }
        proc := Some(Spawn(w.behaviour));
        os.trace := os.trace + [Spawned(args, tmpOutputFile)];
      } else {
        if !w.spawns {
          return Fail(SpawnFailed);
        }
        proc := Some(Spawn(w.behaviour));
        os.trace := os.trace + [Spawned(args, None)];
      }
      if !w.comesUp {
        outcome := Close();
        if outcome.Pass? {
          outcome := Fail(StartupFailed);
        }
        return;
      }
      outcome := Pass;
    }

    /** Appends the port, window size and benchmarking flags to the base
        arguments and, unless the profile is kept, makes a temporary profile
        directory and appends the flag naming it. */
    method GetBrowserStartupArgs(baseArgs: seq<string>, freshDir: Path) returns (args: seq<string>)
      requires port.Some?
      modifies this`tmpdir, os`dirs, os`trace
      ensures args == StartupArgs(baseArgs, port.value, if options.dontOverrideProfile then None else Some(freshDir))
      ensures if options.dontOverrideProfile
              then tmpdir == old(tmpdir) && os.dirs == old(os.dirs) && os.trace == old(os.trace)
              else tmpdir == Some(freshDir) && os.dirs == old(os.dirs) + {freshDir}
                   && os.trace == old(os.trace) + [TempDirCreated(freshDir)]
    {
      args := baseArgs;
      args := args + [PortFlagPrefix + NatToString(port.value)];
      args := args + [WindowSizeFlag];
      args := args + [BenchmarkingFlag];
      if !options.dontOverrideProfile {
        tmpdir := Some(freshDir);
        os.dirs := os.dirs + {freshDir};
        os.trace := os.trace + [TempDirCreated(freshDir)];
        args := args + [UserDataDirPrefix + freshDir];
      }
    }

    /** `poll() == None`; without a process handle the call raises. */
    function IsBrowserRunning(): (r: Result<bool, Failure>)
      reads this, os
      ensures r.Err? <==> proc.None?
      ensures r.Err? ==> r.error == NoProcess
      ensures r.Ok? ==> (r.value <==> !IsClosed(proc, os.now))
    {
      if proc.None? then Err(NoProcess) else Ok(!HasExited(proc.value, os.now))
    }

    /** The captured output. `read` is what reading the file yields, `None`
        when the read raises IOError. Fails only when output is not captured. */
    function GetStandardOutput(read: Option<string>): (r: Result<string, Failure>)
      reads this
      ensures r.Err? <==> tmpOutputFile.None?
      ensures r.Err? ==> r.error == OutputNotCaptured
      ensures r.Ok? && read.Some? ==> r.value == read.value
      ensures r.Ok? && read.None? ==> r.value == ""
    {
      if tmpOutputFile.None? then Err(OutputNotCaptured)
      else match read
        case Some(contents) => Ok(contents)
        case None => Ok("")
    }

    /** Two-phase shutdown, then removal of the profile directory and closing
        of the output file. */
    method Close() returns (outcome: Outcome<Failure>)
      modifies this, os
      ensures (Snapshot(), outcome) == Shutdown(old(Snapshot()))
      ensures executable == old(executable) && port == old(port)
    {
      if proc.Some? {
        proc := Some(Terminate(proc.value, os.now));
        os.trace := os.trace + [Terminated];
        var closed, at := WaitFor(proc, os.now, GracefulTimeout);
        os.now := at;
        if closed {
          proc := None;
        }
        if !IsClosed(proc, os.now) {
          proc := Some(Kill(proc.value, os.now));
          os.trace := os.trace + [Killed];
          closed, at := WaitFor(proc, os.now, ForcedTimeout);
          os.now := at;
          proc := None;
          if !closed {
            return Fail(ShutdownFailed);
          }
        }
      }
      if tmpdir.Some? && Truthy(tmpdir.value) && tmpdir.value in os.dirs {
        os.dirs := os.dirs - {tmpdir.value};
        os.trace := os.trace + [DirRemoved(tmpdir.value)];
        tmpdir := None;
      }
      if tmpOutputFile.Some? {
        os.trace := os.trace + [FileClosed(tmpOutputFile.value)];
        tmpOutputFile := None;
      }
      outcome := Pass;
    }
  }
}
