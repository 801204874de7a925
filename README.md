# Desktop browser backend: a verified model of its resource lifecycle

This project models `DesktopBrowserBackend` of Telemetry, the backend that starts
a browser on the local machine, waits for it to come up, captures its output,
and shuts it down. It also models `DoNothingForwarder`, the port forwarder used
when the browser runs on the same host.

The backend owns three resources: the process handle `_proc`, the temporary
profile directory `_tmpdir` and the output capture file `_tmp_output_file`.
The model follows the code step by step:

- construction sets all three to `None` and then validates the executable and
  the extensions option;
- it then allocates the port, builds the argument list (making the profile
  directory unless the profile is kept), opens the capture file when output is
  not shown, and spawns the process; a spawn that raises propagates at once;
- if the readiness wait fails, it calls `Close` and re-raises;
- `Close` sends terminate and waits 1, sends kill and waits 5 if the process is
  still alive, and then removes the directory and closes the file.

Modules:

- `Processes`: the child process as an oracle. It exits on its own at some
  tick, or some ticks after terminate, or some ticks after kill (each part
  optional). `HasExited` is `poll() != None`.
- `Lifecycle`: the specification as functions over a `State` value. It holds
  the three fields, the set of existing directories, a clock in ticks, and a
  trace of effects (port allocated, directory made, file opened, spawn,
  terminate, kill, directory removed, file closed). `WaitOutcome` and the
  method `WaitFor` are `util.WaitFor(IsClosed, timeout)`; `Shutdown` is `Close`
  (`StopProcess`, then `Cleanup`); `Launch` is `__init__` (validation, then
  `StartBrowser`, then the readiness wait); `StartupArgs` is the list `GetBrowserStartupArgs`
  returns. The lemmas state what these guarantee.
- `Desktop`: the class `DesktopBrowserBackend`, with the source's fields and
  methods. Its methods update the fields in place. `Initialize` and `Close` are
  proved equal to `Launch` and `Shutdown` through the ghost value
  `Snapshot()`; `GetBrowserStartupArgs` is proved to return `StartupArgs` and
  to update its fields directly. `Os` holds the
  directories, the clock and the ghost trace.
- `Forwarding`: `DoNothingForwarder` and the URL it builds.
- `Decimal`: Python's `%i` formatting, with a parser proved to be its inverse.
- `Wrappers`: `Option`, `Result` and `Outcome`.

Time is counted in ticks, and only `WaitFor` moves the clock. Each poll reads
the process at the current tick. If the process is closed, the wait returns at
that tick. Otherwise one tick passes, and the wait times out once more than the
timeout has elapsed. So the graceful wait polls at `now` and `now + 1` and times
out at `now + 2`, where the re-check of `Close` runs.

## Model

Four plain definitions carry no contract of their own and have no row; the
members below state what they mean:

- `Processes.HasExited` is `poll() != None` (lines 63 and 85);
- `Lifecycle.IsClosed` is the inner `IsClosed` of lines 82-85;
- `Lifecycle.StartupArgs` is the list built at lines 53-60;
- `Forwarding.LocalhostUrl` is the URL of line 123.

| member | source | states |
|---|---|---|
| `Decimal.NatToString` | telemetry/telemetry/desktop_browser_backend.py:54 | `%i` of a port is a non-empty string of decimal digits with no leading zero |
| `Decimal.ParseNatToString` | telemetry/telemetry/desktop_browser_backend.py:54 | reading the formatted port back gives the port (formatting is injective) |
| `Decimal.IntToString` | telemetry/telemetry/desktop_browser_backend.py:123 | `%i` of an int starts with `-` exactly when the int is negative, followed by a non-empty digit string with no leading zero |
| `Decimal.ParseIntToString` | telemetry/telemetry/desktop_browser_backend.py:123 | reading the formatted int back gives the int |
| `Processes.Spawn` | telemetry/telemetry/desktop_browser_backend.py:40-43 | a freshly spawned process has exited at tick t exactly when it exits on its own by t: no signal has reached it |
| `Processes.Terminate` | telemetry/telemetry/desktop_browser_backend.py:88 | after terminate at t the process has exited at u iff it had already, or this is its first terminate and it answers terminate within u - t |
| `Processes.Kill` | telemetry/telemetry/desktop_browser_backend.py:97 | after kill at t the process has exited at u iff it had already, or this is its first kill and it answers kill within u - t |
| `Processes.SignalsAreIdempotent` | telemetry/telemetry/desktop_browser_backend.py:88-97 | sending terminate or kill a second time changes nothing |
| `Processes.ExitIsFinal` | telemetry/telemetry/desktop_browser_backend.py:82-85 | once `poll()` reports an exit it keeps reporting it, whatever signals follow |
| `Lifecycle.CommandLineLayout` | telemetry/telemetry/desktop_browser_backend.py:36-60 | the command line is the executable, the base arguments, a port flag that reads back as the port, the window-size and benchmarking flags, and last a `--user-data-dir=` flag exactly when a profile directory is given, naming it |
| `Lifecycle.WaitOutcome` | telemetry/telemetry/desktop_browser_backend.py:82-90 | the bounded wait succeeds iff `IsClosed` holds at the deadline; on success it returns at the first tick `IsClosed` holds, within the bound; on timeout one tick after the deadline |
| `Lifecycle.WaitFor` | telemetry/telemetry/desktop_browser_backend.py:89-93 | the poll loop returns what `WaitOutcome` specifies, and reports closed iff the process is closed at the deadline |
| `Lifecycle.Cleanup` | telemetry/telemetry/desktop_browser_backend.py:105-111 | a set, non-empty, existing profile directory is removed and nulled, any other is left as it is; the output file is closed and nulled; process and clock untouched |
| `Lifecycle.StopProcess` | telemetry/telemetry/desktop_browser_backend.py:80-103 | the process phase of `Close` leaves directory, file and directories alone; when it returns the process is closed, when it raises the handle is cleared |
| `Lifecycle.CleanupRecords` | telemetry/telemetry/desktop_browser_backend.py:105-111 | the clean-up records the removal of a held directory and the closing of the output file |
| `Lifecycle.Shutdown` | telemetry/telemetry/desktop_browser_backend.py:77-111 | `Close` only appends to the effects, and the only exception it raises is the shutdown failure, with the handle cleared |
| `Lifecycle.StartBrowser` | telemetry/telemetry/desktop_browser_backend.py:34-43 | starting either spawns the process or raises SpawnFailed with the handle untouched; effects are only appended |
| `Lifecycle.Launch` | telemetry/telemetry/desktop_browser_backend.py:16-50 | a falsy executable, then extensions on content shell, raise before any effect, leaving the state unchanged |
| `Lifecycle.LaunchStarted` | telemetry/telemetry/desktop_browser_backend.py:34-47 | a valid launch that comes up spawns the process with the full command line last, after the port allocation; a profile directory exists iff the profile is overridden; an output file exists iff output is not shown |
| `Lifecycle.LaunchSpawnFailureKeepsResources` | telemetry/telemetry/desktop_browser_backend.py:36-45 | a `Popen` that raises propagates without `Close`: no handle, never terminated, but the profile directory and output file made before stay held |
| `Lifecycle.LaunchFailureCloses` | telemetry/telemetry/desktop_browser_backend.py:45-50 | a launch that does not come up ends in the state of the same launch coming up followed by `Close`; it raises StartupFailed exactly when that `Close` returns (then no live process, profile directory or output file is left), otherwise `Close`'s own exception, with the directory and file still held |
| `Lifecycle.ShutdownWithoutProcess` | telemetry/telemetry/desktop_browser_backend.py:80-111 | with no handle, `Close` sends neither terminate nor kill and only cleans up |
| `Lifecycle.GracefulShutdown` | telemetry/telemetry/desktop_browser_backend.py:87-96 | a process that exits within the graceful wait: handle cleared, terminate sent first, kill never sent, a held directory deleted and nulled, the file closed |
| `Lifecycle.GracefulTimeoutButExited` | telemetry/telemetry/desktop_browser_backend.py:89-96 | a process that exits after the graceful wait but by the re-check: kill skipped and the handle stays set |
| `Lifecycle.ForcedShutdown` | telemetry/telemetry/desktop_browser_backend.py:95-100 | a process alive at the re-check is sent kill after terminate; exiting within the forced wait clears the handle, deletes and nulls a held directory and closes the file |
| `Lifecycle.ForcedShutdownTimeout` | telemetry/telemetry/desktop_browser_backend.py:96-103 | a process that survives both waits: handle cleared, exception raised, directory, file and directories exactly as before |
| `Lifecycle.ShutdownPassed` | telemetry/telemetry/desktop_browser_backend.py:77-111 | after a `Close` that returns: the process is closed; a held directory is deleted from the existing directories, nulled and its removal recorded; the file is closed (recorded) and nulled. After one that raises: the handle is cleared, directory and file untouched |
| `Lifecycle.ShutdownOfReleased` | telemetry/telemetry/desktop_browser_backend.py:77-111 | `Close` on a backend with nothing to release changes nothing and raises nothing |
| `Lifecycle.ShutdownIdempotent` | telemetry/telemetry/desktop_browser_backend.py:74-111 | a second `Close` after one that returned with the handle cleared is a no-op |
| `Lifecycle.ShutdownTwice` | telemetry/telemetry/desktop_browser_backend.py:74-111 | from any state, a second `Close` returns normally and releases everything, and a third is a no-op |
| `Desktop.DesktopBrowserBackend.constructor` | telemetry/telemetry/desktop_browser_backend.py:16-24 | options recorded, extensions supported iff not content shell, the three resource fields `None` |
| `Desktop.DesktopBrowserBackend.Initialize` | telemetry/telemetry/desktop_browser_backend.py:26-50 | the fields and system state after `__init__`'s remaining steps, and the exception, are those `Launch` gives; the port is untouched when a check at lines 27-32 raises |
| `Desktop.DesktopBrowserBackend.GetBrowserStartupArgs` | telemetry/telemetry/desktop_browser_backend.py:52-60 | returns `StartupArgs` of the base arguments and port; makes, records and names the profile directory exactly when the profile is overridden |
| `Desktop.DesktopBrowserBackend.IsBrowserRunning` | telemetry/telemetry/desktop_browser_backend.py:62-63 | raises when there is no handle, otherwise true iff the process is not closed |
| `Desktop.DesktopBrowserBackend.GetStandardOutput` | telemetry/telemetry/desktop_browser_backend.py:65-72 | fails iff output is not captured; otherwise the file's contents, or `''` when the read raises IOError |
| `Desktop.DesktopBrowserBackend.Close` | telemetry/telemetry/desktop_browser_backend.py:77-111 | the fields and system state after `Close`, and its exception, are those `Shutdown` gives |
| `Forwarding.PortOfLocalhostUrl` | telemetry/telemetry/desktop_browser_backend.py:123 | the port read back from the URL is the port it was built from |
| `Forwarding.DoNothingForwarder.constructor` | telemetry/telemetry/desktop_browser_backend.py:117-118 | the forwarder holds the first pair's local port |
| `Forwarding.DoNothingForwarder.Url` | telemetry/telemetry/desktop_browser_backend.py:120-123 | defined iff the port is set and non-zero; then `http://localhost:` followed by the port's `%i` numeral, which reads back as the port |
| `Forwarding.DoNothingForwarder.Close` | telemetry/telemetry/desktop_browser_backend.py:125-126 | the port is `None` and `Url` fails afterwards |

## Where the code does not do what a caller would expect

The comment at line 21 says the fields are set to `None` first "so that an
explosion during init doesn't break in Close". A caller would expect `Close`
to release everything, always. The model follows the code, which does not:

- `Close` raises at line 103, before the clean-up at lines 105-111. After a
  forced wait that times out, the profile directory and the output file are
  still held (`ForcedShutdownTimeout`). Only a second `Close` releases them
  (`ShutdownTwice`).
- When the graceful wait times out but the process exits before the re-check
  at line 96, `Close` returns with `_proc` still set
  (`GracefulTimeoutButExited`). The process is closed, and the next `Close`
  clears the handle, provided terminate on the exited process does not raise
  (see "## Left out").
- When the readiness wait fails, `__init__` calls `Close` at line 49 and
  re-raises. If that `Close` raises, its exception propagates instead of the
  original one, and the directory and file stay held (`LaunchFailureCloses`).
- `subprocess.Popen` (lines 40-43) runs before the `try` at line 45. If it
  raises, `Close` is not called, and the profile directory and output file
  made before it stay held (`LaunchSpawnFailureKeepsResources`).
- `IsBrowserRunning` calls `poll` on `_proc` without a null check (line 63).
  After a `Close` that cleared the handle, it raises (`NoProcess`) rather than
  returning false.
- The profile directory is nulled only if it still exists (line 105). A
  directory removed by someone else stays set.

## Left out

- Real process semantics. `Popen`, `poll`, `terminate` and `kill` are the
  oracle in `Processes`. Signals, exit codes and process groups are not
  modelled. Whether `Popen` raises is the single input `spawns`; why it raises
  is not modelled.
- Failures of `tempfile.mkdtemp` (line 58) and `tempfile.NamedTemporaryFile`
  (line 39). The model makes both always succeed. In the source either can
  raise before the `try` at line 45, so `__init__` would propagate the error
  without `Close`. A directory made before a failing `NamedTemporaryFile`
  would stay held, as it does for a failing `Popen`.
- Real time. `util.WaitFor`'s wall clock and poll interval become integer
  ticks. The timeouts 1 and 5 are counted in poll ticks.
- File-system I/O. `mkdtemp`, `NamedTemporaryFile`, `rmtree`, `os.path.exists`,
  `flush` and reading the file are modelled as follows:
  - the set of existing directories is `Os.dirs`;
  - the directory and file names are inputs;
  - `rmtree(..., ignore_errors=True)` is modelled as removing the directory;
    a partial removal is not modelled;
  - the file's contents, or an IOError, are the `read` parameter of
    `GetStandardOutput`.
- The port. `util.GetAvailableLocalPort` is network plumbing; the port is an
  input.
- The base class. `browser_backend.BrowserBackend` is not part of this model.
  - Its `GetBrowserStartupArgs` result is the input `baseArgs`.
  - Its readiness wait and post-startup step are the single input `comesUp`.
  - Its `Close` (line 78) is not modelled.
- Errors from `terminate` and `kill`. In the model they never raise, even on
  a process that has already exited and been reaped by `poll`. Whether they
  do in the source depends on the platform and the Python version.
  `ShutdownTwice` relies on this: its second `Close` sends terminate (line 88)
  to the exited process that the first `Close` left set.
- `__del__`. Dafny has no finalizers. `ShutdownIdempotent` and `ShutdownTwice`
  state that calling `Close` again is safe.
- `CreateForwarder`, a one-line factory. The forwarder's constructor is
  modelled directly.
- `DoNothingForwarder.constructor`: requires at least one port pair. With none,
  the source fails with IndexError, and a constructor cannot return an error.
- `Desktop.DesktopBrowserBackend.Initialize`: the executable is `None` or a
  string. Other falsy values Python would also reject are not modelled.
