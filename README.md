# ViteHosted dev-server supervisor, modelled in Dafny

`VueHelper.UseViteDevelopmentServer` (ViteHosted/VueHelper.cs) runs when an ASP.NET Core app hosts a
Vue application behind the SPA proxy during development. The call goes like this:

1. Default the dev-server port to 3000 and build the endpoint `https://localhost:{port}`.
2. If a TCP listener already holds that port, hand the endpoint straight to the proxy.
3. Otherwise, when `devcert.pfx` or `vite.config.js` is missing under the SPA source directory:
   - export the ASP.NET development certificate with `dotnet dev-certs` under a fresh passphrase;
   - write a `vite.config.js` that turns HTTPS on with that pfx.
4. Start `npm run dev` (wrapped in `cmd /c` on Windows).
5. Drain the server's stdout and stderr into the logger. A stdout line holding `Dev server running at:`
   completes a readiness gate (a `TaskCompletionSource`). An `EndOfStreamException` on either stream
   is caught and logged, and faults the gate if it is still pending (otherwise the unguarded
   `SetException` throws). Any other exception escapes the drain and ends its task faulted
   without touching the gate.
6. Wait for the gate with the startup timeout, then hand off to the proxy.

The model has seven modules:

- `Wrappers`: `Option`.
- `Text`: the .NET string operations the code relies on. These are `Char.IsWhiteSpace` and
  `String.Trim`, ordinal `String.Contains`, and decimal formatting of an `int`.
- `Paths`: `Path.Combine` and `Path.GetFileName` on Windows and elsewhere.
- `Commands`: the two `ProcessStartInfo` values, the config template and the endpoint text. Each has a
  partner that reads it back:
  - the command line the shell finally runs;
  - a parser for the config text;
  - the `Uri` parse of the endpoint.
- `Logging`: the logger, a class that appends one entry per call.
- `Readiness`: the gate as a class with the .NET `TaskCompletionSource` semantics, and the two drain
  loops as methods over the lines of each stream.
- `Supervisor`:
  - the call as a method over an `SpaOptions` object and a logger;
  - the specification function `Supervise` that the method is proved against;
  - the lemmas about the call.

The outside world is an `Environment` value passed in. It holds:

- the active listeners and the platform;
- the content root and whether each file exists;
- the generated passphrase and what the export process reports;
- the lines of each dev-server stream and how it ends: cleanly, with a caught
  `EndOfStreamException` (with its text), or with an exception no handler catches;
- which drain runs first;
- whether the gate completed before the timeout.

Three behaviours of the code are easy to miss:

- A second resolution of the gate throws. The stdout drain checks `IsCompleted` before
  `SetResult`, but both fault handlers call `SetException` unguarded (VueHelper.cs:116,
  VueHelper.cs:132). On a gate that has already completed, `SetException` throws, and that drain's
  task ends faulted. The gate itself keeps its first outcome.
- A failed certificate export only logs. A non-zero exit code logs the export's error output at
  error level; the config file is still written and the server is still launched
  (VueHelper.cs:69-80).
- When either file is missing, both files are produced again: the certificate is exported and
  the config is rewritten, even if one of them already exists (VueHelper.cs:53).

## Model

| member | source | states |
|---|---|---|
| Text.TrimSpec | ViteHosted/VueHelper.cs:101 | `Trim` yields the infix left after removing leading and trailing white space; its ends are not white space; it is empty exactly when the line is all white space |
| Text.TrimIdempotent | ViteHosted/VueHelper.cs:101 | trimming a trimmed line changes nothing |
| Text.ContainsSpec | ViteHosted/VueHelper.cs:106 | ordinal `Contains` holds exactly when the text occurs at some index |
| Text.DecimalRoundTrip | ViteHosted/VueHelper.cs:33 | the decimal text of a non-negative port reads back as that port |
| Text.IntText | ViteHosted/VueHelper.cs:33 | the interpolated port text is all digits exactly when the port is non-negative |
| Paths.Combine | ViteHosted/VueHelper.cs:50-51 | `Path.Combine`: an empty second part gives the first; an empty first part or a rooted second part gives exactly the second; otherwise the result is exactly the first part followed by the second, with a separator inserted between them exactly when neither already has one there |
| Paths.GetFileName | ViteHosted/VueHelper.cs:79 | `Path.GetFileName` is the longest separator-free suffix, preceded by a separator when shorter than the path |
| Paths.FileNameOfCombine | ViteHosted/VueHelper.cs:79 | whatever directory a plain name is combined with, `GetFileName` gives back exactly that name |
| Paths.PfxPath | ViteHosted/VueHelper.cs:50 | the pfx path's file name is `devcert.pfx` |
| Paths.ConfigPath | ViteHosted/VueHelper.cs:51 | the config path's file name is `vite.config.js` |
| Commands.CertExportInfo | ViteHosted/VueHelper.cs:58-66 | the export runs `cmd` exactly on Windows; on every platform the command line run is `dotnet dev-certs https -v -ep <pfx> -p <password>`; no working directory |
| Commands.DevServerInfo | ViteHosted/VueHelper.cs:84-93 | the dev server runs `cmd` exactly on Windows; on every platform the command line run is `npm run dev`, in the SPA source directory |
| Commands.ParseConfig | ViteHosted/VueHelper.cs:79 | a config text the parser accepts is the template filled with the two quote-free values it returns |
| Commands.ConfigRoundTrip | ViteHosted/VueHelper.cs:79 | the config text determines the pfx file name and passphrase it was built from, when neither holds a quote |
| Commands.ConfigEnablesHttps | ViteHosted/VueHelper.cs:79 | every generated config contains `https:true` |
| Commands.GuidPassphraseReadsBack | ViteHosted/VueHelper.cs:55 | a `Guid.ToString("N")` passphrase never breaks the config's quoting |
| Commands.Endpoint | ViteHosted/VueHelper.cs:33 | `new Uri("https://localhost:{port}")` gives scheme `https`, host `localhost` and exactly that port when it lies in 0..65535, and throws otherwise |
| Commands.EndpointRoundTrip | ViteHosted/VueHelper.cs:33 | parsing the endpoint text gives back the port, or fails exactly outside 0..65535 |
| Logging.Logger.Log | ViteHosted/VueHelper.cs:56-57 | each logging call appends one entry with its level and message |
| Readiness.ReadinessGate.constructor | ViteHosted/VueHelper.cs:95 | a new gate is pending |
| Readiness.ReadinessGate.SetResult | ViteHosted/VueHelper.cs:108 | completes a pending gate as ready; throws, leaving the gate as it was, exactly when it had already completed |
| Readiness.ReadinessGate.SetException | ViteHosted/VueHelper.cs:116 | faults a pending gate; throws, leaving the gate as it was, exactly when it had already completed |
| Readiness.InfoEntries | ViteHosted/VueHelper.cs:101-105 | the stdout drain logs at most one entry per line, each at information level and non-empty |
| Readiness.ErrorEntries | ViteHosted/VueHelper.cs:124-127 | the stderr drain logs every line, trimmed, at error level, in order |
| Readiness.ScanGateResolves | ViteHosted/VueHelper.cs:100-111 | the stdout scan leaves a completed gate alone and makes a pending gate ready exactly when some line announces readiness |
| Readiness.StdoutLine | ViteHosted/VueHelper.cs:103-110 | the stdout loop body: logs a non-blank trimmed line, and readies the gate exactly when it was pending and the line announces readiness (the guarded `SetResult` cannot throw when the drains run one after the other) |
| Readiness.HandleFault | ViteHosted/VueHelper.cs:113-117 | a caught `EndOfStreamException` is logged at error level and faults a pending gate; the task ends faulted exactly when the exception escapes the handler or `SetException` finds the gate already completed; an escaping exception logs nothing and leaves the gate alone |
| Readiness.DrainStdout | ViteHosted/VueHelper.cs:96-118 | the stdout drain appends the stream's stdout log (its lines, then a caught fault's text) and leaves the gate and task status given by the scan and how the stream ended |
| Readiness.DrainStderr | ViteHosted/VueHelper.cs:119-134 | the stderr drain appends every line at error level plus a caught fault's entry, and changes the gate only when a caught fault finds it pending |
| Readiness.StdoutResolution | ViteHosted/VueHelper.cs:100-117 | from a pending gate, stdout alone leaves it ready exactly on a readiness line, faulted exactly on a caught fault with no readiness line, pending otherwise; its task ends faulted exactly when an exception escapes or a fault follows the readiness line |
| Readiness.CompletedGateIsFinal | ViteHosted/VueHelper.cs:106-133 | once completed, neither drain changes the gate, and a fault then ends that drain's task faulted |
| Readiness.InfoEntriesAppend | ViteHosted/VueHelper.cs:101-105 | stdout lines are logged in stream order: the log of a split stream is the two logs joined |
| Readiness.BlankLineNotLogged | ViteHosted/VueHelper.cs:103 | a blank stdout line adds nothing to the log |
| Readiness.ReadyAfterLoggingAll | ViteHosted/VueHelper.cs:101-109 | with non-blank lines, the first readiness line readies the gate after all lines up to it were logged, in order |
| Readiness.AllNonBlankLogged | ViteHosted/VueHelper.cs:101-105 | when no line is blank, every stdout line is logged, trimmed, in order |
| Supervisor.IsRunning | ViteHosted/VueHelper.cs:39-42 | the port is running exactly when some active listener uses it |
| Supervisor.ProvisionArtifacts | ViteHosted/VueHelper.cs:53-81 | provisioning starts the export, writes the config, and logs its four entries |
| Supervisor.StartDrains | ViteHosted/VueHelper.cs:95-134 | both drains run over a fresh gate in the scheduler's order, leaving the gate, task statuses and log of `Drain` |
| Supervisor.LaunchDevServer | ViteHosted/VueHelper.cs:46-139 | the launch path's effects and log are those of `Launch` |
| Supervisor.UseViteDevelopmentServer | ViteHosted/VueHelper.cs:27-142 | the call leaves the defaulted port in the options, and its effects and log are those of `Supervise` |
| Supervisor.HandoffEndpoint | ViteHosted/VueHelper.cs:30-33 | the port is 3000 when unset and unchanged otherwise; the call throws at the endpoint exactly outside 0..65535; any handoff goes to `https://localhost` on that port |
| Supervisor.AlreadyRunningSkipsLaunch | ViteHosted/VueHelper.cs:39-44 | a port in use goes straight to the handoff: no export, no config, no launch, nothing logged |
| Supervisor.ProvisionsOnlyWhenMissing | ViteHosted/VueHelper.cs:53 | the export and config write happen exactly when the call launches and a file is missing; the server launches exactly when the call launches |
| Supervisor.LaunchBeginsWithProvisioning | ViteHosted/VueHelper.cs:53-94 | a launch's export, config write and first log entries are those of provisioning |
| Supervisor.ConfigWrittenWhateverExitCode | ViteHosted/VueHelper.cs:69-80 | the export's exit code changes only the third provisioning entry: the export, the config write and the other entries stay the same, and the entry is its error output at error level exactly when the exit code is not 0 |
| Supervisor.ConfigNamesPfxFileOnly | ViteHosted/VueHelper.cs:79 | the config goes to the config path, turns HTTPS on, and names the pfx by `devcert.pfx` alone with exactly the passphrase |
| Supervisor.SameCommandsOnEveryPlatform | ViteHosted/VueHelper.cs:58-93 | on every platform the export runs `dotnet` with the export arguments and the server runs `npm run dev` in the source directory; only Windows uses `cmd` |
| Supervisor.DrainedGate | ViteHosted/VueHelper.cs:96-134 | in either drain order the gate ends ready exactly when stdout announces readiness before a caught fault reaches it, pending exactly with no readiness line and no caught fault, faulted with the startup failure otherwise |
| Supervisor.LaunchOutcome | ViteHosted/VueHelper.cs:136-141 | after a launch, the outcome is the wait on the drained gate for the endpoint on the effective port |
| Supervisor.HandoffOnlyWhenReady | ViteHosted/VueHelper.cs:136-141 | after a launch the handoff happens exactly when the gate is ready in time; a pending or late gate is a timeout |
| Supervisor.ReadyLineDecides | ViteHosted/VueHelper.cs:100-141 | a readiness line that no caught fault preceded, in time, hands off; no readiness line and no caught fault times out |
| Supervisor.StderrFaultIsNotTimeout | ViteHosted/VueHelper.cs:129-139 | a caught stderr fault before any readiness line fails the startup with `'npm run dev' failed.`, in either drain order |
| Supervisor.EscapedFaultTimesOut | ViteHosted/VueHelper.cs:96-139 | with no readiness line and no caught fault, the call times out even when an exception escapes a drain, and a drain's task ends faulted exactly when its stream's exception escaped |
| Supervisor.LateFaultFaultsDrainTask | ViteHosted/VueHelper.cs:129-133 | a stderr fault after readiness keeps the handoff, but the unguarded `SetException` throws and the stderr task ends faulted |
| Supervisor.FreshStartHandsOff | ViteHosted/VueHelper.cs:27-141 | unset free port, no files, successful export, readiness on the fourth line, in time: both files provisioned, server launched, handoff to `https://localhost:3000` |
| Supervisor.ProvisioningIdempotent | ViteHosted/VueHelper.cs:53 | after a successful export the next run provisions nothing; after a failed export of a missing pfx it exports and writes the config again |

## Left out

- Process I/O is not run. The export's exit code and output, and the lines and faults of each
  dev-server stream, are inputs. The model assumes the export writes the pfx exactly when its exit
  code is 0.
- The model does not read or write files. It records the write of the config as a value, and
  whether each file exists is an input.
- Network listeners: the active TCP listeners are an input.
- Concurrency: the two drains run one after the other, in an order given as an input. The
  interleaving of their steps is not modelled: neither the interleaving of their log entries nor
  any race on the gate (see `Readiness.StdoutLine` below). Entries the drains write after the
  wait ends are included in the call's log.
- Readiness.StdoutLine: the race between the stdout drain's `IsCompleted` check and its
  `SetResult` (VueHelper.cs:106-108) is not modelled. The stderr drain's `SetException`
  (VueHelper.cs:132) can complete the gate between those two steps. `SetResult` then throws an
  `InvalidOperationException` that no handler catches, the stdout task ends faulted, and the
  remaining stdout lines are not logged. Run one after the other, the guarded `SetResult` cannot
  throw.
- `StreamReader.ReadLine` returns null at the end of a stream rather than throwing, so a `Caught`
  fault stands for whatever `EndOfStreamException` reading may raise. The model does not say when
  that happens; it is an input.
- The startup timeout is a flag saying whether the gate completed in time. Clocks are not
  modelled, and neither is the `ArgumentOutOfRangeException` that `Task.Wait` raises for a
  timeout below -1 ms or above `Int32.MaxValue` ms.
- Supervisor.Await: the startup timeout is taken to be finite and at most `Int32.MaxValue` ms
  (about 24.8 days). An infinite timeout (-1 ms, `Timeout.InfiniteTimeSpan`) makes `Task.Wait` at
  VueHelper.cs:136 block for as long as the gate stays pending, so a gate that never completes
  hangs the call. A timeout below -1 ms or above `Int32.MaxValue` ms (`TimeSpan.MaxValue`, say)
  makes that `Task.Wait` throw `ArgumentOutOfRangeException` at once, whatever the gate's state.
  Every outcome the model derives from `Await` (a handoff, a timeout or a startup failure) holds
  only for a timeout in range, and so do the lemmas that state one:
  Supervisor.HandoffEndpoint, Supervisor.HandoffOnlyWhenReady, Supervisor.ReadyLineDecides,
  Supervisor.StderrFaultIsNotTimeout, Supervisor.EscapedFaultTimesOut,
  Supervisor.LateFaultFaultsDrainTask and Supervisor.FreshStartHandsOff.
- `Guid.NewGuid()` is not modelled. The passphrase is an input, and the model only assumes it has
  the 32-hex-digit form.
- Dependency injection is not modelled: `GetService`, and a null `ILoggerFactory` or
  `IWebHostEnvironment`. Nor is the logger category "Vue".
- The `ProcessStartInfo` redirect and shell-execute flags are not modelled. They are the same for
  both processes.
- `Process.Start` failing is not modelled.
- A null `SpaOptions.SourcePath` is not modelled: `Path.Combine` would throw
  `ArgumentNullException` at VueHelper.cs:50. The source path is a non-null string.
- The export's `WaitForExit()` (VueHelper.cs:68) has no time limit and runs before its output is
  read with `ReadToEnd` (VueHelper.cs:71, VueHelper.cs:75). An export whose output fills the pipe
  therefore never exits, and the call hangs. The model assumes the export exits:
  Supervisor.ConfigWrittenWhateverExitCode, Supervisor.ProvisionsOnlyWhenMissing and
  Supervisor.FreshStartHandsOff hold only for an export that terminates.
- The proxy (`UseProxyToSpaDevelopmentServer`) is not modelled beyond recording the endpoint
  handed to it.
- The exception text logged by a fault handler is an input. It stands for `ex.ToString()`.
- `Paths.GetFileName` does not model how `Path.GetFileName` keeps a Windows path root out of the
  file name: a drive root such as `C:name`, or a UNC root such as `\\server\share`. With such a
  root in the combined path (a content root `\\server` and an empty source path, say),
  Paths.PfxPath and Paths.ConfigPath no longer describe what .NET returns.
- `Commands.ParseEndpoint` parses only texts of the shape `https://localhost:<text>`, which is
  every text the call builds. It is not a general `Uri` parser.
- The process left running after a timeout is not modelled. Neither are the drain tasks'
  unobserved exceptions beyond their final status.
