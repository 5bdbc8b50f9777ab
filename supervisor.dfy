/**
 * `VueHelper.UseViteDevelopmentServer`: default the port, build the endpoint, skip everything
 * when a listener already holds the port, otherwise provision `devcert.pfx` and `vite.config.js`
 * when either is missing, launch `npm run dev`, drain its two output streams into the logger
 * and the readiness gate, wait for the gate, and hand off to the proxy.
 *
 * The environment is an input: the active TCP listeners, the platform, the content root, whether
 * the two files exist, the generated passphrase, what the export process reports, what the dev
 * server writes on each stream, which drain the scheduler runs first, and whether the gate
 * completed before the startup timeout.
 */
module Supervisor {
  import opened Wrappers
  import opened Text
  import opened Paths
  import opened Commands
  import opened Logging
  import opened Readiness

  const DefaultPort := 3000

  /** The part of `SpaOptions` the supervisor reads and writes. */
  class SpaOptions {
    var devServerPort: int
    var sourcePath: string

    constructor (devServerPort: int, sourcePath: string)
      ensures this.devServerPort == devServerPort && this.sourcePath == sourcePath
    {
      this.devServerPort := devServerPort;
      this.sourcePath := sourcePath;
    }
  }

  /** An active TCP listener of the host. */
  datatype Listener = Listener(address: string, port: int)

  /** What the certificate export process reports once it has exited. */
  datatype ExportRun = ExportRun(exitCode: int, standardOutput: string, standardError: string)

  datatype Environment = Environment(
    listeners: seq<Listener>,
    isWindows: bool,
    contentRoot: string,
    pfxExists: bool,
    configExists: bool,
    passphrase: string,
    exportRun: ExportRun,
    devStdout: OutputStream,
    devStderr: OutputStream,
    stderrDrainFirst: bool,
    completedBeforeTimeout: bool)

  datatype FileWrite = FileWrite(path: string, text: string)

  /** How the call ends: handing off to the proxy, or throwing `UriFormatException`,
      `TimeoutException`, or the `AggregateException` that `Task.Wait` throws on a faulted gate,
      whose inner exception is the gate's `InvalidOperationException` with message `error`. */
  datatype Outcome = Proxied(endpoint: Uri) | InvalidEndpoint | TimedOut | StartupFailed(error: string)

  /** What the call does outside the logger. */
  datatype Effects = Effects(
    certExport: Option<StartInfo>,
    configWrite: Option<FileWrite>,
    devServer: Option<StartInfo>,
    stdoutTask: Option<TaskStatus>,
    stderrTask: Option<TaskStatus>,
    outcome: Outcome)

  /** What provisioning does: the export started, the config written, the entries logged. */
  datatype Provisioned = Provisioned(certExport: Option<StartInfo>, configWrite: Option<FileWrite>, log: seq<LogEntry>)

  /** The port the call leaves in the options, its effects and the entries it logs. */
  datatype Run = Run(port: int, effects: Effects, log: seq<LogEntry>)

  /** The two drains run to the end of their streams: the gate they leave, how each task ends,
      and what they log. */
  datatype Drained = Drained(gate: GateState, stdoutTask: TaskStatus, stderrTask: TaskStatus, log: seq<LogEntry>)

  /** An unset port (0) becomes 3000; any other value is kept. */
  function EffectivePort(configured: int): int
  {
    if configured == 0 then DefaultPort else configured
  }

  /** Whether some active listener uses `port`. */
  function IsRunning(listeners: seq<Listener>, port: int): (r: bool)
    ensures r <==> exists i :: 0 <= i < |listeners| && listeners[i].port == port
  {
    if listeners == [] then false
    else listeners[0].port == port || IsRunning(listeners[1..], port)
  }

  /** Provisioning runs when either file is missing. */
  predicate NeedsProvisioning(pfxExists: bool, configExists: bool)
  {
    !pfxExists || !configExists
  }

  /** The entries logged while provisioning: the export target, the passphrase (debug), the
      export's output (or its error output when it failed), and the config path. */
  function ProvisionLog(pfxPath: string, configPath: string, passphrase: string, exportRun: ExportRun): seq<LogEntry>
  {
    [LogEntry(Information, "Exporting dotnet dev cert to " + pfxPath + " for Vite"),
     LogEntry(Debug, "Export password: " + passphrase),
     if exportRun.exitCode == 0 then LogEntry(Information, exportRun.standardOutput)
     else LogEntry(Error, exportRun.standardError),
     LogEntry(Information, "Creating Vite config: " + configPath)]
  }

  /** The two drains, run one after the other in the order the scheduler picked, on a fresh gate. */
  function Drain(stdout: OutputStream, stderr: OutputStream, stderrFirst: bool): Drained
  {
    if stderrFirst then
      var afterErr := FaultGate(Pending, stderr.fault);
      Drained(StdoutGate(afterErr, stdout), FaultStatus(ScanGate(afterErr, stdout.lines), stdout.fault),
              FaultStatus(Pending, stderr.fault), StderrLog(stderr) + StdoutLog(stdout))
    else
      var afterOut := StdoutGate(Pending, stdout);
      Drained(FaultGate(afterOut, stderr.fault), FaultStatus(ScanGate(Pending, stdout.lines), stdout.fault),
              FaultStatus(afterOut, stderr.fault), StdoutLog(stdout) + StderrLog(stderr))
  }

  /** `Task.Wait(StartupTimeout)` on the gate, then the handoff: a gate that did not complete in
      time is a timeout, a faulted one makes `Wait` throw (wrapping the gate's exception), a ready
      one hands off. The timeout is taken to be finite and at most `Int32.MaxValue` ms: with an
      infinite one a pending gate would block the call instead, and one below -1 ms or above
      `Int32.MaxValue` ms makes `Wait` throw `ArgumentOutOfRangeException` whatever the gate. */
  function Await(gate: GateState, completedBeforeTimeout: bool, endpoint: Uri): Outcome
  {
    if gate == Pending || !completedBeforeTimeout then TimedOut
    else if gate == Ready then Proxied(endpoint)
    else StartupFailed(gate.error)
  }

  /** Provisioning: when either file is missing, export the certificate, log, write the config
      (whatever the export's exit code), and log again; otherwise nothing. */
  function Provision(sourcePath: string, env: Environment): Provisioned
  {
    if NeedsProvisioning(env.pfxExists, env.configExists) then
      var w := env.isWindows;
      var pfxPath := PfxPath(env.contentRoot, sourcePath, w);
      var configPath := ConfigPath(env.contentRoot, sourcePath, w);
      Provisioned(Some(CertExportInfo(w, pfxPath, env.passphrase)),
                  Some(FileWrite(configPath, ConfigText(GetFileName(pfxPath, w), env.passphrase))),
                  ProvisionLog(pfxPath, configPath, env.passphrase, env.exportRun))
    else Provisioned(None, None, [])
  }

  /** The launch path of the call: provision, start `npm run dev`, drain, wait. */
  function Launch(port: int, endpoint: Uri, sourcePath: string, env: Environment): Run
  {
    var p := Provision(sourcePath, env);
    var d := Drain(env.devStdout, env.devStderr, env.stderrDrainFirst);
    Run(port,
        Effects(p.certExport, p.configWrite, Some(DevServerInfo(env.isWindows, sourcePath)),
                Some(d.stdoutTask), Some(d.stderrTask), Await(d.gate, env.completedBeforeTimeout, endpoint)),
        p.log + d.log)
  }

  /** The whole call, for the port found in the options and the given environment. */
  function Supervise(configuredPort: int, sourcePath: string, env: Environment): Run
  {
    var port := EffectivePort(configuredPort);
    var endpoint := Endpoint(port);
    if endpoint.None? then Run(port, Effects(None, None, None, None, None, InvalidEndpoint), [])
    else if IsRunning(env.listeners, port) then Run(port, Effects(None, None, None, None, None, Proxied(endpoint.value)), [])
    else Launch(port, endpoint.value, sourcePath, env)
  }

  /** The provisioning block of the call, run when a file is missing, writing its entries to
      `logger`. */
  method ProvisionArtifacts(sourcePath: string, env: Environment, logger: Logger)
    returns (certExport: StartInfo, configWrite: FileWrite)
    requires NeedsProvisioning(env.pfxExists, env.configExists)
    modifies logger
    ensures Some(certExport) == Provision(sourcePath, env).certExport
    ensures Some(configWrite) == Provision(sourcePath, env).configWrite
    ensures logger.entries == old(logger.entries) + Provision(sourcePath, env).log
  {
    var w := env.isWindows;
    var pfxPath := PfxPath(env.contentRoot, sourcePath, w);
    var configPath := ConfigPath(env.contentRoot, sourcePath, w);
    var password := env.passphrase;
    logger.Log(Information, "Exporting dotnet dev cert to " + pfxPath + " for Vite");
    logger.Log(Debug, "Export password: " + password);
    certExport := CertExportInfo(w, pfxPath, password);
    if env.exportRun.exitCode == 0 {
      logger.Log(Information, env.exportRun.standardOutput);
    } else {
      logger.Log(Error, env.exportRun.standardError);
    }
    configWrite := FileWrite(configPath, ConfigText(GetFileName(pfxPath, w), password));
    logger.Log(Information, "Creating Vite config: " + configPath);
  }

  /** Appending to a log in two steps appends both parts in order. */
  lemma AppendAssoc(a: seq<LogEntry>, b: seq<LogEntry>, c: seq<LogEntry>)
    ensures a + b + c == a + (b + c)
  {
  }

  /** A fresh gate and the two drain tasks over it, run in the order the scheduler picked. */
  method StartDrains(env: Environment, logger: Logger) returns (gate: ReadinessGate, stdoutTask: TaskStatus, stderrTask: TaskStatus)
    modifies logger
    ensures fresh(gate)
    ensures gate.state == Drain(env.devStdout, env.devStderr, env.stderrDrainFirst).gate
    ensures stdoutTask == Drain(env.devStdout, env.devStderr, env.stderrDrainFirst).stdoutTask
    ensures stderrTask == Drain(env.devStdout, env.devStderr, env.stderrDrainFirst).stderrTask
    ensures logger.entries == old(logger.entries) + Drain(env.devStdout, env.devStderr, env.stderrDrainFirst).log
  {
    ghost var entries0 := logger.entries;
    gate := new ReadinessGate();
    if env.stderrDrainFirst {
      stderrTask := DrainStderr(env.devStderr, gate, logger);
      stdoutTask := DrainStdout(env.devStdout, gate, logger);
      AppendAssoc(entries0, StderrLog(env.devStderr), StdoutLog(env.devStdout));
    } else {
      stdoutTask := DrainStdout(env.devStdout, gate, logger);
      stderrTask := DrainStderr(env.devStderr, gate, logger);
      AppendAssoc(entries0, StdoutLog(env.devStdout), StderrLog(env.devStderr));
    }
  }

  /** Logging provisioning and then the drains appends the launch's whole log. */
  lemma LaunchLogAppends(entries: seq<LogEntry>, port: int, endpoint: Uri, sourcePath: string, env: Environment)
    ensures entries + Provision(sourcePath, env).log + Drain(env.devStdout, env.devStderr, env.stderrDrainFirst).log
            == entries + Launch(port, endpoint, sourcePath, env).log
  {
    AppendAssoc(entries, Provision(sourcePath, env).log, Drain(env.devStdout, env.devStderr, env.stderrDrainFirst).log);
  }

  /** The launch path of the call: provision when a file is missing, start `npm run dev`, drain
      its streams through a fresh gate, and wait for the gate. */
  method LaunchDevServer(port: int, endpoint: Uri, sourcePath: string, env: Environment, logger: Logger)
    returns (effects: Effects)
    modifies logger
    ensures effects == Launch(port, endpoint, sourcePath, env).effects
    ensures logger.entries == old(logger.entries) + Launch(port, endpoint, sourcePath, env).log
  {
    ghost var p := Provision(sourcePath, env);
    ghost var d := Drain(env.devStdout, env.devStderr, env.stderrDrainFirst);
    ghost var entries0 := logger.entries;
    var certExport: Option<StartInfo>, configWrite: Option<FileWrite> := None, None;
    if !env.pfxExists || !env.configExists {
      var exportInfo, write := ProvisionArtifacts(sourcePath, env, logger);
      certExport, configWrite := Some(exportInfo), Some(write);
    }
    var devServer := DevServerInfo(env.isWindows, sourcePath);
    var gate, stdoutTask, stderrTask := StartDrains(env, logger);
    effects := Effects(certExport, configWrite, Some(devServer), Some(stdoutTask), Some(stderrTask),
                       Await(gate.state, env.completedBeforeTimeout, endpoint));
    LaunchLogAppends(entries0, port, endpoint, sourcePath, env);
  }

  /** `UseViteDevelopmentServer`, step by step: the port is defaulted in place, the provisioning
      and the drains log through `logger`, and the drains resolve a fresh gate. */
  method UseViteDevelopmentServer(spa: SpaOptions, env: Environment, logger: Logger) returns (effects: Effects)
    modifies spa`devServerPort, logger
    ensures spa.devServerPort == Supervise(old(spa.devServerPort), spa.sourcePath, env).port
    ensures effects == Supervise(old(spa.devServerPort), spa.sourcePath, env).effects
    ensures logger.entries == old(logger.entries) + Supervise(old(spa.devServerPort), spa.sourcePath, env).log
  {
    if spa.devServerPort == 0 {
      spa.devServerPort := DefaultPort;
    }
    var endpoint := Endpoint(spa.devServerPort);
    if endpoint.None? {
      return Effects(None, None, None, None, None, InvalidEndpoint);
    }
    if IsRunning(env.listeners, spa.devServerPort) {
      return Effects(None, None, None, None, None, Proxied(endpoint.value));
    }
    effects := LaunchDevServer(spa.devServerPort, endpoint.value, spa.sourcePath, env, logger);
  }

  /** The call goes on to launch the dev server: the endpoint is valid and no listener holds
      the port. */
  predicate Launches(configuredPort: int, env: Environment)
  {
    var port := EffectivePort(configuredPort);
    0 <= port <= MaxPort && !IsRunning(env.listeners, port)
  }

  /** The port is 3000 when unset and unchanged otherwise; the endpoint handed to the proxy is
      `https://localhost` on exactly that port, and the call throws at the endpoint instead
      when the port is outside 0..65535. */
  lemma HandoffEndpoint(configuredPort: int, sourcePath: string, env: Environment)
    ensures var run := Supervise(configuredPort, sourcePath, env);
            run.port == (if configuredPort == 0 then 3000 else configuredPort)
            && (run.effects.outcome == InvalidEndpoint <==> !(0 <= run.port <= 65535))
            && (run.effects.outcome.Proxied? ==> run.effects.outcome.endpoint == Uri("https", "localhost", run.port))
  {
    if Launches(configuredPort, env) {
      LaunchOutcome(configuredPort, sourcePath, env);
    }
  }

  /** A port some listener already uses goes straight to the handoff: no export, no config
      write, no launch, nothing logged. */
  lemma AlreadyRunningSkipsLaunch(configuredPort: int, sourcePath: string, env: Environment)
    requires 0 <= EffectivePort(configuredPort) <= MaxPort
    requires exists i :: 0 <= i < |env.listeners| && env.listeners[i].port == EffectivePort(configuredPort)
    ensures Supervise(configuredPort, sourcePath, env) ==
              Run(EffectivePort(configuredPort),
                  Effects(None, None, None, None, None, Proxied(Uri("https", "localhost", EffectivePort(configuredPort)))),
                  [])
  {
  }

  /** The export and the config write happen exactly when the call launches and at least one of
      the two files is missing; the dev server is launched exactly when the call launches. */
  lemma ProvisionsOnlyWhenMissing(configuredPort: int, sourcePath: string, env: Environment)
    ensures var e := Supervise(configuredPort, sourcePath, env).effects;
            (e.certExport.Some? <==> Launches(configuredPort, env) && (!env.pfxExists || !env.configExists))
            && (e.configWrite.Some? <==> Launches(configuredPort, env) && (!env.pfxExists || !env.configExists))
            && (e.devServer.Some? <==> Launches(configuredPort, env))
  {
  }

  /** A launch begins with provisioning: its export, its config write and its entries come first. */
  lemma LaunchBeginsWithProvisioning(configuredPort: int, sourcePath: string, env: Environment)
    requires Launches(configuredPort, env)
    ensures var run, p := Supervise(configuredPort, sourcePath, env), Provision(sourcePath, env);
            run.effects.certExport == p.certExport && run.effects.configWrite == p.configWrite
            && |p.log| <= |run.log| && run.log[..|p.log|] == p.log
  {
  }

  /** What the export process reports decides only the third provisioning entry: the export
      and the config write are the same whatever it reports, the other entries too, and the
      third entry is its error output at error level exactly when the exit code is not 0. */
  lemma ConfigWrittenWhateverExitCode(sourcePath: string, env: Environment, other: ExportRun)
    requires !env.pfxExists || !env.configExists
    ensures var p := Provision(sourcePath, env);
            var q := Provision(sourcePath, env.(exportRun := other));
            p.certExport.Some? && p.configWrite.Some?
            && p.certExport == q.certExport && p.configWrite == q.configWrite
            && |p.log| == 4 && |q.log| == 4
            && p.log[0] == q.log[0] && p.log[1] == q.log[1] && p.log[3] == q.log[3]
            && (env.exportRun.exitCode != 0 <==> p.log[2] == LogEntry(Error, env.exportRun.standardError))
  {
  }

  /** The pfx file name holds no quote. */
  lemma PfxFileNameUnquoted()
    ensures NoQuote(PfxFileName)
  {
  }

  /** The written config sits next to the pfx under the SPA source directory, turns HTTPS on, and
      names the pfx by its file name alone together with exactly the generated passphrase. */
  lemma ConfigNamesPfxFileOnly(configuredPort: int, sourcePath: string, env: Environment)
    requires IsGuidN(env.passphrase)
    requires Supervise(configuredPort, sourcePath, env).effects.configWrite.Some?
    ensures var write := Supervise(configuredPort, sourcePath, env).effects.configWrite.value;
            write.path == ConfigPath(env.contentRoot, sourcePath, env.isWindows)
            && Contains(write.text, HttpsOn)
            && ParseConfig(write.text) == Some((PfxFileName, env.passphrase))
  {
    var pfx := GetFileName(PfxPath(env.contentRoot, sourcePath, env.isWindows), env.isWindows);
    assert pfx == PfxFileName;
    PfxFileNameUnquoted();
    GuidPassphraseReadsBack(PfxFileName, env.passphrase);
    ConfigEnablesHttps(PfxFileName, env.passphrase);
  }

  /** On every platform the export runs `dotnet dev-certs https -v -ep <pfx> -p <passphrase>`
      and the dev server runs `npm run dev` in the SPA source directory; only Windows wraps them
      in `cmd /c`. */
  lemma SameCommandsOnEveryPlatform(configuredPort: int, sourcePath: string, env: Environment)
    ensures var e := Supervise(configuredPort, sourcePath, env).effects;
            (e.certExport.Some? ==>
               CommandLine(e.certExport.value) ==
                 "dotnet " + ExportArguments(PfxPath(env.contentRoot, sourcePath, env.isWindows), env.passphrase)
               && (e.certExport.value.fileName == "cmd" <==> env.isWindows))
            && (e.devServer.Some? ==>
                  CommandLine(e.devServer.value) == "npm run dev"
                  && e.devServer.value.workingDirectory == sourcePath
                  && (e.devServer.value.fileName == "cmd" <==> env.isWindows))
  {
  }

  /** The gate the two drains leave, in either order. It is ready exactly when stdout announces
      readiness before a caught fault reaches the gate (a stderr fault comes first only when
      stderr is drained first); pending exactly when no line announces readiness and neither
      stream ends with a caught fault; and otherwise faulted with the startup failure. */
  lemma DrainedGate(stdout: OutputStream, stderr: OutputStream, stderrFirst: bool)
    ensures var g := Drain(stdout, stderr, stderrFirst).gate;
            (g == Ready <==> HasReadyLine(stdout.lines) && (stderrFirst ==> !IsCaught(stderr.fault)))
            && (g == Pending <==> !HasReadyLine(stdout.lines) && !IsCaught(stdout.fault) && !IsCaught(stderr.fault))
            && (g.Faulted? ==> g == Faulted(StartFailure))
  {
    StdoutResolution(stdout);
    if stderrFirst && IsCaught(stderr.fault) {
      CompletedGateIsFinal(Faulted(StartFailure), stdout, stderr);
    }
    if !stderrFirst && StdoutGate(Pending, stdout) != Pending {
      CompletedGateIsFinal(StdoutGate(Pending, stdout), stdout, stderr);
    }
  }

  /** After a launch, the call's outcome is the wait on the gate the drains leave, for the
      endpoint on the effective port. */
  lemma LaunchOutcome(configuredPort: int, sourcePath: string, env: Environment)
    requires Launches(configuredPort, env)
    ensures Supervise(configuredPort, sourcePath, env).effects.outcome ==
            Await(Drain(env.devStdout, env.devStderr, env.stderrDrainFirst).gate, env.completedBeforeTimeout,
                  Uri("https", "localhost", EffectivePort(configuredPort)))
  {
  }

  /** After a launch the handoff happens exactly when the gate is ready in time; a gate still
      pending, or completed too late, is a timeout and no handoff. */
  lemma HandoffOnlyWhenReady(configuredPort: int, sourcePath: string, env: Environment)
    requires Launches(configuredPort, env)
    ensures var outcome := Supervise(configuredPort, sourcePath, env).effects.outcome;
            var gate := Drain(env.devStdout, env.devStderr, env.stderrDrainFirst).gate;
            (outcome.Proxied? <==> gate == Ready && env.completedBeforeTimeout)
            && (outcome == TimedOut <==> gate == Pending || !env.completedBeforeTimeout)
  {
    LaunchOutcome(configuredPort, sourcePath, env);
  }

  /** Whatever the drain order, a launched server that announces readiness on stdout before any
      stream faults, in time, is handed off; one that never announces it and whose streams end
      cleanly times out. */
  lemma ReadyLineDecides(configuredPort: int, sourcePath: string, env: Environment)
    requires Launches(configuredPort, env)
    requires !IsCaught(env.devStderr.fault) || !env.stderrDrainFirst
    ensures HasReadyLine(env.devStdout.lines) && env.completedBeforeTimeout ==>
              Supervise(configuredPort, sourcePath, env).effects.outcome.Proxied?
    ensures !HasReadyLine(env.devStdout.lines) && !IsCaught(env.devStdout.fault) && !IsCaught(env.devStderr.fault) ==>
              Supervise(configuredPort, sourcePath, env).effects.outcome == TimedOut
  {
    LaunchOutcome(configuredPort, sourcePath, env);
    DrainedGate(env.devStdout, env.devStderr, env.stderrDrainFirst);
  }

  /** A caught fault on stderr before any readiness line is a startup failure, not a timeout, in
      either drain order. */
  lemma StderrFaultIsNotTimeout(configuredPort: int, sourcePath: string, env: Environment)
    requires Launches(configuredPort, env) && env.completedBeforeTimeout
    requires !HasReadyLine(env.devStdout.lines)
    requires IsCaught(env.devStderr.fault)
    ensures Supervise(configuredPort, sourcePath, env).effects.outcome == StartupFailed(StartFailure)
  {
    LaunchOutcome(configuredPort, sourcePath, env);
    DrainedGate(env.devStdout, env.devStderr, env.stderrDrainFirst);
  }

  /** An exception other than `EndOfStreamException` escapes its drain: nothing faults the
      gate, so without a readiness line the call times out instead of failing, and each drain
      whose exception escaped ends faulted. */
  lemma EscapedFaultTimesOut(configuredPort: int, sourcePath: string, env: Environment)
    requires Launches(configuredPort, env)
    requires !HasReadyLine(env.devStdout.lines)
    requires !IsCaught(env.devStdout.fault) && !IsCaught(env.devStderr.fault)
    ensures var e := Supervise(configuredPort, sourcePath, env).effects;
            e.outcome == TimedOut
            && (e.stdoutTask == Some(TaskFaulted) <==> env.devStdout.fault == Some(Uncaught))
            && (e.stderrTask == Some(TaskFaulted) <==> env.devStderr.fault == Some(Uncaught))
  {
    LaunchOutcome(configuredPort, sourcePath, env);
    DrainedGate(env.devStdout, env.devStderr, env.stderrDrainFirst);
    ScanGateResolves(Pending, env.devStdout.lines);
  }

  /** A stderr fault that arrives after stdout announced readiness leaves the gate ready and the
      handoff in place, but its unguarded `SetException` throws, so the stderr drain's task ends
      faulted. */
  lemma LateFaultFaultsDrainTask(configuredPort: int, sourcePath: string, env: Environment)
    requires Launches(configuredPort, env) && env.completedBeforeTimeout && !env.stderrDrainFirst
    requires HasReadyLine(env.devStdout.lines)
    requires env.devStderr.fault.Some?
    ensures var e := Supervise(configuredPort, sourcePath, env).effects;
            e.outcome.Proxied? && e.stderrTask == Some(TaskFaulted)
  {
    LaunchOutcome(configuredPort, sourcePath, env);
    DrainedGate(env.devStdout, env.devStderr, env.stderrDrainFirst);
  }

  /** A fresh start: port unset and free, neither file present, the export succeeding, three
      ordinary lines then the readiness line on stdout, no faults, in time. Both files are
      provisioned, the server is launched, and the handoff goes to `https://localhost:3000`. */
  lemma FreshStartHandsOff(sourcePath: string, env: Environment)
    requires forall i :: 0 <= i < |env.listeners| ==> env.listeners[i].port != 3000
    requires !env.pfxExists && !env.configExists && env.exportRun.exitCode == 0
    requires |env.devStdout.lines| == 4 && env.devStdout.fault.None? && env.devStderr.fault.None?
    requires forall j :: 0 <= j < 3 ==> !IsReadyLine(env.devStdout.lines[j])
    requires IsReadyLine(env.devStdout.lines[3])
    requires env.completedBeforeTimeout
    ensures var e := Supervise(0, sourcePath, env).effects;
            e.certExport.Some? && e.configWrite.Some? && e.devServer.Some?
            && e.outcome == Proxied(Uri("https", "localhost", 3000))
  {
    LaunchOutcome(0, sourcePath, env);
    DrainedGate(env.devStdout, env.devStderr, env.stderrDrainFirst);
  }

  /** Which files exist after a run: the config once written, the pfx once exported with exit
      code 0 (the export writes the pfx exactly when it succeeds). */
  function ArtifactsAfter(env: Environment, e: Effects): (bool, bool)
  {
    (env.pfxExists || (e.certExport.Some? && env.exportRun.exitCode == 0),
     env.configExists || e.configWrite.Some?)
  }

  /** Provisioning is idempotent across runs: after a run that launched and exported with exit
      code 0, the next run on the same listeners provisions nothing; after a failed export of a
      missing pfx, the next run exports again and rewrites the config. */
  lemma ProvisioningIdempotent(configuredPort: int, sourcePath: string, env: Environment, next: Environment)
    requires Launches(configuredPort, env) && next.listeners == env.listeners
    requires (next.pfxExists, next.configExists) == ArtifactsAfter(env, Supervise(configuredPort, sourcePath, env).effects)
    ensures env.exportRun.exitCode == 0 ==> Supervise(configuredPort, sourcePath, next).effects.certExport.None?
    ensures env.exportRun.exitCode != 0 && !env.pfxExists ==>
              Supervise(configuredPort, sourcePath, next).effects.certExport.Some?
              && Supervise(configuredPort, sourcePath, next).effects.configWrite.Some?
  {
    ProvisionsOnlyWhenMissing(configuredPort, sourcePath, env);
    ProvisionsOnlyWhenMissing(configuredPort, sourcePath, next);
  }
}
