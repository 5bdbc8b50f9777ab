/**
 * The readiness gate and the two drains of the dev server's output streams.
 *
 * The gate is a `TaskCompletionSource<int>`: it completes at most once, and a second
 * `SetResult` or `SetException` throws instead of changing it. The stdout drain only resolves
 * the gate after checking that it is still pending; the fault paths of both drains do not
 * check, so a fault that arrives after the gate completed makes that drain's task end faulted.
 *
 * A stream is the lines it delivers before it ends, and how it ends: cleanly, with an
 * `EndOfStreamException` that the drain's handler catches (and whose text it logs), or with any
 * other exception, which no handler catches and which ends the drain's task faulted.
 */
module Readiness {
  import opened Wrappers
  import opened Text
  import opened Logging

  /** The line `npm run dev` prints once the server listens. */
  const DoneMessage := "Dev server running at:"

  /** The message of the exception a faulted stream puts into the gate. */
  const StartFailure := "'npm run dev' failed."

  datatype GateState = Pending | Ready | Faulted(error: string)

  /** The `TaskCompletionSource<int>` the supervisor waits on. */
  class ReadinessGate {
    var state: GateState

    constructor ()
      ensures state == Pending
    {
      state := Pending;
    }

    /** `Task.IsCompleted`. */
    predicate IsCompleted()
      reads this
    {
      state != Pending
    }

    /** `SetResult`: completes a pending gate as ready; throws (`threw`) on a completed one,
        which then keeps its state. */
    method SetResult() returns (threw: bool)
      modifies this
      ensures threw <==> old(state) != Pending
      ensures state == if threw then old(state) else Ready
    {
      threw := state != Pending;
      if !threw {
        state := Ready;
      }
    }

    /** `SetException`: completes a pending gate as faulted; throws (`threw`) on a completed
        one, which then keeps its state. */
    method SetException(error: string) returns (threw: bool)
      modifies this
      ensures threw <==> old(state) != Pending
      ensures state == if threw then old(state) else Faulted(error)
    {
      threw := state != Pending;
      if !threw {
        state := Faulted(error);
      }
    }
  }

  /** How reading a stream can fail: an `EndOfStreamException`, which the drain catches (with the
      exception's text), or any other exception, which escapes the drain. */
  datatype StreamFault = Caught(text: string) | Uncaught

  /** The lines a stream delivers, then the exception reading it threw, if it did not simply end. */
  datatype OutputStream = OutputStream(lines: seq<string>, fault: Option<StreamFault>)

  /** The stream ended with an exception the drain's handler catches. */
  predicate IsCaught(fault: Option<StreamFault>)
  {
    fault.Some? && fault.value.Caught?
  }

  /** How a drain's background task ends. */
  datatype TaskStatus = RanToCompletion | TaskFaulted

  /** A stdout line that announces readiness: non-empty once trimmed, and holding DoneMessage. */
  predicate IsReadyLine(line: string)
  {
    Trim(line) != [] && Contains(Trim(line), DoneMessage)
  }

  predicate HasReadyLine(lines: seq<string>)
  {
    exists k :: 0 <= k < |lines| && IsReadyLine(lines[k])
  }

  /** The entries the stdout drain logs for `lines`: each line trimmed, blank ones dropped, the
      rest at information level in stream order. */
  function InfoEntries(lines: seq<string>): (es: seq<LogEntry>)
    ensures |es| <= |lines|
    ensures forall k :: 0 <= k < |es| ==> es[k].level == Information && es[k].message != []
  {
    if lines == [] then []
    else
      var last := Trim(lines[|lines| - 1]);
      InfoEntries(lines[..|lines| - 1]) + (if last == [] then [] else [LogEntry(Information, last)])
  }

  /** The entries the stderr drain logs for `lines`: every line, blank ones included, trimmed,
      at error level in stream order. */
  function ErrorEntries(lines: seq<string>): (es: seq<LogEntry>)
    ensures |es| == |lines|
    ensures forall k :: 0 <= k < |lines| ==> es[k] == LogEntry(Error, Trim(lines[k]))
  {
    if lines == [] then []
    else ErrorEntries(lines[..|lines| - 1]) + [LogEntry(Error, Trim(lines[|lines| - 1]))]
  }

  /** The gate after the stdout drain has read `lines`, starting from `g`. */
  function ScanGate(g: GateState, lines: seq<string>): GateState
  {
    if lines == [] then g
    else
      var before := ScanGate(g, lines[..|lines| - 1]);
      if before == Pending && IsReadyLine(lines[|lines| - 1]) then Ready else before
  }

  /** The stdout scan leaves a completed gate alone, and makes a pending one ready exactly when
      some line announces readiness; it never faults the gate. */
  lemma {:induction false} ScanGateResolves(g: GateState, lines: seq<string>)
    ensures g != Pending ==> ScanGate(g, lines) == g
    ensures g == Pending ==> (ScanGate(g, lines) == Ready <==> HasReadyLine(lines))
    ensures g == Pending ==> (ScanGate(g, lines) == Pending <==> !HasReadyLine(lines))
  {
    if lines != [] {
      var init := lines[..|lines| - 1];
      ScanGateResolves(g, init);
      assert forall k :: 0 <= k < |init| ==> init[k] == lines[k];
      assert HasReadyLine(lines) <==> HasReadyLine(init) || IsReadyLine(lines[|lines| - 1]);
    }
  }

  /** What the end of a drain does to the gate: a caught fault faults a pending gate and leaves
      a completed one as it was; an uncaught one leaves the gate alone. */
  function FaultGate(g: GateState, fault: Option<StreamFault>): GateState
  {
    if IsCaught(fault) && g == Pending then Faulted(StartFailure) else g
  }

  /** A drain's task ends faulted exactly when its exception escapes, or when the handler's
      `SetException` throws because the gate had already completed. */
  function FaultStatus(g: GateState, fault: Option<StreamFault>): TaskStatus
  {
    if fault.Some? && (fault.value.Uncaught? || g != Pending) then TaskFaulted else RanToCompletion
  }

  /** The handler logs a caught exception's text at error level; an uncaught one logs nothing. */
  function FaultEntries(fault: Option<StreamFault>): seq<LogEntry>
  {
    if IsCaught(fault) then [LogEntry(Error, fault.value.text)] else []
  }

  /** One more stdout line: its trimmed text is logged unless blank, and it resolves a pending
      gate when it announces readiness. */
  lemma StdoutStep(g: GateState, lines: seq<string>, i: nat)
    requires i < |lines|
    ensures InfoEntries(lines[..i + 1]) ==
              InfoEntries(lines[..i]) + (if Trim(lines[i]) == [] then [] else [LogEntry(Information, Trim(lines[i]))])
    ensures ScanGate(g, lines[..i + 1]) ==
              if ScanGate(g, lines[..i]) == Pending && IsReadyLine(lines[i]) then Ready else ScanGate(g, lines[..i])
  {
    assert lines[..i + 1][..i] == lines[..i];
  }

  /** Everything the stdout drain logs for a stream. */
  function StdoutLog(stdout: OutputStream): seq<LogEntry>
  {
    InfoEntries(stdout.lines) + FaultEntries(stdout.fault)
  }

  /** Everything the stderr drain logs for a stream. */
  function StderrLog(stderr: OutputStream): seq<LogEntry>
  {
    ErrorEntries(stderr.lines) + FaultEntries(stderr.fault)
  }

  /** How a drain ends after its last line. The `catch (EndOfStreamException)` block both drains
      share logs the exception and calls `SetException` without checking the gate, so the task
      ends faulted if the gate had already completed. Any other exception escapes: nothing is
      logged, the gate is untouched, and the task ends faulted. */
  method HandleFault(fault: Option<StreamFault>, gate: ReadinessGate, logger: Logger) returns (status: TaskStatus)
    modifies gate, logger
    ensures logger.entries == old(logger.entries) + FaultEntries(fault)
    ensures gate.state == FaultGate(old(gate.state), fault)
    ensures status == FaultStatus(old(gate.state), fault)
  {
    status := RanToCompletion;
    if fault.Some? {
      match fault.value
      case Caught(text) =>
        logger.Log(Error, text);
        var threw := gate.SetException(StartFailure);
        if threw {
          status := TaskFaulted;
        }
      case Uncaught =>
        status := TaskFaulted;
    }
  }

  /** The body of the stdout loop for one line read: a non-blank trimmed line is logged, and if
      the gate is still pending and the line holds DoneMessage, `SetResult` (which then cannot
      throw) makes it ready. */
  method StdoutLine(raw: string, gate: ReadinessGate, logger: Logger)
    modifies gate, logger
    ensures logger.entries == old(logger.entries) + (if Trim(raw) == [] then [] else [LogEntry(Information, Trim(raw))])
    ensures gate.state == if old(gate.state) == Pending && IsReadyLine(raw) then Ready else old(gate.state)
  {
    var line := Trim(raw);
    if line != [] {
      logger.Log(Information, line);
      if !gate.IsCompleted() && Contains(line, DoneMessage) {
        var threw := gate.SetResult();
        assert !threw;
      }
    }
  }

  /** The stdout drain: logs each non-blank trimmed line, resolves a pending gate to ready at the
      first line holding DoneMessage, and on a fault logs it and calls `SetException`. */
  method DrainStdout(stdout: OutputStream, gate: ReadinessGate, logger: Logger) returns (status: TaskStatus)
    modifies gate, logger
    ensures logger.entries == old(logger.entries) + StdoutLog(stdout)
    ensures gate.state == FaultGate(ScanGate(old(gate.state), stdout.lines), stdout.fault)
    ensures status == FaultStatus(ScanGate(old(gate.state), stdout.lines), stdout.fault)
  {
    var lines := stdout.lines;
    ghost var entries0, gate0 := logger.entries, gate.state;
    var i := 0;
    while i < |lines|
      invariant 0 <= i <= |lines|
      invariant logger.entries == entries0 + InfoEntries(lines[..i])
      invariant gate.state == ScanGate(gate0, lines[..i])
    {
      StdoutStep(gate0, lines, i);
      StdoutLine(lines[i], gate, logger);
      i := i + 1;
    }
    assert lines[..i] == lines;
    status := HandleFault(stdout.fault, gate, logger);
  }

  /** The stderr drain: logs every trimmed line at error level, and on a fault logs it and calls
      `SetException`. It never resolves the gate to ready. */
  method DrainStderr(stderr: OutputStream, gate: ReadinessGate, logger: Logger) returns (status: TaskStatus)
    modifies gate, logger
    ensures logger.entries == old(logger.entries) + StderrLog(stderr)
    ensures gate.state == FaultGate(old(gate.state), stderr.fault)
    ensures status == FaultStatus(old(gate.state), stderr.fault)
  {
    var lines := stderr.lines;
    ghost var entries0, gate0 := logger.entries, gate.state;
    var i := 0;
    while i < |lines|
      invariant 0 <= i <= |lines|
      invariant logger.entries == entries0 + ErrorEntries(lines[..i])
      invariant gate.state == gate0
    {
      logger.Log(Error, Trim(lines[i]));
      assert lines[..i + 1][..i] == lines[..i];
      i := i + 1;
    }
    assert lines[..i] == lines;
    status := HandleFault(stderr.fault, gate, logger);
  }

  /** The gate after the stdout drain has read the whole stream, starting from `g`. */
  function StdoutGate(g: GateState, stdout: OutputStream): GateState
  {
    FaultGate(ScanGate(g, stdout.lines), stdout.fault)
  }

  /** From a pending gate, the stdout drain leaves it ready exactly when some line announces
      readiness, faulted exactly when none does and the stream ends with a caught fault, and
      pending otherwise; its task ends faulted exactly when its exception escapes or a caught
      fault follows a readiness line. */
  lemma StdoutResolution(stdout: OutputStream)
    ensures StdoutGate(Pending, stdout) == Ready <==> HasReadyLine(stdout.lines)
    ensures StdoutGate(Pending, stdout) == Faulted(StartFailure) <==>
              !HasReadyLine(stdout.lines) && IsCaught(stdout.fault)
    ensures StdoutGate(Pending, stdout) == Pending <==>
              !HasReadyLine(stdout.lines) && !IsCaught(stdout.fault)
    ensures FaultStatus(ScanGate(Pending, stdout.lines), stdout.fault) == TaskFaulted <==>
              stdout.fault.Some? && (stdout.fault.value.Uncaught? || HasReadyLine(stdout.lines))
  {
    ScanGateResolves(Pending, stdout.lines);
  }

  /** First resolution wins: once the gate has completed, neither drain changes it, and a fault
      on either stream then ends that drain's task faulted. */
  lemma CompletedGateIsFinal(g: GateState, stdout: OutputStream, stderr: OutputStream)
    requires g != Pending
    ensures StdoutGate(g, stdout) == g && FaultGate(g, stderr.fault) == g
    ensures FaultStatus(ScanGate(g, stdout.lines), stdout.fault) == TaskFaulted <==> stdout.fault.Some?
    ensures FaultStatus(g, stderr.fault) == TaskFaulted <==> stderr.fault.Some?
  {
    ScanGateResolves(g, stdout.lines);
  }

  /** The stdout log of a stream split in two is the log of the first part followed by the log of
      the second: lines are logged in stream order, each on its own. */
  lemma {:induction false} InfoEntriesAppend(a: seq<string>, b: seq<string>)
    ensures InfoEntries(a + b) == InfoEntries(a) + InfoEntries(b)
    decreases |b|
  {
    if b == [] {
      assert a + b == a;
    } else {
      var b' := b[..|b| - 1];
      assert (a + b)[..|a + b| - 1] == a + b';
      InfoEntriesAppend(a, b');
    }
  }

  /** A line that is blank once trimmed is not logged: the stdout log is as if it were absent. */
  lemma BlankLineNotLogged(a: seq<string>, line: string, b: seq<string>)
    requires Trim(line) == []
    ensures InfoEntries(a + [line] + b) == InfoEntries(a + b)
  {
    assert InfoEntries([line]) == [] by {
      assert [line][..0] == [];
    }
    calc {
      InfoEntries(a + [line] + b);
      { InfoEntriesAppend(a + [line], b); }
      InfoEntries(a + [line]) + InfoEntries(b);
      { InfoEntriesAppend(a, [line]); }
      InfoEntries(a) + InfoEntries(b);
      { InfoEntriesAppend(a, b); }
      InfoEntries(a + b);
    }
  }

  /** A readiness line after k non-blank lines that do not announce readiness: the gate is still
      pending after those k lines and ready after the next one, by which time all k + 1 lines are
      logged, trimmed, in stream order. */
  lemma {:induction false} ReadyAfterLoggingAll(lines: seq<string>, k: nat)
    requires k < |lines|
    requires forall j :: 0 <= j <= k ==> Trim(lines[j]) != []
    requires forall j :: 0 <= j < k ==> !IsReadyLine(lines[j])
    requires IsReadyLine(lines[k])
    ensures ScanGate(Pending, lines[..k]) == Pending
    ensures ScanGate(Pending, lines[..k + 1]) == Ready
    ensures |InfoEntries(lines[..k + 1])| == k + 1
    ensures forall j :: 0 <= j <= k ==> InfoEntries(lines[..k + 1])[j] == LogEntry(Information, Trim(lines[j]))
  {
    var before, upTo := lines[..k], lines[..k + 1];
    assert !HasReadyLine(before) by {
      assert forall j :: 0 <= j < k ==> before[j] == lines[j];
    }
    ScanGateResolves(Pending, before);
    assert upTo[k] == lines[k];
    ScanGateResolves(Pending, upTo);
    assert forall j :: 0 <= j <= k ==> upTo[j] == lines[j];
    AllNonBlankLogged(upTo);
  }

  /** When no line is blank, the stdout drain logs every line, trimmed, in order. */
  lemma {:induction false} AllNonBlankLogged(lines: seq<string>)
    requires forall j :: 0 <= j < |lines| ==> Trim(lines[j]) != []
    ensures |InfoEntries(lines)| == |lines|
    ensures forall j :: 0 <= j < |lines| ==> InfoEntries(lines)[j] == LogEntry(Information, Trim(lines[j]))
  {
    if lines != [] {
      AllNonBlankLogged(lines[..|lines| - 1]);
    }
  }
}
