/**
 The monitor object: its configuration (timeout and targets, with the default
 targets used when none are supplied), the log it writes to, and the three
 checks. Each check runs its command through `run` (the model's stand-in for
 `subprocess.run`), classifies the result, and appends one ERROR record to
 the log exactly when the check fails.
 */
module Monitor {
  import opened Wrappers
  import opened Text
  import opened Probes

  datatype TcpTarget = TcpTarget(host: string, port: int)

  /** One target per probe kind (the `{'ping': …, 'dns': …, 'tcp': (host, port)}` dictionary). */
  datatype Targets = Targets(ping: string, dns: string, tcp: TcpTarget)

  function DefaultTcpTarget(): TcpTarget
  {
    TcpTarget("google.com", 80)
  }

  function DefaultTargets(): Targets
  {
    Targets("8.8.8.8", "google.com", DefaultTcpTarget())
  }

  /** `targets or {defaults}`: the supplied targets, or the defaults when none are supplied. */
  function ChooseTargets(given: Option<Targets>): (t: Targets)
    ensures given.None? ==> t.ping == "8.8.8.8" && t.dns == "google.com" && t.tcp == TcpTarget("google.com", 80)
    ensures given.Some? ==> t == given.value
  {
    if given.Some? then given.value else DefaultTargets()
  }

  /** Python's display of a string, for strings that need no escaping. */
  function Quote(s: string): string
  {
    "'" + s + "'"
  }

  /** The display of the targets dictionary, as in the startup record. */
  function TargetsDisplay(t: Targets): string
  {
    "{'ping': " + Quote(t.ping) + ", 'dns': " + Quote(t.dns) +
    ", 'tcp': (" + Quote(t.tcp.host) + ", " + IntToString(t.tcp.port) + ")}"
  }

  /** The three INFO records written when a monitor is constructed. */
  function StartupLog(t: Targets, timeout: int): (log: seq<LogEntry>)
    ensures |log| == 3 && forall k :: 0 <= k < 3 ==> log[k].level == Info
  {
    [ LogEntry(Info, "Network monitor started"),
      LogEntry(Info, "Targets: " + TargetsDisplay(t)),
      LogEntry(Info, "Timeout: " + IntToString(timeout) + "s") ]
  }

  /** The number of ERROR records in a log. */
  function ErrorCount(log: seq<LogEntry>): nat
    decreases |log|
  {
    if |log| == 0 then 0
    else ErrorCount(log[..|log| - 1]) + (if log[|log| - 1].level == Error then 1 else 0)
  }

  /** Error records are counted additively over appended log segments. */
  lemma {:induction false} ErrorCountAppend(a: seq<LogEntry>, b: seq<LogEntry>)
    ensures ErrorCount(a + b) == ErrorCount(a) + ErrorCount(b)
    decreases |b|
  {
    if |b| == 0 {
      assert a + b == a;
    } else {
      assert (a + b)[..|a + b| - 1] == a + b[..|b| - 1];
      ErrorCountAppend(a, b[..|b| - 1]);
    }
  }

  /** A probe's verdict adds one ERROR record on failure and none on success. */
  lemma VerdictErrorCount(log: seq<LogEntry>, v: Verdict)
    ensures ErrorCount(log + v.Emitted()) == ErrorCount(log) + (if v.Success() then 0 else 1)
  {
    ErrorCountAppend(log, v.Emitted());
    if !v.Success() {
      assert v.Emitted()[..0] == [];
    }
  }

  /** The startup records hold no error. */
  lemma StartupLogHasNoError(t: Targets, timeout: int)
    ensures ErrorCount(StartupLog(t, timeout)) == 0
  {
    var log := StartupLog(t, timeout);
    assert log[..3] == log;
    assert ErrorCount(log[..1]) == 0 by { assert log[..1][..0] == []; }
    assert ErrorCount(log[..2]) == 0 by { assert log[..2][..1] == log[..1]; }
    assert log[..3][..2] == log[..2];
  }

  class NetworkMonitor {
    var logDir: string
    var timeout: int
    var targets: Targets
    /** The records handed to the logger so far, oldest first. */
    var log: seq<LogEntry>
    /** How many checks have failed since construction. */
    ghost var failures: nat

    /** Every failed check, and nothing else, left exactly one ERROR record. */
    ghost predicate Valid()
      reads this
    {
      ErrorCount(log) == failures
    }

    constructor (logDir: string, timeout: int, given: Option<Targets>)
      ensures Valid() && failures == 0
      ensures this.logDir == logDir && this.timeout == timeout
      ensures targets == ChooseTargets(given)
      ensures log == StartupLog(targets, timeout)
    {
      this.logDir := logDir;
      this.timeout := timeout;
      targets := ChooseTargets(given);
      log := StartupLog(ChooseTargets(given), timeout);
      failures := 0;
      StartupLogHasNoError(ChooseTargets(given), timeout);
    }

    /** Pings the ping target once; `run` gives the result of the ping command. */
    method CheckPing(run: Invocation -> Completion) returns (ok: bool, detail: string)
      requires Valid()
      modifies this`log, this`failures
      ensures Valid()
      ensures var v := ClassifyPing(targets.ping, run(PingInvocation(timeout, targets.ping)));
              ok == v.Success() && detail == v.detail && log == old(log) + v.Emitted()
      ensures failures == old(failures) + (if ok then 0 else 1)
    {
      var target := targets.ping;
      var result := run(PingInvocation(timeout, target));
      var v := ClassifyPing(target, result);
      Record(v);
      ok, detail := v.Success(), v.detail;
    }

    /** Queries the DNS target once; `run` gives the result of dig under its outer timeout. */
    method CheckDns(run: Invocation -> Outcome) returns (ok: bool, detail: string)
      requires Valid()
      modifies this`log, this`failures
      ensures Valid()
      ensures var v := ClassifyDns(targets.dns, run(DigInvocation(timeout, targets.dns)));
              ok == v.Success() && detail == v.detail && log == old(log) + v.Emitted()
      ensures failures == old(failures) + (if ok then 0 else 1)
    {
      var target := targets.dns;
      var result := run(DigInvocation(timeout, target));
      var v := ClassifyDns(target, result);
      Record(v);
      ok, detail := v.Success(), v.detail;
    }

    /** Connects to the TCP target once; `run` gives the result of nc under its outer timeout. */
    method CheckTcp(run: Invocation -> Outcome) returns (ok: bool, detail: string)
      requires Valid()
      modifies this`log, this`failures
      ensures Valid()
      ensures var v := ClassifyTcp(targets.tcp.host, targets.tcp.port,
                                   run(NcInvocation(timeout, targets.tcp.host, targets.tcp.port)));
              ok == v.Success() && detail == v.detail && log == old(log) + v.Emitted()
      ensures failures == old(failures) + (if ok then 0 else 1)
    {
      var host, port := targets.tcp.host, targets.tcp.port;
      var result := run(NcInvocation(timeout, host, port));
      var v := ClassifyTcp(host, port, result);
      Record(v);
      ok, detail := v.Success(), v.detail;
    }

    /** Logs a verdict's error record, if it has one. */
    method Record(v: Verdict)
      requires Valid()
      modifies this`log, this`failures
      ensures Valid()
      ensures log == old(log) + v.Emitted()
      ensures failures == old(failures) + (if v.Success() then 0 else 1)
    {
      VerdictErrorCount(log, v);
      if !v.Success() {
        log := log + [LogEntry(Error, v.errorLine)];
        failures := failures + 1;
      }
    }
  }
}
