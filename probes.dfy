/**
 The three reachability probes of the network monitor: the command each one
 runs (derived from the configured timeout), and how the result of that
 command is turned into a verdict `(success, detail)` plus the error line the
 probe logs when it fails.

 The external command is not run here: its result is an input value, either
 a finished process (exit code, standard output, standard error) or an expired
 outer timeout.
 */
module Probes {
  import opened Wrappers
  import opened Text

  /** A process that ran to completion. */
  datatype Completion = Completion(returncode: int, stdout: string, stderr: string)

  /** What a command run under an outer timeout produces. */
  datatype Outcome = Finished(completion: Completion) | TimedOut

  /** A command line and the outer timeout, in seconds, it is run under (None: no bound). */
  datatype Invocation = Invocation(argv: seq<string>, limit: Option<int>)

  datatype Level = Info | Error

  /** One record handed to the logger. */
  datatype LogEntry = LogEntry(level: Level, message: string)

  /** Why a probe failed: the command's own verdict, or the outer timeout. */
  datatype Cause = Failed | Timeout
  {
    function Word(): string
    {
      match this
      case Failed => "failed"
      case Timeout => "timeout"
    }
  }

  /**
   The verdict of one probe: the `(success, detail)` pair it returns, and on
   failure the message it logs at ERROR level.
   */
  datatype Verdict = Pass(detail: string) | Fail(detail: string, errorLine: string)
  {
    predicate Success()
    {
      Pass?
    }

    /** The log records a probe with this verdict appends. */
    function Emitted(): (entries: seq<LogEntry>)
      ensures |entries| == if Success() then 0 else 1
      ensures forall k :: 0 <= k < |entries| ==> entries[k] == LogEntry(Error, errorLine)
    {
      if Pass? then [] else [LogEntry(Error, errorLine)]
    }
  }

  /** The failure mark that opens every failure message ("✗ "). */
  const Mark: string := "\U{2717} "

  /** `✗ <subject> failed` or `✗ <subject> timeout`. */
  function FailureText(subject: string, cause: Cause): string
  {
    Mark + subject + " " + cause.Word()
  }

  // ---------------------------------------------------------------------------
  // Command construction

  /** `ping -c 1 -W <timeout * 1000> <target>`, with no outer timeout. */
  function PingInvocation(timeout: int, target: string): (inv: Invocation)
    ensures inv.limit == None
    ensures |inv.argv| == 6 && inv.argv[..4] == ["ping", "-c", "1", "-W"] && inv.argv[5] == target
    ensures ParseInt(inv.argv[4]) == Some(timeout * 1000)
  {
    IntRoundTrip(timeout * 1000);
    Invocation(["ping", "-c", "1", "-W", IntToString(timeout * 1000), target], None)
  }

  /** `dig +tries=1 +time=<timeout> <target>`, bounded by `timeout + 1` seconds. */
  function DigInvocation(timeout: int, target: string): (inv: Invocation)
    ensures |inv.argv| == 4 && inv.argv[..2] == ["dig", "+tries=1"] && inv.argv[3] == target
    ensures |inv.argv[2]| > 6 && inv.argv[2][..6] == "+time=" && ParseInt(inv.argv[2][6..]) == Some(timeout)
    ensures inv.limit.Some? && inv.limit.value == timeout + 1
  {
    IntRoundTrip(timeout);
    var timeArg := "+time=" + IntToString(timeout);
    assert timeArg[6..] == IntToString(timeout);
    Invocation(["dig", "+tries=1", timeArg, target], Some(timeout + 1))
  }

  /** `nc -zv -w <timeout> <host> <port>`, bounded by `timeout + 2` seconds. */
  function NcInvocation(timeout: int, host: string, port: int): (inv: Invocation)
    ensures |inv.argv| == 6 && inv.argv[..3] == ["nc", "-zv", "-w"] && inv.argv[4] == host
    ensures ParseInt(inv.argv[3]) == Some(timeout) && ParseInt(inv.argv[5]) == Some(port)
    ensures inv.limit.Some? && inv.limit.value == timeout + 2
  {
    IntRoundTrip(timeout);
    IntRoundTrip(port);
    Invocation(["nc", "-zv", "-w", IntToString(timeout), host, IntToString(port)], Some(timeout + 2))
  }

  /** The outer bound of the probes that have one always exceeds the inner bound handed to the tool. */
  lemma OuterBoundExceedsInner(timeout: int, target: string, host: string, port: int)
    ensures DigInvocation(timeout, target).limit.value > ParseInt(DigInvocation(timeout, target).argv[2][6..]).value
    ensures NcInvocation(timeout, host, port).limit.value > ParseInt(NcInvocation(timeout, host, port).argv[3]).value
  {
  }

  // ---------------------------------------------------------------------------
  // Classification

  /** `✗ PING <target> failed (return code: <rc>)`. */
  function PingFailureLine(target: string, returncode: int): string
  {
    Mark + "PING " + target + " failed (return code: " + IntToString(returncode) + ")"
  }

  /** The ping probe: success exactly on exit code 0; the detail is the command's output. */
  function ClassifyPing(target: string, c: Completion): (v: Verdict)
    ensures v.Success() <==> c.returncode == 0
    ensures v.Success() ==> v.detail == c.stdout
    ensures !v.Success() ==> v.detail == c.stdout + c.stderr && v.errorLine == PingFailureLine(target, c.returncode)
  {
    if c.returncode == 0 then Pass(c.stdout)
    else Fail(c.stdout + c.stderr, PingFailureLine(target, c.returncode))
  }

  const DnsSuccessStatus: string := "status: NOERROR"

  function DnsSubject(target: string): string
  {
    "DNS " + target
  }

  /**
   The DNS probe: success exactly when dig exits with 0 AND its output reports
   a NOERROR status; a timeout is reported apart from a failure.
   */
  function ClassifyDns(target: string, o: Outcome): (v: Verdict)
    ensures v.Success() <==>
              o.Finished? && o.completion.returncode == 0 && Contains(o.completion.stdout, DnsSuccessStatus)
    ensures v.Success() ==> v.detail == "DNS success"
    ensures !v.Success() ==>
              v.errorLine == v.detail &&
              v.detail == FailureText(DnsSubject(target), if o.TimedOut? then Timeout else Failed)
  {
    match o
    case TimedOut =>
      var msg := FailureText(DnsSubject(target), Timeout);
      Fail(msg, msg)
    case Finished(c) =>
      if c.returncode == 0 && Contains(c.stdout, DnsSuccessStatus) then Pass("DNS success")
      else
        var msg := FailureText(DnsSubject(target), Failed);
        Fail(msg, msg)
  }

  const TcpSuccessText: string := "succeeded"

  function TcpSubject(host: string, port: int): string
  {
    "TCP " + host + ":" + IntToString(port)
  }

  /**
   The TCP probe: success exactly when nc exits with 0 AND reports "succeeded"
   on standard error or standard output; a timeout is reported apart from a failure.
   */
  function ClassifyTcp(host: string, port: int, o: Outcome): (v: Verdict)
    ensures v.Success() <==>
              o.Finished? && o.completion.returncode == 0 &&
              (Contains(o.completion.stderr, TcpSuccessText) || Contains(o.completion.stdout, TcpSuccessText))
    ensures v.Success() ==> v.detail == "TCP success"
    ensures !v.Success() ==>
              v.errorLine == v.detail &&
              v.detail == FailureText(TcpSubject(host, port), if o.TimedOut? then Timeout else Failed)
  {
    match o
    case TimedOut =>
      var msg := FailureText(TcpSubject(host, port), Timeout);
      Fail(msg, msg)
    case Finished(c) =>
      if c.returncode == 0 && (Contains(c.stderr, TcpSuccessText) || Contains(c.stdout, TcpSuccessText)) then
        Pass("TCP success")
      else
        var msg := FailureText(TcpSubject(host, port), Failed);
        Fail(msg, msg)
  }

  // ---------------------------------------------------------------------------
  // Properties of the classification

  /** For every probe, success implies exit code 0. */
  lemma SuccessNeedsExitZero(target: string, host: string, port: int, c: Completion)
    ensures ClassifyPing(target, c).Success() ==> c.returncode == 0
    ensures ClassifyDns(target, Finished(c)).Success() ==> c.returncode == 0
    ensures ClassifyTcp(host, port, Finished(c)).Success() ==> c.returncode == 0
  {
  }

  /** Exit code 0 alone is not success for DNS: without NOERROR in the output it is a plain failure. */
  lemma DnsCleanExitWithoutNoError(target: string, out: string, err: string)
    requires !Contains(out, DnsSuccessStatus)
    ensures ClassifyDns(target, Finished(Completion(0, out, err))) ==
            Fail(Mark + "DNS " + target + " failed", Mark + "DNS " + target + " failed")
  {
  }

  /** A clean nc exit that reports "succeeded" anywhere on standard error passes the TCP probe. */
  lemma TcpSucceededOnStderr(host: string, port: int, out: string, before: string, after: string)
    ensures ClassifyTcp(host, port, Finished(Completion(0, out, before + TcpSuccessText + after))) ==
            Pass("TCP success")
  {
    ContainsInfix(before, TcpSuccessText, after);
  }

  /** A clean dig exit whose output reports NOERROR anywhere passes the DNS probe. */
  lemma DnsNoErrorInOutput(target: string, before: string, after: string, err: string)
    ensures ClassifyDns(target, Finished(Completion(0, before + DnsSuccessStatus + after, err))) ==
            Pass("DNS success")
  {
    ContainsInfix(before, DnsSuccessStatus, after);
  }

  /** Exit code 0 alone is not success for TCP: with no "succeeded" anywhere it is a plain failure. */
  lemma TcpCleanExitWithoutSucceeded(host: string, port: int, out: string, err: string)
    requires !Contains(out, TcpSuccessText) && !Contains(err, TcpSuccessText)
    ensures ClassifyTcp(host, port, Finished(Completion(0, out, err))) ==
            Fail(FailureText(TcpSubject(host, port), Failed), FailureText(TcpSubject(host, port), Failed))
  {
  }

  /** A silent clean exit fails both the DNS and the TCP probe, though ping would pass it. */
  lemma SilentCleanExit(target: string, host: string, port: int)
    ensures ClassifyPing(target, Completion(0, "", "")).Success()
    ensures !ClassifyDns(target, Finished(Completion(0, "", ""))).Success()
    ensures !ClassifyTcp(host, port, Finished(Completion(0, "", ""))).Success()
  {
  }

  /** A failure text names its cause last: it ends with "timeout" or "failed". */
  lemma FailureTextEndsWithCause(subject: string, cause: Cause)
    ensures EndsWith(FailureText(subject, cause), cause.Word())
  {
  }

  /** A failure text determines both its subject and its cause. */
  lemma FailureTextInjective(s1: string, c1: Cause, s2: string, c2: Cause)
    requires FailureText(s1, c1) == FailureText(s2, c2)
    ensures s1 == s2 && c1 == c2
  {
    var t := FailureText(s1, c1);
    // "failed" ends with 'd' and "timeout" with 't', so the last character fixes the cause.
    assert t[|t| - 1] == c1.Word()[|c1.Word()| - 1];
    assert t[|t| - 1] == c2.Word()[|c2.Word()| - 1];
    assert c1 == c2;
    var n := |Mark|;
    assert t[n..n + |s1|] == s1;
    assert t[n..n + |s2|] == s2;
  }

  /** The three details the DNS probe can return are pairwise distinct. */
  lemma DnsDetailsDistinct(target: string, c: Completion)
    ensures ClassifyDns(target, TimedOut).detail != ClassifyDns(target, Finished(c)).detail
    ensures ClassifyDns(target, TimedOut).detail != "DNS success"
    ensures FailureText(DnsSubject(target), Failed) != "DNS success"
  {
  }

  /** The three details the TCP probe can return are pairwise distinct. */
  lemma TcpDetailsDistinct(host: string, port: int, c: Completion)
    ensures ClassifyTcp(host, port, TimedOut).detail != ClassifyTcp(host, port, Finished(c)).detail
    ensures ClassifyTcp(host, port, TimedOut).detail != "TCP success"
    ensures FailureText(TcpSubject(host, port), Failed) != "TCP success"
  {
  }

  /** The ping error line records the exit code: two codes never give the same line. */
  lemma PingFailureLineRecordsCode(target: string, a: int, b: int)
    requires PingFailureLine(target, a) == PingFailureLine(target, b)
    ensures a == b
  {
    var prefix := Mark + "PING " + target + " failed (return code: ";
    var la := PingFailureLine(target, a);
    var lb := PingFailureLine(target, b);
    assert la == prefix + IntToString(a) + ")";
    assert lb == prefix + IntToString(b) + ")";
    assert |IntToString(a)| == |IntToString(b)|;
    assert la[|prefix|..|la| - 1] == IntToString(a);
    assert lb[|prefix|..|lb| - 1] == IntToString(b);
    IntToStringInjective(a, b);
  }
}
