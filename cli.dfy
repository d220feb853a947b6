/**
 The program's entry point, after argument parsing: the `--tcp host:port`
 option is split on ':' and turned into a TCP target, and the monitor is
 built from the parsed options.
 */
module Cli {
  import opened Wrappers
  import opened Text
  import opened Probes
  import opened Monitor

  /** The parsed command-line options. */
  datatype CliArgs = CliArgs(timeout: int, logDir: string, ping: string, dns: string, tcp: string)

  /** `int()` refused the text after the colon (Python raises ValueError and the program stops). */
  datatype TargetError = InvalidPort(text: string)

  /** The option values used when an option is not given. */
  function DefaultArgs(): CliArgs
  {
    CliArgs(1, "./logs", "8.8.8.8", "google.com", "google.com:80")
  }

  /**
   `host:port` to a TCP target: exactly two parts give `(part0, int(part1))`;
   any other number of parts gives the default `('google.com', 80)`.
   */
  function ParseTcpTarget(s: string): (r: Result<TcpTarget, TargetError>)
    ensures multiset(s)[':'] != 1 ==> r == Ok(DefaultTcpTarget())
    ensures r.Err? ==> multiset(s)[':'] == 1
  {
    var parts := Split(s, ':');
    if |parts| == 2 then
      match ParseInt(parts[1])
      case Some(port) => Ok(TcpTarget(parts[0], port))
      case None => Err(InvalidPort(parts[1]))
    else
      Ok(DefaultTcpTarget())
  }

  /** The targets dictionary `main` hands to the monitor. */
  function TargetsFromArgs(args: CliArgs): (r: Result<Targets, TargetError>)
    ensures r.Ok? ==> r.value.ping == args.ping && r.value.dns == args.dns
    ensures r.Ok? <==> ParseTcpTarget(args.tcp).Ok?
    ensures r.Ok? ==> r.value.tcp == ParseTcpTarget(args.tcp).value
    ensures r.Err? ==> r.error == ParseTcpTarget(args.tcp).error
  {
    match ParseTcpTarget(args.tcp)
    case Ok(tcp) => Ok(Targets(args.ping, args.dns, tcp))
    case Err(e) => Err(e)
  }

  /**
   `main` up to the start of monitoring: parse the TCP target and construct the
   monitor. Returns null where the port does not parse and `main` raises.
   */
  method StartMonitor(args: CliArgs) returns (m: NetworkMonitor?)
    ensures m == null <==> TargetsFromArgs(args).Err?
    ensures m != null ==>
              fresh(m) && m.Valid() && m.failures == 0 &&
              m.timeout == args.timeout && m.logDir == args.logDir &&
              m.targets == TargetsFromArgs(args).value &&
              m.log == StartupLog(m.targets, args.timeout)
  {
    var targets := TargetsFromArgs(args);
    if targets.Err? {
      return null;
    }
    m := new NetworkMonitor(args.logDir, args.timeout, Some(targets.value));
  }

  // ---------------------------------------------------------------------------
  // Properties of the target parser

  /**
   With exactly one colon the text is `host:portText`; the target is the host
   and the port's integer value, or an error when the port is not an integer:
   there is no fallback to the default and no range check on the port.
   */
  lemma ParseOneColon(host: string, portText: string)
    requires ':' !in host && ':' !in portText
    ensures ParseTcpTarget(host + ":" + portText) ==
            match ParseInt(portText)
            case Some(port) => Ok(TcpTarget(host, port))
            case None => Err(InvalidPort(portText))
  {
    SplitAfterPrefix(host, ':', portText);
    SplitWithoutSeparator(portText, ':');
  }

  /** Every text with exactly one colon has that form. */
  lemma OneColonShape(s: string) returns (host: string, portText: string)
    requires multiset(s)[':'] == 1
    ensures ':' !in host && ':' !in portText && s == host + ":" + portText
  {
    var parts := Split(s, ':');
    SplitJoin(s, ':');
    SplitPartsFree(s, ':', 0);
    SplitPartsFree(s, ':', 1);
    host, portText := parts[0], parts[1];
    assert parts[1..] == [portText];
  }

  /** Printing a target as `host:port` and parsing it back gives the target. */
  lemma TcpTargetRoundTrip(t: TcpTarget)
    requires ':' !in t.host
    ensures ParseTcpTarget(t.host + ":" + IntToString(t.port)) == Ok(t)
  {
    if ':' in IntToString(t.port) {
      IntToStringCharacters(t.port, ':');
    }
    ParseOneColon(t.host, IntToString(t.port));
    IntRoundTrip(t.port);
  }

  /** A target with a non-integer port is an error, never the default. */
  lemma NonIntegerPortIsError(host: string, portText: string)
    requires ':' !in host && ':' !in portText && !IsIntLiteral(portText)
    ensures ParseTcpTarget(host + ":" + portText) == Err(InvalidPort(portText))
  {
    ParseOneColon(host, portText);
  }

  /** Text with no colon falls back to the default target. */
  lemma NoColonFallsBack()
    ensures ParseTcpTarget("badtarget") == Ok(DefaultTcpTarget())
  {
    assert ':' !in "badtarget";
    SplitWithoutSeparator("badtarget", ':');
  }

  /** Text with more than one colon (an IPv6 address, say) also falls back to the default target. */
  lemma ManyColonsFallBack()
    ensures ParseTcpTarget("::1:80") == Ok(DefaultTcpTarget())
  {
  }

  /** A port that is not an integer stops the program instead of falling back. */
  lemma BadPortIsError()
    ensures ParseTcpTarget("host:notaport") == Err(InvalidPort("notaport"))
  {
    assert "host:notaport" == "host" + ":" + "notaport";
    assert !IsIntLiteral("notaport") by { assert !IsDigit("notaport"[0]); }
    NonIntegerPortIsError("host", "notaport");
  }

  /** With every option left at its default, main builds exactly the monitor's own default targets. */
  lemma DefaultArgsGiveDefaultTargets()
    ensures TargetsFromArgs(DefaultArgs()) == Ok(DefaultTargets())
  {
    assert "google.com:80" == "google.com" + ":" + IntToString(80);
    TcpTargetRoundTrip(DefaultTcpTarget());
  }
}
