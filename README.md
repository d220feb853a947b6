# Network monitor: verified model of its decision logic

`network_monitor.py` watches three kinds of reachability. It pings a host
(`ping`), resolves a domain (`dig`) and connects to a TCP port (`nc`), and it
logs an ERROR record each time a check fails. The program makes a handful of
decisions of its own around those external commands, and this project models
them:

- **Command construction.** Each check derives its command line from the
  configured timeout. Ping's wait is `-W timeout*1000` with no outer bound.
  dig gets `+time=timeout` under an outer bound of `timeout + 1` seconds.
  nc gets `-w timeout` under an outer bound of `timeout + 2` seconds.
- **Outcome classification.** The result of the command is either a finished
  process `(returncode, stdout, stderr)` or an expired outer timeout. Each
  check turns it into the pair `(success, detail)`.
- **Logging.** A check that fails appends exactly one ERROR record. A check
  that succeeds appends nothing.
- **Default targets.** When the monitor is constructed without targets, it uses
  ping `8.8.8.8`, dns `google.com` and tcp `('google.com', 80)`.
- **TCP target parsing in `main`.** `host:port` is split on `:`. Exactly two
  parts give `(host, int(port))`. Any other number of parts gives the default
  `('google.com', 80)`.

Modules:

- `Wrappers`: `Option` and `Result`.
- `Text`: the Python string operations the program uses. These are substring
  membership, `str.split` on one character (with `join` as its inverse),
  `str(int)` and `int(text)`, with their round-trip lemmas.
- `Probes`: the command-result datatypes, command construction, the three
  classifiers and the error lines, with lemmas about them.
- `Monitor`: the targets, their defaults, and the class `NetworkMonitor`. The
  class has the configuration, the log (a sequence of `(level, message)`
  records) and the three checks as methods. The logger is not modelled; the
  log field stands in for it. A ghost counter of failed checks is tied to the
  log by the class invariant: the number of ERROR records equals the number
  of failed checks.
- `Cli`: `main`'s parsing of the TCP target, and the construction of the
  monitor from the parsed options.

A check method takes `run`, a function from the command to its result, in
place of `subprocess.run`. So the contract of each check names both the exact
command that is run and how its result is classified.

Three behaviours of the code are easy to miss:

- A TCP option whose port is not an integer (`host:notaport`) does not fall
  back to the default target. `int()` raises `ValueError`, and `main` stops
  before the monitor is built. The model returns `Err(InvalidPort(..))`, and
  `StartMonitor` returns null.
- The port is not checked against the range 1..65535. The model accepts any
  integer, including negative ones (`host:-5`).
- On failure, ping returns `stdout + stderr` as its detail, and that may be
  empty. The ERROR line it logs is never empty.

## Model

| member | source | states |
|---|---|---|
| Text.Split | network_monitor.py:161 | `s.split(':')` always has one more part than `s` has colons |
| Text.SplitJoin | network_monitor.py:161 | joining the parts of a split with the separator gives back the original text |
| Text.SplitPartsFree | network_monitor.py:161 | no part of a split contains the separator |
| Text.SplitWithoutSeparator | network_monitor.py:161 | text without a colon splits into itself alone |
| Text.SplitAfterPrefix | network_monitor.py:161 | for colon-free `a`, splitting `a:b` gives `a` followed by the parts of `b` |
| Text.Contains | network_monitor.py:92 | Python's `sub in s`: the empty text is in every string, and a match is never longer than the text searched |
| Text.ContainsInfix | network_monitor.py:114 | text placed anywhere in a string is found in it |
| Text.IntToString | network_monitor.py:71 | Python's `str(i)`: a minus sign first exactly when `i` is negative, then one or more digits with no leading zero unless the number is 0 |
| Text.ParseInt | network_monitor.py:163 | `int(text)` succeeds exactly on an optional sign followed by at least one digit (the interpreter's limit on digit count is not modelled, see "Left out") |
| Text.IntRoundTrip | network_monitor.py:163 | `int(str(i)) == i` for every integer |
| Text.IntToStringInjective | network_monitor.py:78 | different integers print as different text |
| Text.IntToStringCharacters | network_monitor.py:108 | a printed integer holds only digits and minus signs, so never a colon |
| Probes.Verdict.Emitted | network_monitor.py:75-81 | a verdict yields one ERROR record carrying its error line on failure, and no record on success |
| Probes.PingInvocation | network_monitor.py:70-74 | ping runs as `ping -c 1 -W <w> <target>`, where `<w>` parses back to `timeout * 1000`, with no outer timeout |
| Probes.DigInvocation | network_monitor.py:86-91 | dig runs as `dig +tries=1 +time=<t> <target>`, where `<t>` parses back to `timeout`, under an outer bound of `timeout + 1` |
| Probes.NcInvocation | network_monitor.py:107-112 | nc runs as `nc -zv -w <t> <host> <port>`, where `<t>` and `<port>` parse back to `timeout` and `port`, under an outer bound of `timeout + 2` |
| Probes.OuterBoundExceedsInner | network_monitor.py:87-111 | the outer bounds of dig and nc always exceed the timeout given to the tool itself |
| Probes.ClassifyPing | network_monitor.py:75-81 | ping succeeds iff the exit code is 0; the detail is stdout on success and stdout+stderr on failure; the error line is the return-code message |
| Probes.ClassifyDns | network_monitor.py:92-102 | DNS succeeds iff dig finished with exit code 0 and `status: NOERROR` occurs in stdout; on failure the detail and the error line are the same `failed` or `timeout` message |
| Probes.ClassifyTcp | network_monitor.py:114-124 | TCP succeeds iff nc finished with exit code 0 and `succeeded` occurs in stderr or stdout; on failure the detail and the error line are the same `failed` or `timeout` message |
| Probes.SuccessNeedsExitZero | network_monitor.py:75-114 | no probe succeeds unless the exit code is 0 |
| Probes.DnsCleanExitWithoutNoError | network_monitor.py:92-98 | exit code 0 without `status: NOERROR` in stdout is the `✗ DNS <target> failed` failure |
| Probes.TcpCleanExitWithoutSucceeded | network_monitor.py:114-120 | exit code 0 without `succeeded` in either stream is the `✗ TCP <host>:<port> failed` failure |
| Probes.TcpSucceededOnStderr | network_monitor.py:114-115 | a clean nc exit reporting `succeeded` anywhere on stderr is `(True, "TCP success")` |
| Probes.DnsNoErrorInOutput | network_monitor.py:92-93 | a clean dig exit reporting `status: NOERROR` anywhere in stdout is `(True, "DNS success")` |
| Probes.SilentCleanExit | network_monitor.py:75-120 | a silent clean exit passes ping but fails both DNS and TCP, so success is not the same as exit code 0 |
| Probes.FailureTextEndsWithCause | network_monitor.py:95-124 | every DNS or TCP failure message ends with `failed` or with `timeout`, according to its cause |
| Probes.FailureTextInjective | network_monitor.py:95-124 | a failure message determines both its subject and its cause |
| Probes.DnsDetailsDistinct | network_monitor.py:92-102 | the DNS success, `failed` and `timeout` details are pairwise distinct |
| Probes.TcpDetailsDistinct | network_monitor.py:114-124 | the TCP success, `failed` and `timeout` details are pairwise distinct |
| Probes.PingFailureLineRecordsCode | network_monitor.py:78 | the ping error line records the exit code: two codes never give the same line |
| Monitor.ChooseTargets | network_monitor.py:24-28 | absent targets become ping `8.8.8.8`, dns `google.com`, tcp `('google.com', 80)`; given targets are kept as they are |
| Monitor.StartupLog | network_monitor.py:32-34 | construction writes three records, all at INFO level |
| Monitor.ErrorCountAppend | network_monitor.py:79-123 | ERROR records add up over appended log segments |
| Monitor.VerdictErrorCount | network_monitor.py:75-124 | one check raises the ERROR count by one on failure and by none on success |
| Monitor.StartupLogHasNoError | network_monitor.py:32-34 | construction logs no ERROR record |
| Monitor.NetworkMonitor.constructor | network_monitor.py:17-34 | keeps the log directory and the timeout, chooses the targets, starts the log with the three INFO records, and establishes the invariant with no failures counted |
| Monitor.NetworkMonitor.CheckPing | network_monitor.py:68-81 | runs the ping command built from the timeout, returns its classification, and appends exactly its records; the invariant is kept and the failure count grows by one exactly on failure |
| Monitor.NetworkMonitor.CheckDns | network_monitor.py:83-102 | runs the dig command built from the timeout under its outer bound, returns its classification, and appends exactly its records; the invariant is kept |
| Monitor.NetworkMonitor.CheckTcp | network_monitor.py:104-124 | runs the nc command built from the timeout under its outer bound, returns its classification, and appends exactly its records; the invariant is kept |
| Monitor.NetworkMonitor.Record | network_monitor.py:79-123 | appends the verdict's ERROR record when it failed, and nothing else changes |
| Cli.ParseTcpTarget | network_monitor.py:161-165 | any colon count other than one gives the default target; an error can only come from text with exactly one colon |
| Cli.TargetsFromArgs | network_monitor.py:161-171 | the targets keep the ping and dns options unchanged, their tcp field is the parsed TCP option, and they exist exactly when that option parses; otherwise the error is the parser's |
| Cli.StartMonitor | network_monitor.py:161-177 | no monitor is built exactly when the TCP port does not parse; otherwise a fresh monitor with the parsed targets, the timeout, the log directory and the startup log |
| Cli.ParseOneColon | network_monitor.py:161-163 | `host:portText` with one colon gives `(host, int(portText))`, or an error when the port is not an integer |
| Cli.OneColonShape | network_monitor.py:161-162 | every text with exactly one colon is `host:portText` with colon-free parts |
| Cli.TcpTargetRoundTrip | network_monitor.py:161-163 | printing a target with a colon-free host as `host:port` and parsing it back gives the target |
| Cli.NonIntegerPortIsError | network_monitor.py:163 | a non-integer port is an error, never the default target |
| Cli.NoColonFallsBack | network_monitor.py:164-165 | `badtarget` (no colon) gives `('google.com', 80)` |
| Cli.ManyColonsFallBack | network_monitor.py:164-165 | `::1:80` (three colons) gives `('google.com', 80)` |
| Cli.BadPortIsError | network_monitor.py:163 | `host:notaport` is an error, not the default target |
| Cli.DefaultArgsGiveDefaultTargets | network_monitor.py:155-165 | with every option at its default, `main` builds the same targets as the constructor's defaults |

## Left out

- Running `ping`, `dig` and `nc`. `subprocess.run` is the parameter `run` of each check, and its result is an input value.
- Errors from `subprocess.run` other than `TimeoutExpired`, such as a missing executable. The source does not catch them, so they end the probe's thread. The model has no such outcome.
- Logging set-up: the file and console handlers, midnight rotation, the 365-file retention, the file namer, and the timestamped line format. The log is a sequence of `(level, message)` records. The logger is one process-wide object, so a second monitor would share it and add handlers again; the model gives each monitor its own log.
- `monitor_loop` and `_loop`: the three daemon threads, the one-second sleeps, the endless loops and the exit on `KeyboardInterrupt`. These are about concurrency and timing.
- `argparse` and the creation of the log directory with `mkdir`. The parsed options are the input datatype `CliArgs`, and `logDir` is only stored.
- A targets dictionary with missing keys, which fails with `KeyError` when a check runs. The targets are a record with all three fields. An empty dictionary counts as absent in `targets or {...}`, and is the `None` case of `ChooseTargets`.
- Text.ParseInt: accepts only an optional sign followed by ASCII digits. Python's `int()` also accepts surrounding whitespace, underscores between digits and non-ASCII digits, and the model rejects those. CPython also refuses, by default, to convert text of more than 4300 digits (and raises `ValueError`); the model converts any number of digits, so a `--tcp` port that long yields a target here where `main` would stop. The same limit applies to `str()`: a `--timeout` of 4298 to 4300 digits makes `str(timeout * 1000)` for the ping command raise `ValueError` and end the ping thread, while `Probes.PingInvocation` builds the command.
- Monitor.StartupLog: the targets in the second record are shown with every string in single quotes and unescaped. Python's `repr` switches quote style and escapes special characters, and the model does not.
