/**
 * One `dnsperf` probe: the part of `run_dnsperf` that starts the built command and turns
 * what the process did into the pair `(output, error_message)`.
 */
module Probe {
  import opened Wrappers
  import opened Text
  import opened Config
  import opened Command

  /**
   * What `subprocess.run` did: the process exited with a code and its captured streams,
   * the process-level timeout expired, or some other exception was raised (its text).
   */
  datatype ProcessOutcome =
    | Exited(returnCode: int, stdout: string, stderr: string)
    | TimedOut
    | Raised(exception: string)

  /** The pair `run_dnsperf` returns: dnsperf's standard output, or an error message. */
  datatype ProbeResult = ProbeResult(output: Option<string>, error: Option<string>)

  const ERROR_PREFIX: string := "dnsperf error (code "
  const TIMEOUT_PREFIX: string := "dnsperf command timed out for "
  const EXCEPTION_PREFIX: string := "Exception running dnsperf for "
  const NO_STDERR: string := "No stderr output"

  /** The stderr text of the error message: stripped, newlines turned into spaces. */
  function CleanStderr(stderr: string): string {
    if stderr == [] then NO_STDERR else ReplaceChar(Strip(stderr), '\n', ' ')
  }

  /**
   * The cleaned text has no newline; it is the placeholder for an empty stream, and
   * otherwise the stripped stream character for character, newlines read as spaces (empty
   * exactly when the stream is only whitespace).
   */
  lemma CleanStderrFacts(stderr: string)
    ensures '\n' !in CleanStderr(stderr)
    ensures stderr == [] ==> CleanStderr(stderr) == NO_STDERR
    ensures stderr != [] ==>
      var t := Strip(stderr);
      |CleanStderr(stderr)| == |t|
      && forall k :: 0 <= k < |t| ==> CleanStderr(stderr)[k] == (if t[k] == '\n' then ' ' else t[k])
    ensures CleanStderr(stderr) == [] <==> stderr != [] && AllSpace(stderr)
  {
    var c := CleanStderr(stderr);
    if stderr != [] {
      forall k | 0 <= k < |c| ensures c[k] != '\n' { }
    } else {
      assert c == NO_STDERR;
      assert c[0] != '\n' && c[1..] == "o stderr output";
      assert "o stderr output"[0] != '\n';
    }
  }

  function ExitErrorMessage(returnCode: int, stderr: string): string {
    ERROR_PREFIX + (IntToString(returnCode) + ("): " + CleanStderr(stderr)))
  }

  function TimeoutMessage(name: string, effectiveTimeout: int): string {
    TIMEOUT_PREFIX + (name + " (after " + IntToString(effectiveTimeout) + "s)")
  }

  function ExceptionMessage(name: string, exception: string): string {
    EXCEPTION_PREFIX + (name + ": " + exception)
  }

  /** The end of `run_dnsperf` (dns_speed_test.py:131-157): a zero exit gives the output, anything else an error message. */
  function Classify(name: string, effectiveTimeout: int, outcome: ProcessOutcome): (r: ProbeResult)
    ensures r.output.Some? <==> r.error.None?
    ensures r.output.Some? <==> outcome.Exited? && outcome.returnCode == 0
    ensures r.output.Some? ==> r.output.value == outcome.stdout
  {
    match outcome
    case Exited(code, stdout, stderr) =>
      if code != 0 then ProbeResult(None, Some(ExitErrorMessage(code, stderr)))
      else ProbeResult(Some(stdout), None)
    case TimedOut => ProbeResult(None, Some(TimeoutMessage(name, effectiveTimeout)))
    case Raised(e) => ProbeResult(None, Some(ExceptionMessage(name, e)))
  }

  /**
   * A whole probe: a descriptor that cannot be turned into a command stops the program
   * (the build error); otherwise the process runs once, bounded by the effective timeout
   * plus two seconds, and its outcome is classified.
   */
  function ProbeSpec(server: ServerInfo, path: string, run: (seq<string>, int) -> ProcessOutcome): Result<ProbeResult, BuildError> {
    match CommandFor(server, path)
    case Err(e) => Err(e)
    case Ok(inv) => Ok(Classify(server.name, inv.effectiveTimeout, run(inv.args, inv.ProcessTimeout())))
  }

  /** `run_dnsperf` (dns_speed_test.py:68-157): build the command, then start it through `run` and classify. */
  method RunDnsperf(server: ServerInfo, path: string, run: (seq<string>, int) -> ProcessOutcome)
    returns (r: Result<ProbeResult, BuildError>, launched: Option<Invocation>)
    ensures r == ProbeSpec(server, path, run)
    ensures launched == if CommandFor(server, path).Ok? then Some(CommandFor(server, path).value) else None
  {
    var built := BuildCommand(server, path);
    if built.Err? {
      return Err(built.error), None;
    }
    launched := Some(built.value);
    var cmd := built.value.args;
    var effectiveTimeout := built.value.effectiveTimeout;
    var outcome := run(cmd, effectiveTimeout + PROCESS_TIMEOUT_GRACE);
    match outcome
    case Exited(code, stdout, stderr) =>
      if code != 0 {
        var stderrCleaned := if stderr != [] then ReplaceChar(Strip(stderr), '\n', ' ') else NO_STDERR;
        r := Ok(ProbeResult(None, Some(ERROR_PREFIX + (IntToString(code) + ("): " + stderrCleaned)))));
      } else {
        r := Ok(ProbeResult(Some(stdout), None));
      }
    case TimedOut =>
      r := Ok(ProbeResult(None, Some(TIMEOUT_PREFIX + (server.name + " (after " + IntToString(effectiveTimeout) + "s)"))));
    case Raised(e) =>
      r := Ok(ProbeResult(None, Some(EXCEPTION_PREFIX + (server.name + ": " + e))));
  }

  /** The return code written into an exit error message, read back. */
  function ReportedCode(message: string): Option<int> {
    if StartsWith(message, ERROR_PREFIX) then ReadCode(message[|ERROR_PREFIX|..]) else None
  }

  /** The integer written before the first `)`. */
  function ReadCode(text: string): Option<int> {
    if ')' in text then ParseInt(text[..IndexOf(text, ')')]) else None
  }

  lemma PrefixOf(p: string, x: string)
    ensures StartsWith(p + x, p) && (p + x)[|p|..] == x
  {
    assert (p + x)[..|p|] == p;
  }

  /** A text that starts with `p` does not start with a `q` that differs from `p` at `i`. */
  lemma NotPrefix(s: string, p: string, q: string, i: nat)
    requires StartsWith(s, p) && i < |p| && i < |q| && p[i] != q[i]
    ensures !StartsWith(s, q)
  {
    assert s[..|p|][i] == s[i];
    if |q| <= |s| {
      assert s[..|q|][i] == s[i];
    }
  }

  lemma NoParenInIntToString(n: int)
    ensures ')' !in IntToString(n)
  {
    var s := if n < 0 then NatToString(-n) else NatToString(n);
    assert forall k :: 0 <= k < |s| ==> IsDigit(s[k]);
    if n < 0 {
      assert IntToString(n) == "-" + s;
      assert forall k :: 0 <= k < |IntToString(n)| ==> IntToString(n)[k] == '-' || IsDigit(IntToString(n)[k]);
    }
  }

  lemma ReadCodeOf(n: int, tail: string)
    requires |tail| > 0 && tail[0] == ')'
    ensures ReadCode(IntToString(n) + tail) == Some(n)
  {
    var code := IntToString(n);
    NoParenInIntToString(n);
    IndexOfAfter(code, tail, ')');
    assert IndexOf(tail, ')') == 0;
    assert (code + tail)[..|code|] == code;
    IntToStringRoundTrip(n);
  }

  /** An exit error message gives back the exact return code it reports. */
  lemma ReportedCodeOfExitError(returnCode: int, stderr: string)
    ensures ReportedCode(ExitErrorMessage(returnCode, stderr)) == Some(returnCode)
  {
    var code := IntToString(returnCode);
    var tail := "): " + CleanStderr(stderr);
    PrefixOf(ERROR_PREFIX, code + tail);
    ReadCodeOf(returnCode, tail);
  }

  lemma ErrorPrefixed(x: string)
    ensures var m := ERROR_PREFIX + x;
      StartsWith(m, ERROR_PREFIX) && !StartsWith(m, TIMEOUT_PREFIX) && !StartsWith(m, EXCEPTION_PREFIX)
  {
    PrefixOf(ERROR_PREFIX, x);
    NotPrefix(ERROR_PREFIX + x, ERROR_PREFIX, TIMEOUT_PREFIX, 8);
    NotPrefix(ERROR_PREFIX + x, ERROR_PREFIX, EXCEPTION_PREFIX, 0);
  }

  lemma TimeoutPrefixed(x: string)
    ensures var m := TIMEOUT_PREFIX + x;
      !StartsWith(m, ERROR_PREFIX) && StartsWith(m, TIMEOUT_PREFIX) && !StartsWith(m, EXCEPTION_PREFIX)
  {
    PrefixOf(TIMEOUT_PREFIX, x);
    NotPrefix(TIMEOUT_PREFIX + x, TIMEOUT_PREFIX, ERROR_PREFIX, 8);
    NotPrefix(TIMEOUT_PREFIX + x, TIMEOUT_PREFIX, EXCEPTION_PREFIX, 0);
  }

  lemma ExceptionPrefixed(x: string)
    ensures var m := EXCEPTION_PREFIX + x;
      !StartsWith(m, ERROR_PREFIX) && !StartsWith(m, TIMEOUT_PREFIX) && StartsWith(m, EXCEPTION_PREFIX)
  {
    PrefixOf(EXCEPTION_PREFIX, x);
    NotPrefix(EXCEPTION_PREFIX + x, EXCEPTION_PREFIX, ERROR_PREFIX, 0);
    NotPrefix(EXCEPTION_PREFIX + x, EXCEPTION_PREFIX, TIMEOUT_PREFIX, 0);
  }

  /** The three message kinds are told apart by their first words. */
  lemma MessageKinds(name: string, effectiveTimeout: int, outcome: ProcessOutcome)
    requires Classify(name, effectiveTimeout, outcome).error.Some?
    ensures var m := Classify(name, effectiveTimeout, outcome).error.value;
      (StartsWith(m, ERROR_PREFIX) <==> outcome.Exited?)
      && (StartsWith(m, TIMEOUT_PREFIX) <==> outcome.TimedOut?)
      && (StartsWith(m, EXCEPTION_PREFIX) <==> outcome.Raised?)
  {
    match outcome
    case Exited(code, _, stderr) => ErrorPrefixed(IntToString(code) + ("): " + CleanStderr(stderr)));
    case TimedOut => TimeoutPrefixed(name + " (after " + IntToString(effectiveTimeout) + "s)");
    case Raised(e) => ExceptionPrefixed(name + ": " + e);
  }

  lemma Affixes(p: string, x: string)
    ensures StartsWith(p + x, p) && EndsWith(p + x, x)
  {
    assert (p + x)[..|p|] == p;
    assert (p + x)[|p + x| - |x|..] == x;
  }

  /** A string ends with the last part of a concatenation of three. */
  lemma EndsWithLast(a: string, b: string, c: string)
    ensures EndsWith(a + (b + c), c)
  {
    Regroup3(a, b, c);
    Affixes(a + b, c);
  }

  lemma Regroup3(a: string, b: string, c: string)
    ensures a + (b + c) == (a + b) + c
  {
  }

  lemma ExitMessageEnds(code: int, stderr: string)
    ensures EndsWith(ExitErrorMessage(code, stderr), "): " + CleanStderr(stderr))
  {
    EndsWithLast(ERROR_PREFIX, IntToString(code), "): " + CleanStderr(stderr));
  }

  lemma ExitMessageContents(code: int, stderr: string)
    ensures ReportedCode(ExitErrorMessage(code, stderr)) == Some(code)
    ensures EndsWith(ExitErrorMessage(code, stderr), "): " + CleanStderr(stderr))
  {
    ReportedCodeOfExitError(code, stderr);
    ExitMessageEnds(code, stderr);
  }

  lemma TimeoutMessageContents(name: string, effectiveTimeout: int)
    ensures StartsWith(TimeoutMessage(name, effectiveTimeout), TIMEOUT_PREFIX + name)
    ensures EndsWith(TimeoutMessage(name, effectiveTimeout), " (after " + IntToString(effectiveTimeout) + "s)")
  {
    var t := IntToString(effectiveTimeout);
    Regroup(TIMEOUT_PREFIX, name, " (after ", t, "s)");
    Affixes(TIMEOUT_PREFIX + name, " (after " + t + "s)");
  }

  /** Moving a prefix's boundary inside a concatenation of five strings. */
  lemma Regroup(a: string, b: string, c: string, d: string, e: string)
    ensures a + (b + c + d + e) == (a + b) + (c + d + e)
  {
    assert b + c + d + e == b + (c + d + e);
  }

  lemma ExceptionMessageContents(name: string, e: string)
    ensures StartsWith(ExceptionMessage(name, e), EXCEPTION_PREFIX + name)
    ensures EndsWith(ExceptionMessage(name, e), ": " + e)
  {
    assert ExceptionMessage(name, e) == (EXCEPTION_PREFIX + name) + (": " + e);
    Affixes(EXCEPTION_PREFIX + name, ": " + e);
  }

  /**
   * What each error message carries: a non-zero exit its code, which reads back, followed
   * by the cleaned stderr at the end; a timeout the server's name and, at the end, the
   * effective timeout; an exception the server's name and, at the end, the exception's text.
   */
  lemma MessageContents(name: string, effectiveTimeout: int, outcome: ProcessOutcome)
    requires Classify(name, effectiveTimeout, outcome).error.Some?
    ensures var m := Classify(name, effectiveTimeout, outcome).error.value;
      && (outcome.Exited? ==> ReportedCode(m) == Some(outcome.returnCode) && EndsWith(m, "): " + CleanStderr(outcome.stderr)))
      && (outcome.TimedOut? ==> StartsWith(m, TIMEOUT_PREFIX + name) && EndsWith(m, " (after " + IntToString(effectiveTimeout) + "s)"))
      && (outcome.Raised? ==> StartsWith(m, EXCEPTION_PREFIX + name) && EndsWith(m, ": " + outcome.exception))
  {
    match outcome
    case Exited(code, _, stderr) => ExitMessageContents(code, stderr);
    case TimedOut => TimeoutMessageContents(name, effectiveTimeout);
    case Raised(e) => ExceptionMessageContents(name, e);
  }

  /** A probe of a buildable descriptor starts `dnsperf` exactly once, with the built command. */
  lemma ProbeRunsBuiltCommand(server: ServerInfo, path: string, run: (seq<string>, int) -> ProcessOutcome)
    ensures ProbeSpec(server, path, run).Err? <==> CommandFor(server, path).Err?
    ensures CommandFor(server, path).Ok? ==>
      var inv := CommandFor(server, path).value;
      ProbeSpec(server, path, run).value == Classify(server.name, inv.effectiveTimeout, run(inv.args, inv.effectiveTimeout + 2))
  {
  }
}
