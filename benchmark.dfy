/**
 * The measuring loop of `main`: for every valid server, for every domain, an uncached probe
 * and, when that one gives a latency, an immediate cached probe; then the per-server means.
 *
 * The specification is layered like the loop: what one domain's probes give (`DomainProbe`),
 * what one server's loop over the domains gathers from those (`DomainsUpTo`), and what the
 * loop over the servers makes of each server's outcome (`BenchmarkUpTo`).
 */
module Benchmark {
  import opened Wrappers
  import opened Config
  import opened Command
  import opened Probe
  import opened Latency

  datatype Phase = Uncached | Cached

  /** One start of `dnsperf`: for which server and domain (by position), in which phase, how. */
  datatype Launch = Launch(server: nat, domain: nat, phase: Phase, args: seq<string>, processTimeout: int)

  /**
   * What the program sees of the world. The configuration files are their raw lines, or
   * `None` when missing or unreadable. Writing the query file for a given server and domain
   * (by position) succeeds or fails; the `dnsperf` process for a given server, domain and
   * phase behaves as `dnsperf` says, given the command line and the timeout it is started with.
   */
  datatype Environment = Environment(
    dnsperfInstalled: bool,
    serversFile: Option<seq<string>>,
    domainsFile: Option<seq<string>>,
    writeQueryFile: (nat, nat, string) -> bool,
    dnsperf: (nat, nat, Phase, seq<string>, int) -> ProcessOutcome)

  /** The process launcher `run_dnsperf` uses for one server, domain and phase. */
  function Runner(env: Environment, si: nat, di: nat, phase: Phase): (seq<string>, int) -> ProcessOutcome {
    (args: seq<string>, timeout: int) => env.dnsperf(si, di, phase, args, timeout)
  }

  /** The query file for one domain: a single A query. */
  function QueryRecord(domain: string): string { domain + " A\n" }

  /** `(name, avg_uncached, avg_cached)` of `all_results_summary`. */
  datatype ServerSummary = ServerSummary(name: string, avgUncached: Option<real>, avgCached: Option<real>)

  /** The latencies one server has gathered, the processes it started, and a build error that stopped the program. */
  datatype ServerProgress = ServerProgress(uncached: seq<real>, cached: seq<real>, launches: seq<Launch>, crash: Option<BuildError>)

  /** All servers so far: their summaries, every process started, and the error that stopped the program. */
  datatype Run = Run(results: seq<ServerSummary>, launches: seq<Launch>, crash: Option<BuildError>)

  function Sum(xs: seq<real>): real {
    if xs == [] then 0.0 else xs[0] + Sum(xs[1..])
  }

  /** `sum(xs) / len(xs) if xs else None`. */
  function Mean(xs: seq<real>): Option<real> {
    if xs == [] then None else Some(Sum(xs) / |xs| as real)
  }

  function Launched(si: nat, di: nat, phase: Phase, inv: Invocation): Launch {
    Launch(si, di, phase, inv.args, inv.ProcessTimeout())
  }

  /**
   * What one domain's probes give: whether its query file was written, and the latency read
   * from the uncached and from the cached probe (the cached probe is started only when the
   * uncached one gives a latency).
   */
  datatype DomainProbe = DomainProbe(written: bool, first: Option<real>, second: Option<real>)

  /**
   * The probes of domain `di` for server `si`, named `name`, whose descriptor builds to
   * `built` (every `run_dnsperf` call builds the same command from the same descriptor), with
   * `read` turning a probe's output into a latency (`parse_dnsperf_output`, `ExtractLatency`).
   */
  function ProbeOf(env: Environment, si: nat, name: string, built: Result<Invocation, BuildError>, read: Option<string> -> Option<real>,
                   di: nat, domain: string): DomainProbe {
    DomainProbe(
      env.writeQueryFile(si, di, QueryRecord(domain)),
      if built.Err? then None
      else read(Classify(name, built.value.effectiveTimeout, env.dnsperf(si, di, Uncached, built.value.args, built.value.ProcessTimeout())).output),
      if built.Err? then None
      else read(Classify(name, built.value.effectiveTimeout, env.dnsperf(si, di, Cached, built.value.args, built.value.ProcessTimeout())).output))
  }

  /** The probes of each domain for one server. */
  function DomainProbes(env: Environment, si: nat, name: string, built: Result<Invocation, BuildError>, read: Option<string> -> Option<real>,
                        domains: seq<string>): (probes: seq<DomainProbe>)
    ensures |probes| == |domains|
    ensures forall d :: 0 <= d < |domains| ==> probes[d] == ProbeOf(env, si, name, built, read, d, domains[d])
  {
    seq(|domains|, d requires 0 <= d < |domains| => ProbeOf(env, si, name, built, read, d, domains[d]))
  }

  /** One domain of `main`'s domain loop (dns_speed_test.py:291-328): after a build error nothing more happens. */
  function DomainStep(si: nat, built: Result<Invocation, BuildError>, di: nat, probe: DomainProbe, p: ServerProgress): ServerProgress {
    if p.crash.Some? || !probe.written then p
    else
      match built
      case Err(e) => p.(crash := Some(e))
      case Ok(inv) => Probed(p, si, di, inv, probe.first, probe.second)
  }

  /**
   * `main`'s domain loop body (dns_speed_test.py:303-328) once the query file is written and the command built: the uncached probe
   * read `first`; only when that is a latency is the cached probe started, and its reading
   * `second` kept when it is one too.
   */
  function Probed(p: ServerProgress, si: nat, di: nat, inv: Invocation, first: Option<real>, second: Option<real>): ServerProgress {
    match first
    case None => p.(launches := p.launches + [Launched(si, di, Uncached, inv)])
    case Some(u) =>
      var launches := p.launches + [Launched(si, di, Uncached, inv), Launched(si, di, Cached, inv)];
      match second
      case None => p.(uncached := p.uncached + [u], launches := launches)
      case Some(c) => p.(uncached := p.uncached + [u], cached := p.cached + [c], launches := launches)
  }

  /** The first `n` domains for server `si`. */
  function DomainsUpTo(si: nat, built: Result<Invocation, BuildError>, probes: seq<DomainProbe>, n: nat): ServerProgress
    requires n <= |probes|
  {
    if n == 0 then ServerProgress([], [], [], None)
    else DomainStep(si, built, n - 1, probes[n - 1], DomainsUpTo(si, built, probes, n - 1))
  }

  /** The command each server's descriptor builds. */
  function BuiltCommands(servers: seq<ServerInfo>): (commands: seq<Result<Invocation, BuildError>>)
    ensures |commands| == |servers|
    ensures forall k :: 0 <= k < |servers| ==> commands[k] == CommandFor(servers[k], TEMP_QUERY_FILE)
  {
    seq(|servers|, k requires 0 <= k < |servers| => CommandFor(servers[k], TEMP_QUERY_FILE))
  }

  /** What each server's loop over all the domains gathers. */
  function ServerRuns(env: Environment, servers: seq<ServerInfo>, commands: seq<Result<Invocation, BuildError>>, read: Option<string> -> Option<real>,
                      domains: seq<string>): (runs: seq<ServerProgress>)
    requires |commands| == |servers|
    ensures |runs| == |servers|
    ensures forall k :: 0 <= k < |servers| ==>
      runs[k] == DomainsUpTo(k, commands[k], DomainProbes(env, k, servers[k].name, commands[k], read, domains), |domains|)
  {
    seq(|servers|, k requires 0 <= k < |servers| =>
      DomainsUpTo(k, commands[k], DomainProbes(env, k, servers[k].name, commands[k], read, domains), |domains|))
  }

  /** What server `si`'s loop over all the domains gathers, its command built from `server`. */
  function ServerRun(env: Environment, si: nat, server: ServerInfo, read: Option<string> -> Option<real>, domains: seq<string>): ServerProgress {
    var built := CommandFor(server, TEMP_QUERY_FILE);
    DomainsUpTo(si, built, DomainProbes(env, si, server.name, built, read, domains), |domains|)
  }

  /** `runs` holds what each server's loop over the domains gathers. */
  ghost predicate Measured(env: Environment, servers: seq<ServerInfo>, read: Option<string> -> Option<real>, domains: seq<string>,
                           runs: seq<ServerProgress>) {
    && |runs| == |servers|
    && forall si {:trigger ServerRun(env, si, servers[si], read, domains)} :: 0 <= si < |servers| ==>
         runs[si] == ServerRun(env, si, servers[si], read, domains)
  }

  lemma ServerRunsMeasured(env: Environment, servers: seq<ServerInfo>, read: Option<string> -> Option<real>, domains: seq<string>)
    ensures Measured(env, servers, read, domains, ServerRuns(env, servers, BuiltCommands(servers), read, domains))
  {
  }

  /** `main`'s means (dns_speed_test.py:336-345); a cached mean only when there are uncached latencies too. */
  function Summarize(name: string, uncached: seq<real>, cached: seq<real>): (s: ServerSummary)
    ensures s.name == name
    ensures s.avgUncached.Some? <==> uncached != []
    ensures s.avgCached.Some? <==> cached != [] && uncached != []
  {
    ServerSummary(name, Mean(uncached), if cached != [] && uncached != [] then Mean(cached) else None)
  }

  /** The end of one server in `main` (dns_speed_test.py:336-359): a server's loop ends in a build error, or its summary is appended. */
  function ServerStep(r: Run, name: string, p: ServerProgress): Run {
    if p.crash.Some? then Run(r.results, r.launches + p.launches, p.crash)
    else Run(r.results + [Summarize(name, p.uncached, p.cached)], r.launches + p.launches, None)
  }

  /** The first `n` servers, whose domain loops gather `runs`; after a build error nothing more happens. */
  function BenchmarkUpTo(servers: seq<ServerInfo>, runs: seq<ServerProgress>, n: nat): Run
    requires n <= |servers| == |runs|
  {
    if n == 0 then Run([], [], None)
    else
      var r := BenchmarkUpTo(servers, runs, n - 1);
      if r.crash.Some? then r else ServerStep(r, servers[n - 1].name, runs[n - 1])
  }

  /** `main`'s server loop (dns_speed_test.py:282-359) with `read` as the report parser. */
  function BenchmarkWith(env: Environment, servers: seq<ServerInfo>, read: Option<string> -> Option<real>, domains: seq<string>): Run {
    BenchmarkUpTo(servers, ServerRuns(env, servers, BuiltCommands(servers), read, domains), |servers|)
  }

  /** `main`'s server loop (dns_speed_test.py:282-359): every valid server in turn, every domain in turn. */
  function Benchmark(env: Environment, servers: seq<ServerInfo>, domains: seq<string>): Run {
    BenchmarkWith(env, servers, ExtractLatency, domains)
  }

  lemma {:induction false} DomainsCrashStays(si: nat, built: Result<Invocation, BuildError>, probes: seq<DomainProbe>, n: nat, m: nat)
    requires n <= m <= |probes| && DomainsUpTo(si, built, probes, n).crash.Some?
    ensures DomainsUpTo(si, built, probes, m) == DomainsUpTo(si, built, probes, n)
    decreases m - n
  {
    if n < m {
      DomainsCrashStays(si, built, probes, n, m - 1);
    }
  }

  lemma {:induction false} BenchmarkCrashStays(servers: seq<ServerInfo>, runs: seq<ServerProgress>, n: nat, m: nat)
    requires n <= m <= |servers| == |runs| && BenchmarkUpTo(servers, runs, n).crash.Some?
    ensures BenchmarkUpTo(servers, runs, m) == BenchmarkUpTo(servers, runs, n)
    decreases m - n
  {
    if n < m {
      BenchmarkCrashStays(servers, runs, n, m - 1);
    }
  }

  lemma BenchmarkStep(servers: seq<ServerInfo>, runs: seq<ServerProgress>, n: nat, r: Run)
    requires n < |servers| == |runs| && BenchmarkUpTo(servers, runs, n) == r && r.crash.None?
    ensures BenchmarkUpTo(servers, runs, n + 1) == ServerStep(r, servers[n].name, runs[n])
  {
  }

  /** The uncached latency domain `probe` contributes: its first reading, when it was probed and gave one. */
  function UncachedOf(built: Result<Invocation, BuildError>, probe: DomainProbe): seq<real> {
    if built.Ok? && probe.written && probe.first.Some? then [probe.first.value] else []
  }

  /** The cached latency domain `probe` contributes: its second reading, when the first gave one. */
  function CachedOf(built: Result<Invocation, BuildError>, probe: DomainProbe): seq<real> {
    if built.Ok? && probe.written && probe.first.Some? && probe.second.Some? then [probe.second.value] else []
  }

  /** The processes domain `di` starts: none unless probed, then an uncached one, and a cached one after a latency. */
  function LaunchesOf(si: nat, built: Result<Invocation, BuildError>, di: nat, probe: DomainProbe): seq<Launch> {
    if built.Err? || !probe.written then []
    else [Launched(si, di, Uncached, built.value)] + (if probe.first.Some? then [Launched(si, di, Cached, built.value)] else [])
  }

  /**
   * What one more domain adds to a server's progress: its readings and launches as above,
   * or, for a written query file and a descriptor that cannot be built, only the stop.
   */
  predicate Gathered(p: ServerProgress, q: ServerProgress, si: nat, built: Result<Invocation, BuildError>, di: nat, probe: DomainProbe) {
    && (q.crash.None? ==>
          && q.uncached == p.uncached + UncachedOf(built, probe)
          && q.cached == p.cached + CachedOf(built, probe)
          && q.launches == p.launches + LaunchesOf(si, built, di, probe))
    && (q.crash.Some? ==>
          && probe.written && built == Err(q.crash.value)
          && q.uncached == p.uncached && q.cached == p.cached && q.launches == p.launches)
  }

  /** One domain of `main`'s domain loop (dns_speed_test.py:291-328): the step gathers exactly that domain's readings and launches. */
  lemma DomainStepGathers(si: nat, built: Result<Invocation, BuildError>, di: nat, probe: DomainProbe, p: ServerProgress)
    requires p.crash.None?
    ensures Gathered(p, DomainStep(si, built, di, probe, p), si, built, di, probe)
  {
    if probe.written && built.Ok? {
      var inv := built.value;
      if probe.first.Some? {
        assert LaunchesOf(si, built, di, probe) == [Launched(si, di, Uncached, inv), Launched(si, di, Cached, inv)];
      }
    } else {
      assert p.uncached + [] == p.uncached && p.cached + [] == p.cached && p.launches + [] == p.launches;
    }
  }

  /**
   * One domain of `main`'s domain loop (dns_speed_test.py:291-328) for server `si`: write the query file, probe uncached and,
   * when that gives a latency, probe again cached. A build error is returned as the crash.
   */
  method MeasureDomain(env: Environment, si: nat, server: ServerInfo, di: nat, domain: string, read: Option<string> -> Option<real>,
                       p: ServerProgress) returns (q: ServerProgress)
    requires p.crash.None?
    ensures q == DomainStep(si, CommandFor(server, TEMP_QUERY_FILE), di,
                            ProbeOf(env, si, server.name, CommandFor(server, TEMP_QUERY_FILE), read, di, domain), p)
    ensures Gathered(p, q, si, CommandFor(server, TEMP_QUERY_FILE), di,
                     ProbeOf(env, si, server.name, CommandFor(server, TEMP_QUERY_FILE), read, di, domain))
  {
    DomainStepGathers(si, CommandFor(server, TEMP_QUERY_FILE), di,
                      ProbeOf(env, si, server.name, CommandFor(server, TEMP_QUERY_FILE), read, di, domain), p);
    q := p;
    if env.writeQueryFile(si, di, QueryRecord(domain)) {
      var first, launched := RunDnsperf(server, TEMP_QUERY_FILE, Runner(env, si, di, Uncached));
      if first.Err? {
        // The exception leaves `main`: no later domain or server is measured.
        return q.(crash := Some(first.error));
      }
      var inv := launched.value;
      var latUncached := read(first.value.output);
      if latUncached.Some? {
        var uncachedLatencies := q.uncached + [latUncached.value];
        var second, launchedAgain := RunDnsperf(server, TEMP_QUERY_FILE, Runner(env, si, di, Cached));
        // The same descriptor builds the same command again.
        assert second.Ok? && launchedAgain == launched;
        var serverLaunches := q.launches + [Launched(si, di, Uncached, inv), Launched(si, di, Cached, inv)];
        var latCached := read(second.value.output);
        var cachedLatencies := if latCached.Some? then q.cached + [latCached.value] else q.cached;
        q := ServerProgress(uncachedLatencies, cachedLatencies, serverLaunches, None);
      } else {
        q := q.(launches := q.launches + [Launched(si, di, Uncached, inv)]);
      }
    }
  }

  /** `main`'s domain loop (dns_speed_test.py:291-328) for server `si`: every domain in turn, until a build error. */
  method MeasureServer(env: Environment, servers: seq<ServerInfo>, ghost runs: seq<ServerProgress>, si: nat, domains: seq<string>,
                       read: Option<string> -> Option<real>) returns (p: ServerProgress)
    requires si < |servers| && Measured(env, servers, read, domains, runs)
    ensures p == runs[si]
  {
    var server := servers[si];
    ghost var built := CommandFor(server, TEMP_QUERY_FILE);
    ghost var probes := DomainProbes(env, si, server.name, built, read, domains);
    assert runs[si] == ServerRun(env, si, server, read, domains) == DomainsUpTo(si, built, probes, |domains|);
    p := ServerProgress([], [], [], None);
    var di := 0;
    while di < |domains|
      invariant di <= |domains|
      invariant DomainsUpTo(si, built, probes, di) == p && p.crash.None?
    {
      assert probes[di] == ProbeOf(env, si, server.name, built, read, di, domains[di]);
      p := MeasureDomain(env, si, server, di, domains[di], read, p);
      if p.crash.Some? {
        DomainsCrashStays(si, built, probes, di + 1, |domains|);
        return;
      }
      di := di + 1;
    }
  }

  /** The end of one server in `main` (dns_speed_test.py:336-359) for server `si`: its build error stops the program, or its summary is appended. */
  method RecordServer(servers: seq<ServerInfo>, ghost runs: seq<ServerProgress>, si: nat,
                      results: seq<ServerSummary>, launches: seq<Launch>, progress: ServerProgress) returns (run: Run)
    requires si < |servers| == |runs| && runs[si] == progress
    requires BenchmarkUpTo(servers, runs, si) == Run(results, launches, None)
    ensures run == BenchmarkUpTo(servers, runs, si + 1)
  {
    BenchmarkStep(servers, runs, si, Run(results, launches, None));
    if progress.crash.Some? {
      return Run(results, launches + progress.launches, progress.crash);
    }
    var uncachedLatencies, cachedLatencies := progress.uncached, progress.cached;
    var avgUncached := Mean(uncachedLatencies);
    var avgCached := if cachedLatencies != [] && uncachedLatencies != [] then Mean(cachedLatencies) else None;
    run := Run(results + [ServerSummary(servers[si].name, avgUncached, avgCached)], launches + progress.launches, None);
  }

  /** `main`'s server loop (dns_speed_test.py:282-359): every server in turn, whose loops over the domains gather `runs`. */
  method MeasureServers(env: Environment, servers: seq<ServerInfo>, ghost runs: seq<ServerProgress>, domains: seq<string>,
                        read: Option<string> -> Option<real>) returns (run: Run)
    requires Measured(env, servers, read, domains, runs)
    ensures run == BenchmarkUpTo(servers, runs, |servers|)
  {
    var results: seq<ServerSummary> := [];
    var launches: seq<Launch> := [];
    var si := 0;
    while si < |servers|
      invariant si <= |servers|
      invariant BenchmarkUpTo(servers, runs, si) == Run(results, launches, None)
    {
      var progress := MeasureServer(env, servers, runs, si, domains, read);
      var next := RecordServer(servers, runs, si, results, launches, progress);
      if next.crash.Some? {
        BenchmarkCrashStays(servers, runs, si + 1, |servers|);
        return next;
      }
      results, launches := next.results, next.launches;
      si := si + 1;
    }
    run := Run(results, launches, None);
  }

  /** `main`'s server loop (dns_speed_test.py:282-359): every server in turn, every domain in turn, reading each probe's output with `read`. */
  method RunBenchmark(env: Environment, servers: seq<ServerInfo>, domains: seq<string>, read: Option<string> -> Option<real>) returns (run: Run)
    ensures run == BenchmarkWith(env, servers, read, domains)
  {
    ghost var runs := ServerRuns(env, servers, BuiltCommands(servers), read, domains);
    ServerRunsMeasured(env, servers, read, domains);
    run := MeasureServers(env, servers, runs, domains, read);
  }

  /** Every cached probe comes right after the uncached probe of the same server and domain. */
  predicate PairedLaunches(ls: seq<Launch>) {
    forall t :: 0 <= t < |ls| && ls[t].phase == Cached ==>
      t > 0 && ls[t - 1].phase == Uncached && ls[t - 1].server == ls[t].server && ls[t - 1].domain == ls[t].domain
  }

  lemma PairedAppend(a: seq<Launch>, b: seq<Launch>)
    requires PairedLaunches(a) && PairedLaunches(b)
    ensures PairedLaunches(a + b)
  {
    forall t | 0 <= t < |a + b| && (a + b)[t].phase == Cached
      ensures t > 0 && (a + b)[t - 1].phase == Uncached && (a + b)[t - 1].server == (a + b)[t].server && (a + b)[t - 1].domain == (a + b)[t].domain
    {
      if t < |a| {
        assert (a + b)[t] == a[t] && (a + b)[t - 1] == a[t - 1];
      } else {
        assert (a + b)[t] == b[t - |a|];
        assert t - |a| > 0;
        assert (a + b)[t - 1] == b[t - |a| - 1];
      }
    }
  }

  /** A process started for server `si` and one of its first `n` domains, with the command `built`. */
  predicate LaunchFor(l: Launch, si: nat, built: Result<Invocation, BuildError>, n: nat) {
    && l.server == si && l.domain < n
    && built.Ok?
    && l.args == built.value.args
    && l.processTimeout == built.value.ProcessTimeout()
  }

  predicate AllPositive(xs: seq<real>) { forall k :: 0 <= k < |xs| ==> xs[k] > 0.0 }

  /** A report reader that only ever reads positive latencies. */
  ghost predicate PositiveReader(read: Option<string> -> Option<real>) {
    forall o :: read(o).Some? ==> read(o).value > 0.0
  }

  lemma ExtractLatencyPositive()
    ensures PositiveReader(ExtractLatency)
  {
    forall o ensures ExtractLatency(o).Some? ==> ExtractLatency(o).value > 0.0 {
      LatencyPositive(o);
    }
  }

  predicate PositiveProbe(probe: DomainProbe) {
    (probe.first.Some? ==> probe.first.value > 0.0) && (probe.second.Some? ==> probe.second.value > 0.0)
  }

  predicate PositiveProbes(probes: seq<DomainProbe>) {
    forall d :: 0 <= d < |probes| ==> PositiveProbe(probes[d])
  }

  lemma DomainProbesPositive(env: Environment, si: nat, name: string, built: Result<Invocation, BuildError>, read: Option<string> -> Option<real>,
                             domains: seq<string>)
    requires PositiveReader(read)
    ensures PositiveProbes(DomainProbes(env, si, name, built, read, domains))
  {
  }

  /**
   * What one server's loop has gathered after `n` domains: at most one uncached latency per
   * domain and at most one cached latency per uncached one, all positive; launches in
   * uncached/cached pairs, all for this server and its first `n` domains with its command;
   * no latency at all when the descriptor cannot be built; and a stop only for such a
   * descriptor, with its build error.
   */
  predicate ProgressSound(p: ServerProgress, si: nat, built: Result<Invocation, BuildError>, n: nat) {
    && |p.cached| <= |p.uncached| <= n
    && AllPositive(p.uncached) && AllPositive(p.cached)
    && PairedLaunches(p.launches)
    && (forall t :: 0 <= t < |p.launches| ==> LaunchFor(p.launches[t], si, built, n))
    && (built.Err? ==> p.uncached == [])
    && (p.crash.Some? ==> built == Err(p.crash.value))
  }

  lemma LaunchesGrow(q: seq<Launch>, extra: seq<Launch>, si: nat, built: Result<Invocation, BuildError>, di: nat)
    requires PairedLaunches(q) && forall t :: 0 <= t < |q| ==> LaunchFor(q[t], si, built, di)
    requires PairedLaunches(extra) && forall t :: 0 <= t < |extra| ==> LaunchFor(extra[t], si, built, di + 1)
    ensures PairedLaunches(q + extra) && forall t :: 0 <= t < |q + extra| ==> LaunchFor((q + extra)[t], si, built, di + 1)
  {
    PairedAppend(q, extra);
    forall t | 0 <= t < |q + extra| ensures LaunchFor((q + extra)[t], si, built, di + 1) {
      if t < |q| {
        assert (q + extra)[t] == q[t];
      } else {
        assert (q + extra)[t] == extra[t - |q|];
      }
    }
  }

  lemma ProbedSound(q: ServerProgress, si: nat, di: nat, built: Result<Invocation, BuildError>, first: Option<real>, second: Option<real>)
    requires built.Ok? && q.crash.None? && ProgressSound(q, si, built, di)
    requires (first.Some? ==> first.value > 0.0) && (second.Some? ==> second.value > 0.0)
    ensures ProgressSound(Probed(q, si, di, built.value, first, second), si, built, di + 1)
  {
    var inv := built.value;
    var l1, l2 := Launched(si, di, Uncached, inv), Launched(si, di, Cached, inv);
    if first.None? {
      LaunchesGrow(q.launches, [l1], si, built, di);
    } else {
      LaunchesGrow(q.launches, [l1, l2], si, built, di);
    }
  }

  /** Measuring one more domain keeps the progress sound. */
  lemma StepSound(si: nat, built: Result<Invocation, BuildError>, di: nat, probe: DomainProbe, q: ServerProgress)
    requires PositiveProbe(probe) && ProgressSound(q, si, built, di)
    ensures ProgressSound(DomainStep(si, built, di, probe, q), si, built, di + 1)
  {
    if q.crash.Some? || !probe.written || built.Err? {
      LaunchesGrow(q.launches, [], si, built, di);
      assert q.launches + [] == q.launches;
    } else {
      ProbedSound(q, si, di, built, probe.first, probe.second);
    }
  }

  /** Every prefix of one server's loop is sound. */
  lemma {:induction false} DomainsFacts(si: nat, built: Result<Invocation, BuildError>, probes: seq<DomainProbe>, n: nat)
    requires n <= |probes| && PositiveProbes(probes)
    ensures ProgressSound(DomainsUpTo(si, built, probes, n), si, built, n)
  {
    if n > 0 {
      DomainsFacts(si, built, probes, n - 1);
      DomainStepSound(si, built, probes, n);
    }
  }

  lemma DomainStepSound(si: nat, built: Result<Invocation, BuildError>, probes: seq<DomainProbe>, n: nat)
    requires 0 < n <= |probes| && PositiveProbe(probes[n - 1])
    requires ProgressSound(DomainsUpTo(si, built, probes, n - 1), si, built, n - 1)
    ensures ProgressSound(DomainsUpTo(si, built, probes, n), si, built, n)
  {
    StepSound(si, built, n - 1, probes[n - 1], DomainsUpTo(si, built, probes, n - 1));
  }

  /**
   * A server's loop stops exactly when its descriptor cannot be built and one of the
   * domains' query files was written: only then is `run_dnsperf` called.
   */
  lemma {:induction false} DomainsCrash(si: nat, built: Result<Invocation, BuildError>, probes: seq<DomainProbe>, n: nat)
    requires n <= |probes|
    ensures DomainsUpTo(si, built, probes, n).crash.None? <==> built.Ok? || forall d :: 0 <= d < n ==> !probes[d].written
  {
    if n > 0 {
      DomainsCrash(si, built, probes, n - 1);
      if built.Err? && DomainsUpTo(si, built, probes, n).crash.None? {
        forall d | 0 <= d < n ensures !probes[d].written {
          if d == n - 1 {
            assert DomainsUpTo(si, built, probes, n - 1).crash.None?;
          }
        }
      }
    }
  }

  /** The uncached latencies of the first `n` domains, in domain order. */
  function UncachedReadings(built: Result<Invocation, BuildError>, probes: seq<DomainProbe>, n: nat): seq<real>
    requires n <= |probes|
  {
    if n == 0 then [] else UncachedReadings(built, probes, n - 1) + UncachedOf(built, probes[n - 1])
  }

  /** The cached latencies of the first `n` domains, in domain order. */
  function CachedReadings(built: Result<Invocation, BuildError>, probes: seq<DomainProbe>, n: nat): seq<real>
    requires n <= |probes|
  {
    if n == 0 then [] else CachedReadings(built, probes, n - 1) + CachedOf(built, probes[n - 1])
  }

  /** The processes the first `n` domains start, in order. */
  function ProbeLaunches(si: nat, built: Result<Invocation, BuildError>, probes: seq<DomainProbe>, n: nat): seq<Launch>
    requires n <= |probes|
  {
    if n == 0 then [] else ProbeLaunches(si, built, probes, n - 1) + LaunchesOf(si, built, n - 1, probes[n - 1])
  }

  /**
   * One server's loop gathers, in domain order, the first reading of every domain it
   * probed that gave one, the second reading of those whose second probe gave one too,
   * and the processes those probes started; a stop adds nothing.
   */
  lemma {:induction false} DomainsGather(si: nat, built: Result<Invocation, BuildError>, probes: seq<DomainProbe>, n: nat)
    requires n <= |probes|
    ensures var p := DomainsUpTo(si, built, probes, n);
      && p.uncached == UncachedReadings(built, probes, n)
      && p.cached == CachedReadings(built, probes, n)
      && p.launches == ProbeLaunches(si, built, probes, n)
  {
    if n > 0 {
      DomainsGather(si, built, probes, n - 1);
      var p0 := DomainsUpTo(si, built, probes, n - 1);
      if built.Err? {
        NothingGathered(si, built, probes, n);
      } else {
        DomainsCrash(si, built, probes, n - 1);
        DomainStepGathers(si, built, n - 1, probes[n - 1], p0);
      }
    }
  }

  /** A descriptor that cannot be built gathers nothing from one more domain. */
  lemma NothingGathered(si: nat, built: Result<Invocation, BuildError>, probes: seq<DomainProbe>, n: nat)
    requires 0 < n <= |probes| && built.Err?
    ensures UncachedReadings(built, probes, n) == UncachedReadings(built, probes, n - 1)
    ensures CachedReadings(built, probes, n) == CachedReadings(built, probes, n - 1)
    ensures ProbeLaunches(si, built, probes, n) == ProbeLaunches(si, built, probes, n - 1)
  {
    assert UncachedReadings(built, probes, n) == UncachedReadings(built, probes, n - 1) + [];
    assert CachedReadings(built, probes, n) == CachedReadings(built, probes, n - 1) + [];
    assert ProbeLaunches(si, built, probes, n) == ProbeLaunches(si, built, probes, n - 1) + [];
  }

  /** No more cached latencies than uncached ones. */
  lemma {:induction false} CachedFewer(built: Result<Invocation, BuildError>, probes: seq<DomainProbe>, n: nat)
    requires n <= |probes|
    ensures |CachedReadings(built, probes, n)| <= |UncachedReadings(built, probes, n)|
  {
    if n > 0 {
      CachedFewer(built, probes, n - 1);
    }
  }

  /** A process started for a domain whose query file was written; a cached one only after its uncached probe gave a latency. */
  predicate Sampled(l: Launch, probes: seq<DomainProbe>) {
    l.domain < |probes| && probes[l.domain].written && (l.phase == Cached ==> probes[l.domain].first.Some?)
  }

  /** Each process in `ls` is for server `si` and one of the first `n` domains, and was sampled. */
  predicate LaunchesSampled(ls: seq<Launch>, si: nat, probes: seq<DomainProbe>, n: nat) {
    forall t :: 0 <= t < |ls| ==> ls[t].server == si && ls[t].domain < n && Sampled(ls[t], probes)
  }

  /** Every process the first `n` domains start is for server `si` and one of them, and was sampled. */
  lemma {:induction false} ProbeLaunchesSampled(si: nat, built: Result<Invocation, BuildError>, probes: seq<DomainProbe>, n: nat)
    requires n <= |probes|
    ensures LaunchesSampled(ProbeLaunches(si, built, probes, n), si, probes, n)
  {
    if n > 0 {
      ProbeLaunchesSampled(si, built, probes, n - 1);
      var a: seq<Launch>, b: seq<Launch> := ProbeLaunches(si, built, probes, n - 1), LaunchesOf(si, built, n - 1, probes[n - 1]);
      assert LaunchesSampled(a, si, probes, n - 1);
      forall t | 0 <= t < |a + b|
        ensures (a + b)[t].server == si && (a + b)[t].domain < n && Sampled((a + b)[t], probes)
      {
        if t < |a| {
          assert (a + b)[t] == a[t];
        } else {
          assert (a + b)[t] == b[t - |a|];
          LaunchesOfSampled(si, built, n - 1, probes, t - |a|);
        }
      }
    }
  }

  lemma LaunchesOfSampled(si: nat, built: Result<Invocation, BuildError>, di: nat, probes: seq<DomainProbe>, t: nat)
    requires di < |probes| && t < |LaunchesOf(si, built, di, probes[di])|
    ensures var l := LaunchesOf(si, built, di, probes[di])[t];
      l.server == si && l.domain == di && Sampled(l, probes)
  {
  }

  /** No query file of server `si` could be written, so it never probed. */
  predicate NoQueryFileWritten(env: Environment, si: nat, domains: seq<string>) {
    forall d :: 0 <= d < |domains| ==> !env.writeQueryFile(si, d, QueryRecord(domains[d]))
  }

  /** `main`'s query-file write and `run_dnsperf`'s DoH port read (dns_speed_test.py:296-303 and 85-88): a server's loop stops exactly when its descriptor cannot be built and it wrote a query file. */
  lemma ServerRunsCrash(env: Environment, servers: seq<ServerInfo>, commands: seq<Result<Invocation, BuildError>>, read: Option<string> -> Option<real>,
                        domains: seq<string>)
    requires |commands| == |servers|
    ensures var runs := ServerRuns(env, servers, commands, read, domains);
      forall k :: 0 <= k < |servers| ==> (runs[k].crash.None? <==> commands[k].Ok? || NoQueryFileWritten(env, k, domains))
  {
    var runs := ServerRuns(env, servers, commands, read, domains);
    forall k | 0 <= k < |servers|
      ensures runs[k].crash.None? <==> commands[k].Ok? || NoQueryFileWritten(env, k, domains)
    {
      var probes := DomainProbes(env, k, servers[k].name, commands[k], read, domains);
      DomainsCrash(k, commands[k], probes, |domains|);
      assert forall d :: 0 <= d < |domains| ==> probes[d].written == env.writeQueryFile(k, d, QueryRecord(domains[d]));
    }
  }

  /** Each server's loop is sound. */
  predicate RunsSound(runs: seq<ServerProgress>, commands: seq<Result<Invocation, BuildError>>, domainCount: nat)
    requires |runs| == |commands|
  {
    forall k :: 0 <= k < |runs| ==> ProgressSound(runs[k], k, commands[k], domainCount)
  }

  lemma ServerRunsSound(env: Environment, servers: seq<ServerInfo>, commands: seq<Result<Invocation, BuildError>>, read: Option<string> -> Option<real>,
                        domains: seq<string>)
    requires |commands| == |servers| && PositiveReader(read)
    ensures RunsSound(ServerRuns(env, servers, commands, read, domains), commands, |domains|)
  {
    var runs := ServerRuns(env, servers, commands, read, domains);
    forall k | 0 <= k < |runs|
      ensures ProgressSound(runs[k], k, commands[k], |domains|)
    {
      var probes := DomainProbes(env, k, servers[k].name, commands[k], read, domains);
      DomainProbesPositive(env, k, servers[k].name, commands[k], read, domains);
      DomainsFacts(k, commands[k], probes, |domains|);
    }
  }

  /** A mean of positive latencies is positive. */
  lemma {:induction false} SumPositive(xs: seq<real>)
    requires AllPositive(xs)
    ensures xs != [] ==> Sum(xs) > 0.0
    ensures Sum(xs) >= 0.0
  {
    if xs != [] {
      SumPositive(xs[1..]);
    }
  }

  lemma MeanPositive(xs: seq<real>)
    requires AllPositive(xs)
    ensures Mean(xs).Some? <==> xs != []
    ensures Mean(xs).Some? ==> Mean(xs).value > 0.0
  {
    SumPositive(xs);
  }

  /** A summary of one server: averages positive where present, no cached average without an uncached one. */
  predicate SoundSummary(s: ServerSummary) {
    && (s.avgUncached.Some? ==> s.avgUncached.value > 0.0)
    && (s.avgCached.Some? ==> s.avgCached.value > 0.0)
    && (s.avgUncached.None? ==> s.avgCached.None?)
  }

  /**
   * What the loop over the first `n` servers has produced: one summary per finished server,
   * in order and under its name, each sound, and without averages for a server whose
   * descriptor cannot be built.
   */
  predicate RunSound(r: Run, servers: seq<ServerInfo>, commands: seq<Result<Invocation, BuildError>>, n: nat)
    requires n <= |servers| == |commands|
  {
    |r.results| <= n && ResultsSound(r.results, servers, commands)
  }

  /** Each summary is sound and under its server's name, without averages for a descriptor that cannot be built. */
  predicate ResultsSound(results: seq<ServerSummary>, servers: seq<ServerInfo>, commands: seq<Result<Invocation, BuildError>>)
    requires |results| <= |servers| == |commands|
  {
    forall k :: 0 <= k < |results| ==>
      && results[k].name == servers[k].name && SoundSummary(results[k])
      && (commands[k].Err? ==> results[k].avgUncached.None?)
  }

  /** Launches of the first `n` servers: paired, each for one of them with its command. */
  predicate RunLaunchesSound(r: Run, commands: seq<Result<Invocation, BuildError>>, domainCount: nat, n: nat)
    requires n <= |commands|
  {
    && PairedLaunches(r.launches)
    && forall t :: 0 <= t < |r.launches| ==>
         r.launches[t].server < n && LaunchFor(r.launches[t], r.launches[t].server, commands[r.launches[t].server], domainCount)
  }

  /** Finishing one more server keeps the run sound. */
  lemma ServerStepSound(r: Run, servers: seq<ServerInfo>, commands: seq<Result<Invocation, BuildError>>, n: nat, p: ServerProgress)
    requires n < |servers| == |commands| && RunSound(r, servers, commands, n) && |r.results| == n
    requires AllPositive(p.uncached) && AllPositive(p.cached) && (commands[n].Err? ==> p.uncached == [])
    ensures RunSound(ServerStep(r, servers[n].name, p), servers, commands, n + 1)
  {
    if p.crash.None? {
      MeanPositive(p.uncached);
      MeanPositive(p.cached);
      var s := Summarize(servers[n].name, p.uncached, p.cached);
      assert SoundSummary(s);
      var r' := ServerStep(r, servers[n].name, p);
      assert forall k :: 0 <= k < |r'.results| ==> r'.results[k] == if k < |r.results| then r.results[k] else s;
    }
  }

  lemma ServerStepLaunches(r: Run, commands: seq<Result<Invocation, BuildError>>, domainCount: nat, n: nat, name: string, p: ServerProgress)
    requires n < |commands| && RunLaunchesSound(r, commands, domainCount, n)
    requires ProgressSound(p, n, commands[n], domainCount)
    ensures RunLaunchesSound(ServerStep(r, name, p), commands, domainCount, n + 1)
  {
    PairedAppend(r.launches, p.launches);
    var ls := r.launches + p.launches;
    forall t | 0 <= t < |ls|
      ensures ls[t].server < n + 1 && LaunchFor(ls[t], ls[t].server, commands[ls[t].server], domainCount)
    {
      if t < |r.launches| {
        assert ls[t] == r.launches[t];
      } else {
        assert ls[t] == p.launches[t - |r.launches|];
      }
    }
  }

  /**
   * The loop over the first `n` servers stops exactly when one of their loops stops: at the
   * first such server, right after the finished ones; otherwise every server is finished.
   */
  lemma {:induction false} BenchmarkCrashAt(servers: seq<ServerInfo>, runs: seq<ServerProgress>, n: nat)
    requires n <= |servers| == |runs|
    ensures var r := BenchmarkUpTo(servers, runs, n);
      && (r.crash.None? <==> forall k :: 0 <= k < n ==> runs[k].crash.None?)
      && (r.crash.None? ==> |r.results| == n)
      && (r.crash.Some? ==> |r.results| < n && runs[|r.results|].crash == r.crash
                            && forall k :: 0 <= k < |r.results| ==> runs[k].crash.None?)
  {
    if n > 0 {
      BenchmarkCrashAt(servers, runs, n - 1);
    }
  }

  /** Without a stop, the loop over the first `n` servers has one summary for each. */
  lemma {:induction false} BenchmarkCount(servers: seq<ServerInfo>, runs: seq<ServerProgress>, n: nat)
    requires n <= |servers| == |runs|
    ensures BenchmarkUpTo(servers, runs, n).crash.None? ==> |BenchmarkUpTo(servers, runs, n).results| == n
  {
    if n > 0 {
      BenchmarkCount(servers, runs, n - 1);
    }
  }

  /** Every server loop's latencies are positive, and there are none for a descriptor that cannot be built. */
  predicate RunsPositive(runs: seq<ServerProgress>, commands: seq<Result<Invocation, BuildError>>)
    requires |runs| == |commands|
  {
    forall k :: 0 <= k < |runs| ==>
      AllPositive(runs[k].uncached) && AllPositive(runs[k].cached) && (commands[k].Err? ==> runs[k].uncached == [])
  }

  lemma SoundRunsPositive(runs: seq<ServerProgress>, commands: seq<Result<Invocation, BuildError>>, domainCount: nat)
    requires |runs| == |commands| && RunsSound(runs, commands, domainCount)
    ensures RunsPositive(runs, commands)
  {
    forall k | 0 <= k < |runs|
      ensures AllPositive(runs[k].uncached) && AllPositive(runs[k].cached) && (commands[k].Err? ==> runs[k].uncached == [])
    {
      assert ProgressSound(runs[k], k, commands[k], domainCount);
    }
  }

  /** Every prefix of the loop over the servers is sound. */
  lemma {:induction false} BenchmarkResults(servers: seq<ServerInfo>, runs: seq<ServerProgress>, commands: seq<Result<Invocation, BuildError>>, n: nat)
    requires n <= |servers| == |runs| == |commands| && RunsPositive(runs, commands)
    ensures RunSound(BenchmarkUpTo(servers, runs, n), servers, commands, n)
  {
    if n > 0 {
      BenchmarkResults(servers, runs, commands, n - 1);
      var r0 := BenchmarkUpTo(servers, runs, n - 1);
      BenchmarkCount(servers, runs, n - 1);
      if r0.crash.None? {
        ServerStepSound(r0, servers, commands, n - 1, runs[n - 1]);
      }
    }
  }

  /** Every process the first `n` servers started belongs to one of them, uses its command, and comes in pairs. */
  lemma {:induction false} BenchmarkLaunches(servers: seq<ServerInfo>, runs: seq<ServerProgress>, commands: seq<Result<Invocation, BuildError>>, domainCount: nat, n: nat)
    requires n <= |servers| == |runs| == |commands| && RunsSound(runs, commands, domainCount)
    ensures RunLaunchesSound(BenchmarkUpTo(servers, runs, n), commands, domainCount, n)
  {
    if n > 0 {
      BenchmarkLaunches(servers, runs, commands, domainCount, n - 1);
      var r0 := BenchmarkUpTo(servers, runs, n - 1);
      if r0.crash.None? {
        ServerStepLaunches(r0, commands, domainCount, n - 1, servers[n - 1].name, runs[n - 1]);
      } else {
        assert RunLaunchesSound(r0, commands, domainCount, n);
      }
    }
  }

  /**
   * The whole measurement: it stops exactly when some server's descriptor cannot be built
   * although one of its query files was written, and then at the first such server; the
   * servers before it are all summarized, in order, under their names, with sound averages
   * and none for a descriptor that cannot be built; without a stop every server is.
   */
  lemma BenchmarkOutcome(env: Environment, servers: seq<ServerInfo>, domains: seq<string>)
    ensures var r := Benchmark(env, servers, domains);
      && (r.crash.None? <==>
            forall k :: 0 <= k < |servers| ==> CommandFor(servers[k], TEMP_QUERY_FILE).Ok? || NoQueryFileWritten(env, k, domains))
      && (r.crash.None? ==> |r.results| == |servers|)
      && (r.crash.Some? ==>
            && |r.results| < |servers|
            && CommandFor(servers[|r.results|], TEMP_QUERY_FILE) == Err(r.crash.value)
            && !NoQueryFileWritten(env, |r.results|, domains))
      && (forall k :: 0 <= k < |r.results| ==>
            && (CommandFor(servers[k], TEMP_QUERY_FILE).Ok? || NoQueryFileWritten(env, k, domains))
            && r.results[k].name == servers[k].name && SoundSummary(r.results[k])
            && (CommandFor(servers[k], TEMP_QUERY_FILE).Err? ==> r.results[k].avgUncached.None?))
  {
    var commands := BuiltCommands(servers);
    var runs := ServerRuns(env, servers, commands, ExtractLatency, domains);
    ExtractLatencyPositive();
    ServerRunsSound(env, servers, commands, ExtractLatency, domains);
    ServerRunsCrash(env, servers, commands, ExtractLatency, domains);
    BenchmarkCrashAt(servers, runs, |servers|);
    SoundRunsPositive(runs, commands, |domains|);
    BenchmarkResults(servers, runs, commands, |servers|);
  }

  /**
   * Every process the measurement starts is for a valid server and one of the domains, runs
   * that server's command, is bounded by its effective timeout plus two seconds, and a
   * cached probe always follows the uncached probe of the same server and domain.
   */
  lemma BenchmarkLaunchesBuilt(env: Environment, servers: seq<ServerInfo>, domains: seq<string>)
    ensures var r := Benchmark(env, servers, domains);
      && PairedLaunches(r.launches)
      && forall t :: 0 <= t < |r.launches| ==>
           var l := r.launches[t];
           && l.server < |servers| && l.domain < |domains|
           && CommandFor(servers[l.server], TEMP_QUERY_FILE).Ok?
           && l.args == CommandFor(servers[l.server], TEMP_QUERY_FILE).value.args
           && l.processTimeout == EffectiveTimeout(servers[l.server].transport) + 2
  {
    var commands := BuiltCommands(servers);
    var runs := ServerRuns(env, servers, commands, ExtractLatency, domains);
    ExtractLatencyPositive();
    ServerRunsSound(env, servers, commands, ExtractLatency, domains);
    BenchmarkLaunches(servers, runs, commands, |domains|, |servers|);
    var r := Benchmark(env, servers, domains);
    forall t | 0 <= t < |r.launches|
      ensures var l := r.launches[t];
           && l.server < |servers| && l.domain < |domains|
           && CommandFor(servers[l.server], TEMP_QUERY_FILE).Ok?
           && l.args == CommandFor(servers[l.server], TEMP_QUERY_FILE).value.args
           && l.processTimeout == EffectiveTimeout(servers[l.server].transport) + 2
    {
      var l := r.launches[t];
      assert LaunchFor(l, l.server, commands[l.server], |domains|);
      CommandShape(servers[l.server], TEMP_QUERY_FILE);
    }
  }

  /** Each summary of the loop over the first `n` servers holds the means of that server's loop. */
  lemma {:induction false} BenchmarkSummaries(servers: seq<ServerInfo>, runs: seq<ServerProgress>, n: nat)
    requires n <= |servers| == |runs|
    ensures var r := BenchmarkUpTo(servers, runs, n);
      && |r.results| <= n
      && forall k :: 0 <= k < |r.results| ==> r.results[k] == Summarize(servers[k].name, runs[k].uncached, runs[k].cached)
  {
    if n > 0 {
      BenchmarkSummaries(servers, runs, n - 1);
      BenchmarkCount(servers, runs, n - 1);
    }
  }

  /** Each process in `ls` is for one of the first `n` servers and one of the domains, and was sampled. */
  predicate RunLaunchesSampled(ls: seq<Launch>, probes: seq<seq<DomainProbe>>, domainCount: nat, n: nat)
    requires n <= |probes|
  {
    forall t :: 0 <= t < |ls| ==>
      ls[t].server < n && ls[t].domain < domainCount && Sampled(ls[t], probes[ls[t].server])
  }

  /** Every process the loop over the first `n` servers starts comes from one of their loops. */
  lemma {:induction false} BenchmarkSampled(servers: seq<ServerInfo>, runs: seq<ServerProgress>, probes: seq<seq<DomainProbe>>, domainCount: nat, n: nat)
    requires n <= |servers| == |runs| == |probes|
    requires forall k :: 0 <= k < |runs| ==> LaunchesSampled(runs[k].launches, k, probes[k], domainCount)
    ensures RunLaunchesSampled(BenchmarkUpTo(servers, runs, n).launches, probes, domainCount, n)
  {
    if n > 0 {
      BenchmarkSampled(servers, runs, probes, domainCount, n - 1);
      var r0 := BenchmarkUpTo(servers, runs, n - 1);
      if r0.crash.None? {
        var a, b := r0.launches, runs[n - 1].launches;
        assert LaunchesSampled(b, n - 1, probes[n - 1], domainCount);
        forall t | 0 <= t < |a + b|
          ensures (a + b)[t].server < n && (a + b)[t].domain < domainCount && Sampled((a + b)[t], probes[(a + b)[t].server])
        {
          if t < |a| {
            assert (a + b)[t] == a[t];
          } else {
            assert (a + b)[t] == b[t - |a|];
          }
        }
        assert BenchmarkUpTo(servers, runs, n).launches == a + b;
      } else {
        assert RunLaunchesSampled(r0.launches, probes, domainCount, n);
      }
    }
  }

  /** The probes of each server's domains. */
  function ServerProbes(env: Environment, servers: seq<ServerInfo>, commands: seq<Result<Invocation, BuildError>>, read: Option<string> -> Option<real>,
                        domains: seq<string>): (probes: seq<seq<DomainProbe>>)
    requires |commands| == |servers|
    ensures |probes| == |servers|
    ensures forall k :: 0 <= k < |servers| ==> probes[k] == DomainProbes(env, k, servers[k].name, commands[k], read, domains)
  {
    seq(|servers|, k requires 0 <= k < |servers| => DomainProbes(env, k, servers[k].name, commands[k], read, domains))
  }

  /** Each summary holds the means of its server's readings, in domain order. */
  predicate AveragesGathered(results: seq<ServerSummary>, commands: seq<Result<Invocation, BuildError>>, probes: seq<seq<DomainProbe>>,
                             domainCount: nat) {
    forall k :: 0 <= k < |results| ==>
      && k < |commands| && k < |probes| && domainCount <= |probes[k]|
      && results[k].avgUncached == Mean(UncachedReadings(commands[k], probes[k], domainCount))
      && results[k].avgCached == Mean(CachedReadings(commands[k], probes[k], domainCount))
  }

  /** `BenchmarkGathers` for any commands and any report reader. */
  lemma GathersWith(env: Environment, servers: seq<ServerInfo>, commands: seq<Result<Invocation, BuildError>>, read: Option<string> -> Option<real>,
                    domains: seq<string>)
    requires |commands| == |servers|
    ensures var r := BenchmarkUpTo(servers, ServerRuns(env, servers, commands, read, domains), |servers|);
      var probes := ServerProbes(env, servers, commands, read, domains);
      AveragesGathered(r.results, commands, probes, |domains|) && RunLaunchesSampled(r.launches, probes, |domains|, |servers|)
  {
    var runs := ServerRuns(env, servers, commands, read, domains);
    var probes := ServerProbes(env, servers, commands, read, domains);
    forall k | 0 <= k < |servers|
      ensures runs[k].uncached == UncachedReadings(commands[k], probes[k], |domains|)
      ensures runs[k].cached == CachedReadings(commands[k], probes[k], |domains|)
      ensures |runs[k].cached| <= |runs[k].uncached|
      ensures LaunchesSampled(runs[k].launches, k, probes[k], |domains|)
    {
      DomainsGather(k, commands[k], probes[k], |domains|);
      ProbeLaunchesSampled(k, commands[k], probes[k], |domains|);
      CachedFewer(commands[k], probes[k], |domains|);
    }
    BenchmarkSummaries(servers, runs, |servers|);
    BenchmarkSampled(servers, runs, probes, |domains|, |servers|);
  }

  /**
   * Which latencies the measurement averages and which processes it starts: each summarized
   * server's uncached average is the mean of the first readings of the domains it probed, in
   * order, and its cached average the mean of the second readings of those whose first probe
   * gave a latency; every process is for a domain whose query file was written, and a cached
   * probe only for a domain whose uncached probe gave a latency.
   */
  lemma BenchmarkGathers(env: Environment, servers: seq<ServerInfo>, domains: seq<string>)
    ensures var r := Benchmark(env, servers, domains);
      var commands := BuiltCommands(servers);
      var probes := ServerProbes(env, servers, commands, ExtractLatency, domains);
      AveragesGathered(r.results, commands, probes, |domains|) && RunLaunchesSampled(r.launches, probes, |domains|, |servers|)
  {
    GathersWith(env, servers, BuiltCommands(servers), ExtractLatency, domains);
  }

  /** The five domains of `AveragesExample`. */
  function ExampleProbes(): seq<DomainProbe> {
    [DomainProbe(true, Some(5.0), Some(1.0)), DomainProbe(false, Some(9.0), Some(9.0)),
     DomainProbe(true, None, Some(9.0)), DomainProbe(true, Some(6.0), None),
     DomainProbe(true, Some(7.0), Some(2.0))]
  }

  lemma ExampleRun(inv: Invocation)
    ensures DomainsUpTo(0, Ok(inv), ExampleProbes(), 5) ==
      ServerProgress([5.0, 6.0, 7.0], [1.0, 2.0],
                     [Launched(0, 0, Uncached, inv), Launched(0, 0, Cached, inv), Launched(0, 2, Uncached, inv),
                      Launched(0, 3, Uncached, inv), Launched(0, 3, Cached, inv),
                      Launched(0, 4, Uncached, inv), Launched(0, 4, Cached, inv)], None)
  {
    var probes := ExampleProbes();
    var built: Result<Invocation, BuildError> := Ok(inv);
    var u0, c0, u2 := Launched(0, 0, Uncached, inv), Launched(0, 0, Cached, inv), Launched(0, 2, Uncached, inv);
    var u3, c3 := Launched(0, 3, Uncached, inv), Launched(0, 3, Cached, inv);
    var u4, c4 := Launched(0, 4, Uncached, inv), Launched(0, 4, Cached, inv);
    assert DomainsUpTo(0, built, probes, 1) == ServerProgress([5.0], [1.0], [u0, c0], None);
    assert DomainsUpTo(0, built, probes, 2) == ServerProgress([5.0], [1.0], [u0, c0], None);
    assert DomainsUpTo(0, built, probes, 3) == ServerProgress([5.0], [1.0], [u0, c0, u2], None);
    assert DomainsUpTo(0, built, probes, 4) == ServerProgress([5.0, 6.0], [1.0], [u0, c0, u2, u3, c3], None);
  }

  lemma ExampleMeans()
    ensures Summarize("example", [5.0, 6.0, 7.0], [1.0, 2.0]) == ServerSummary("example", Some(6.0), Some(1.5))
  {
    assert Sum([7.0]) == 7.0 && Sum([2.0]) == 2.0;
    assert Sum([6.0, 7.0]) == 13.0;
    assert Sum([5.0, 6.0, 7.0]) == 18.0 && Sum([1.0, 2.0]) == 3.0;
  }

  /**
   * Five domains: the second's query file is not written, the third's uncached probe gives
   * no latency and the fourth's cached one none. The readings 5, 6 and 7 average to 6, the
   * cached readings 1 and 2 to 1.5, and the readings of the two skipped probes are ignored.
   */
  lemma AveragesExample(inv: Invocation)
    ensures var p := DomainsUpTo(0, Ok(inv), ExampleProbes(), 5);
      && p.crash == None
      && Summarize("example", p.uncached, p.cached) == ServerSummary("example", Some(6.0), Some(1.5))
      && |p.launches| == 7
  {
    ExampleRun(inv);
    ExampleMeans();
  }
}
