/**
 * `main`: the installation check, reading both configuration files, parsing the server
 * lines, the measuring loop, and handing the summaries to `plot_results`.
 */
module SpeedTest {
  import opened Wrappers
  import opened Config
  import opened Command
  import opened Latency
  import opened Benchmark
  import opened Report
  import opened Text
  import opened Probe

  /** `read_config_file`: `None` for a missing or unreadable file, else its kept lines (possibly none). */
  function ReadConfigFile(file: Option<seq<string>>): (lines: Option<seq<string>>)
    ensures file.None? <==> lines.None?
    ensures file.Some? ==> lines.value == ConfigLines(file.value)
  {
    match file
    case None => None
    case Some(raw) => Some(ConfigLines(raw))
  }

  /** How a run of the program ends. */
  datatype Outcome =
    | NotInstalled
    | MissingConfiguration
    | NoValidServers
      /** A descriptor whose command cannot be built stopped the program with an exception. */
    | Crashed(error: BuildError, launches: seq<Launch>)
    | Finished(results: seq<ServerSummary>, launches: seq<Launch>, chart: Option<Chart>)

  /** The configuration `main` goes on with: both files read and non-empty. */
  predicate Configured(env: Environment) {
    && ReadConfigFile(env.serversFile).Some? && ReadConfigFile(env.serversFile).value != []
    && ReadConfigFile(env.domainsFile).Some? && ReadConfigFile(env.domainsFile).value != []
  }

  /** `main` (dns_speed_test.py:265-365) as a function of what the program sees. */
  function SpeedTestSpec(env: Environment): Outcome {
    if !env.dnsperfInstalled then NotInstalled
    else if !Configured(env) then MissingConfiguration
    else
      var servers := ValidServers(ReadConfigFile(env.serversFile).value);
      if servers == [] then NoValidServers
      else
        var run := Benchmark.Benchmark(env, servers, ReadConfigFile(env.domainsFile).value);
        if run.crash.Some? then Crashed(run.crash.value, run.launches)
        else Finished(run.results, run.launches, if run.results != [] then Some(PlotResults(run.results)) else None)
  }

  /** `main` (dns_speed_test.py:265-365): each early exit in turn, then the measurement and the chart. */
  method RunSpeedTest(env: Environment) returns (outcome: Outcome)
    ensures outcome == SpeedTestSpec(env)
  {
    if !env.dnsperfInstalled {
      return NotInstalled;
    }
    var serverLines := ReadConfigFile(env.serversFile);
    var domainLines := ReadConfigFile(env.domainsFile);
    if serverLines.None? || serverLines.value == [] || domainLines.None? || domainLines.value == [] {
      return MissingConfiguration;
    }
    var servers := ValidServers(serverLines.value);
    if servers == [] {
      return NoValidServers;
    }
    var run := RunBenchmark(env, servers, domainLines.value, ExtractLatency);
    if run.crash.Some? {
      return Crashed(run.crash.value, run.launches);
    }
    var chart := if run.results != [] then Some(PlotResults(run.results)) else None;
    outcome := Finished(run.results, run.launches, chart);
  }

  /** A chart drawn from sound summaries has bars unless no summary has an uncached average. */
  lemma ChartOfSummaries(results: seq<ServerSummary>)
    requires results != [] && forall k :: 0 <= k < |results| ==> SoundSummary(results[k])
    ensures !PlotResults(results).NoData?
    ensures PlotResults(results).NoValidData? <==> forall k :: 0 <= k < |results| ==> results[k].avgUncached.None?
  {
    PlotResultsCases(results);
    assert forall k :: 0 <= k < |results| ==> (HasData(results[k]) <==> results[k].avgUncached.Some?);
  }

  /** The program reaches the measurement exactly when `dnsperf` is installed and both files give lines, some of them valid server lines. */
  lemma SpeedTestEarlyExits(env: Environment)
    ensures SpeedTestSpec(env).NotInstalled? <==> !env.dnsperfInstalled
    ensures SpeedTestSpec(env).MissingConfiguration? <==> env.dnsperfInstalled && !Configured(env)
    ensures SpeedTestSpec(env).NoValidServers? <==>
      env.dnsperfInstalled && Configured(env) && ValidServers(ReadConfigFile(env.serversFile).value) == []
  {
  }

  /**
   * A finished run has one summary per valid server, in configuration order and under its
   * name, with sound averages that are the means of that server's uncached and cached
   * readings over the configured domains; every process it started was for a domain whose
   * query file was written, a cached one only after an uncached latency; its chart is drawn
   * from the summaries, and has bars unless no server gave an uncached latency.
   */
  lemma SpeedTestFinished(env: Environment)
    requires SpeedTestSpec(env).Finished?
    ensures var o, servers := SpeedTestSpec(env), ValidServers(ReadConfigFile(env.serversFile).value);
      && |o.results| == |servers| > 0
      && (forall k :: 0 <= k < |servers| ==> o.results[k].name == servers[k].name && SoundSummary(o.results[k]))
      && o.chart.Some? && !o.chart.value.NoData?
      && (o.chart.value.NoValidData? <==> forall k :: 0 <= k < |servers| ==> o.results[k].avgUncached.None?)
      && var domains, commands := ReadConfigFile(env.domainsFile).value, BuiltCommands(servers);
         var probes := ServerProbes(env, servers, commands, ExtractLatency, domains);
         AveragesGathered(o.results, commands, probes, |domains|) && RunLaunchesSampled(o.launches, probes, |domains|, |servers|)
  {
    var servers := ValidServers(ReadConfigFile(env.serversFile).value);
    var domains := ReadConfigFile(env.domainsFile).value;
    BenchmarkOutcome(env, servers, domains);
    BenchmarkGathers(env, servers, domains);
    ChartOfSummaries(Benchmark.Benchmark(env, servers, domains).results);
  }

  /** A crash carries the build error of a valid server that wrote a query file. */
  lemma SpeedTestCrashed(env: Environment)
    requires SpeedTestSpec(env).Crashed?
    ensures var o, servers := SpeedTestSpec(env), ValidServers(ReadConfigFile(env.serversFile).value);
      exists k :: 0 <= k < |servers| && CommandFor(servers[k], TEMP_QUERY_FILE) == Err(o.error)
                                    && !NoQueryFileWritten(env, k, ReadConfigFile(env.domainsFile).value)
  {
    var servers := ValidServers(ReadConfigFile(env.serversFile).value);
    var domains := ReadConfigFile(env.domainsFile).value;
    BenchmarkOutcome(env, servers, domains);
    var run := Benchmark.Benchmark(env, servers, domains);
    assert 0 <= |run.results| < |servers|;
  }

  /** An environment with `dnsperf` installed, one server line, one domain line, and every query file written. */
  function OneServerEnvironment(server: ServerInfo, domain: string, outcome: ProcessOutcome): Environment {
    Environment(true, Some([FormatServerLine(server)]), Some([domain]),
                (si: nat, di: nat, query: string) => true,
                (si: nat, di: nat, phase: Phase, args: seq<string>, timeout: int) => outcome)
  }

  /** A clean domain line that does not start a comment is kept as it is. */
  lemma OneDomainFile(domain: string)
    requires domain != "" && Stripped(domain) && domain[0] != '#'
    ensures ConfigLines([domain]) == [domain]
  {
    StripOfStripped(domain);
    ConfigLinesOfOneLine(domain);
  }

  /** A plain server whatever `dnsperf` does: the run finishes. */
  lemma FinishedReachable(server: ServerInfo, domain: string, outcome: ProcessOutcome)
    requires server.transport == Plain && server.port.None? && server.name != "" && server.name[0] != '#'
    requires ',' !in server.name && ',' !in server.address && Stripped(server.name) && Stripped(server.address)
    requires domain != "" && Stripped(domain) && domain[0] != '#'
    ensures SpeedTestSpec(OneServerEnvironment(server, domain, outcome)).Finished?
  {
    var env := OneServerEnvironment(server, domain, outcome);
    OneServerFile(server);
    OneDomainFile(domain);
    CommandErrors(server, TEMP_QUERY_FILE);
    BenchmarkOutcome(env, [server], [domain]);
  }

  /**
   * A DoH server whose address is written without `//` (a bare host name, say) and so
   * has no hostname: the run crashes once its query file is written.
   */
  lemma CrashedReachable(server: ServerInfo, domain: string, outcome: ProcessOutcome)
    requires server.transport == DoH && server.port.None? && server.name != "" && server.name[0] != '#'
    requires ',' !in server.name && ',' !in server.address && Stripped(server.name) && Stripped(server.address)
    requires ':' !in server.address && (server.address == "" || server.address[0] != '/')
    requires domain != "" && Stripped(domain) && domain[0] != '#'
    ensures SpeedTestSpec(OneServerEnvironment(server, domain, outcome)).Crashed?
  {
    var env := OneServerEnvironment(server, domain, outcome);
    OneServerFile(server);
    OneDomainFile(domain);
    NoHostCannotBuild(server);
    assert !NoQueryFileWritten(env, 0, [domain]);
    BenchmarkOutcome(env, [server], [domain]);
  }

  /** A DoH descriptor whose address has no authority cannot be built into a command. */
  lemma NoHostCannotBuild(server: ServerInfo)
    requires server.transport == DoH && ':' !in server.address && (server.address == "" || server.address[0] != '/')
    ensures CommandFor(server, TEMP_QUERY_FILE).Err?
  {
    Uri.NoAuthorityNoHost(server.address);
    CommandErrors(server, TEMP_QUERY_FILE);
  }
}
