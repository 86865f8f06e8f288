# DNS speed test: a verified model

`dns_speed_test.py` benchmarks DNS resolvers by driving the external `dnsperf` tool. It reads a list of servers and a list of domains from two configuration files. A server here is a plain DNS resolver, DNS over TLS (DoT) or DNS over HTTPS (DoH). For every server and every domain it writes a one-query file and runs `dnsperf` twice: an uncached probe, then, only when that gave a latency, a cached probe. It averages the latencies per server, then orders the summaries for a bar chart.

This project models that program in Dafny, module by module:

| module | models |
|---|---|
| `Wrappers` | `Option` for Python's `None`, `Result` for error returns |
| `Text` | the string primitives the program relies on: `strip` (Python's whitespace set), ASCII `lower`, `split`/`join`, `int()` and `str()` on integers, `replace` |
| `Config` | the line filter of `read_config_file` and `parse_dns_server_line`, with a formatter that is its inverse |
| `Uri` | the part of `urlparse` the DoH branch reads: `hostname` and `port`, split in the manner of RFC 3986, section 3.2 |
| `Command` | the command-building half of `run_dnsperf`: three transport branches, the shared tail, the effective timeout; an imperative builder proved equal to a functional specification |
| `Probe` | starting `dnsperf` through an oracle and classifying what it did (exit code, timeout, exception) into output or error message |
| `Latency` | `parse_dnsperf_output`: hand-written matchers for its two regular expressions, leftmost search, `float()` on the capture as an exact rational, the zero rejection |
| `Benchmark` | the server and domain loops of `main`: loops over an environment oracle (query-file writes and `dnsperf` runs), the averages, the list of summaries, every process started |
| `Report` | the filter and the stable sort of `plot_results`, and the three columns the chart is drawn from |
| `SpeedTest` | `main` from the installation check to the chart, as a method proved equal to a function of the environment |

The file system, the `dnsperf` process and the installation check are inputs: an `Environment` value says whether `dnsperf` is installed and what each configuration file holds. It also says whether the query file for a given server and domain can be written, and how `dnsperf` behaves for a given server, domain, phase, command line and timeout.

A DoH descriptor can stop the source with an exception, once `run_dnsperf` is called for it, that is, once one of its query files has been written. This happens in two cases. The descriptor gives no port (or port 0) and the URI's port text is one `urlparse` rejects; a descriptor port skips that read, so `https://h:99999/q` with port 443 builds and runs. Or the URI has no host; the `None` host then breaks the debug `' '.join(cmd)`. `Command.CommandErrors` states when building fails, and `Benchmark.DomainsCrash` when the run stops. The model returns a `BuildError` for these and ends the run as `Crashed`, keeping the processes started before it.

The line filter tests for `#` on the unstripped line, so an indented comment line is kept. `Config.IndentedCommentKept` states this.

## Model

| member | source | states |
|---|---|---|
| Text.Strip | dns_speed_test.py:37 | the result is a contiguous slice of the input with only whitespace removed at both ends; it has no surrounding whitespace and is empty exactly when the input is all whitespace |
| Text.StripOfStripped | dns_speed_test.py:49 | stripping text that has no surrounding whitespace changes nothing |
| Text.LowerLowercases | dns_speed_test.py:53 | a lowered string has no ASCII capital, keeps every other character, and lowering it again changes nothing |
| Text.Split | dns_speed_test.py:49 | `split(",")` gives at least one part and no part contains the separator |
| Text.SplitJoin | dns_speed_test.py:49 | splitting the join of separator-free parts gives the parts back |
| Text.ParseInt | dns_speed_test.py:60 | `int()` accepts exactly an optional sign followed by ASCII digits, with single underscores allowed between digits |
| Text.ParseUnsigned | dns_speed_test.py:60 | an unsigned digit body reads as the value of its digits with the underscores dropped |
| Text.ParseNegative | dns_speed_test.py:60 | a `-` before a digit body reads as the negated value |
| Text.IntToStringRoundTrip | dns_speed_test.py:86 | `int(str(n)) == n` for every integer |
| Text.NatValueOfNatToString | dns_speed_test.py:86 | the decimal spelling of a natural number reads back as that number |
| Config.ConfigLinesClean | dns_speed_test.py:36-38 | every kept configuration line is non-empty with no surrounding whitespace, and there are no more kept lines than raw lines |
| Config.ConfigLinesAppend | dns_speed_test.py:36-38 | the filter treats lines one by one and keeps file order |
| Config.ConfigLinesOfOneLine | dns_speed_test.py:36-38 | a raw line is kept, stripped, exactly when its stripped form is non-empty and the raw line does not start with `#` |
| Config.IndentedCommentKept | dns_speed_test.py:37 | a `#` line with leading whitespace passes the filter and is kept as a line starting with `#` |
| Config.TransportNamed | dns_speed_test.py:55 | a type string is recognised exactly when it spells a transport, and then gives that transport |
| Config.TypeNameIsLowercase | dns_speed_test.py:53-55 | the three type names are unchanged by lower-casing, so any capitalisation of them is accepted |
| Config.TransportNamedTypeName | dns_speed_test.py:55 | every transport is recognised from its own name |
| Config.Fields | dns_speed_test.py:49 | a line always has at least one field |
| Config.ParseServerLineCases | dns_speed_test.py:48-64 | a line is rejected exactly for fewer than three fields, an unknown lower-cased type, or a non-empty fourth field that is not an integer; an accepted line keeps name and address, carries the lower-cased type, and has no port exactly when the fourth field is missing or empty |
| Config.PortFieldReads | dns_speed_test.py:58-60 | a formatted descriptor has a fourth field exactly when it has a port, and that field is non-empty and reads back as the port |
| Config.FieldsOfJoin | dns_speed_test.py:49 | the fields of a comma-joined line of stripped, comma-free fields are those fields |
| Config.LineFieldsFit | dns_speed_test.py:49-53 | a descriptor with stripped, comma-free name and address formats to at least three stripped, comma-free fields |
| Config.ParseFormatRoundTrip | dns_speed_test.py:48-64 | parsing a formatted descriptor gives the descriptor back (name and address stripped and without commas) |
| Config.ValidServersOfOneLine | dns_speed_test.py:274-276 | one server line contributes its descriptor when it parses and nothing otherwise |
| Config.ValidServersAppend | dns_speed_test.py:274-276 | the valid servers of two blocks of lines are those of the first followed by those of the second |
| Uri.AfterScheme | dns_speed_test.py:79 | what follows the scheme is a suffix of the URI |
| Uri.AuthorityEnd | dns_speed_test.py:79 | the authority ends at the first `/`, `?` or `#`, or at the end |
| Uri.AfterSchemeOf | dns_speed_test.py:79 | after a well-formed `scheme:` comes exactly the rest of the URI |
| Uri.NetlocOf | dns_speed_test.py:79 | the network location of `scheme://authority path` is the authority |
| Uri.Port | dns_speed_test.py:87 | a port number is at most 65535, and there is no port exactly when no port text follows the host |
| Uri.SplitHostPort | dns_speed_test.py:79-88 | `host:port` splits at its colon into the host and the port's decimal spelling |
| Uri.AuthorityRoundTrip | dns_speed_test.py:79-88 | a URI composed from scheme, host, optional port and path parses back to the lower-cased host and to the port |
| Uri.NoAuthorityNoHost | dns_speed_test.py:79-80 | an address with no `:` that does not open with `/` has no authority and so no hostname |
| Command.EffectiveTimeout | dns_speed_test.py:71-97 | the `-t` timeout is 5 s for plain, 10 s for DoT and 12 s for DoH |
| Command.OptionArgs | dns_speed_test.py:74-117 | every option contributes two arguments |
| Command.OptionArgsAppend | dns_speed_test.py:74-117 | extending the option list extends the arguments in the same order |
| Command.ParseOptionArgs | dns_speed_test.py:119 | the arguments after `dnsperf` read back to exactly the options they were built from |
| Command.DohOptionArgs | dns_speed_test.py:73-88 | the DoH branch emits `-m doh -O doh-uri=<address> -s <host>`, then `-p` only for a truthy port |
| Command.DotOptionArgs | dns_speed_test.py:92-96 | the DoT branch emits `-s <address> -m dot`, then `-p` only for a truthy port |
| Command.PlainOptionArgs | dns_speed_test.py:98-101 | the plain branch emits `-s <address>`, then `-p` only for a truthy port |
| Command.CommonOptionArgs | dns_speed_test.py:104-117 | every command ends with `-d <path> -c 1 -q 1 -Q 1 -t <timeout>` |
| Command.DohOptions | dns_speed_test.py:73-91 | the step-by-step DoH builder gives the DoH branch of the specification, including its two errors |
| Command.BuildCommand | dns_speed_test.py:68-121 | the step-by-step builder gives the specified command, timeout or build error for every descriptor |
| Command.DohPortArg | dns_speed_test.py:85-88 | the DoH `-p` carries the descriptor's port if truthy, else the URI's port if truthy, else is absent |
| Command.TransportLookup | dns_speed_test.py:73-101 | per transport, the value of each of `-s`, `-m`, `-O` and `-p`, and that no other option is set |
| Command.CommandShape | dns_speed_test.py:119-128 | a built command starts with `dnsperf`, its remaining arguments read back to its options, and the process timeout is the effective timeout plus 2 |
| Command.CommandOptionValues | dns_speed_test.py:68-119 | the value every option letter has in a built command, for each transport |
| Command.CommandErrors | dns_speed_test.py:79-121 | a command cannot be built exactly for a DoH descriptor whose URI has no host, or whose port is not truthy and whose URI port is invalid; the port error is reported exactly in the second case |
| Command.DohUriExample | dns_speed_test.py:73-91 | for `https://dns.example.org:443/dns-query` the SNI name is the host, `-p` is the URI port unless the descriptor gives 8443, and the timeout is 12 s |
| Command.ExampleUriParts | dns_speed_test.py:79-87 | that URI has host `dns.example.org` and port 443 |
| Command.PortlessUriParts | dns_speed_test.py:79-87 | `https://dns.example.org/dns-query` has host `dns.example.org` and no port |
| Command.DohPortlessExample | dns_speed_test.py:73-91 | for that URI the SNI name is the host, the `-O doh-uri=` option carries the URI unchanged, no `-p` option is given, and the timeout is 12 s |
| Probe.CleanStderrFacts | dns_speed_test.py:133-137 | cleaned stderr has no newline; it is the placeholder for empty stderr, and otherwise the stripped stream with newlines read as spaces |
| Text.ReplaceCharRemoves | dns_speed_test.py:134 | after replacing a character by a different one, none of it is left, and replacing again changes nothing |
| Probe.Classify | dns_speed_test.py:131-157 | exactly one of output and error is set, output exactly for a zero exit, and then it is stdout |
| Probe.MessageKinds | dns_speed_test.py:138-157 | an error message names a non-zero exit, a timeout or an exception exactly when that is what happened |
| Probe.ReportedCodeOfExitError | dns_speed_test.py:138-140 | the exit code can be read back from the error message |
| Probe.ExitMessageEnds | dns_speed_test.py:138-140 | a non-zero exit's message ends with the cleaned stderr |
| Probe.ExitMessageContents | dns_speed_test.py:132-140 | a non-zero exit's message reads back its exit code and ends with the cleaned stderr |
| Probe.TimeoutMessageContents | dns_speed_test.py:149-150 | a timeout's message starts with the timeout text and the server name and ends with the effective timeout in seconds |
| Probe.ExceptionMessageContents | dns_speed_test.py:153-154 | an exception's message starts with the exception text and the server name and ends with the exception's own text |
| Probe.MessageContents | dns_speed_test.py:132-157 | whatever error a probe reports carries what happened: the exit code and cleaned stderr, the effective timeout, or the exception's text |
| Probe.RunDnsperf | dns_speed_test.py:68-157 | the process is started only when the command can be built, with that command and the effective timeout plus 2, and its outcome is classified |
| Probe.ProbeRunsBuiltCommand | dns_speed_test.py:119-131 | a probe fails to build exactly when the command does, and otherwise classifies the run of the built command line under the process timeout |
| Latency.MatchAt | dns_speed_test.py:168-180 | a capture of either pattern is a non-empty run of digits and dots |
| Latency.SecondsMatchIsShape | dns_speed_test.py:168 | the seconds pattern matches at a position exactly when the text there is `Average Latency`, optional spaces, `(s):`, at least one space and a longest run of digits and dots, which is the capture |
| Latency.MsMatchIsShape | dns_speed_test.py:180 | the milliseconds pattern matches exactly when the label (any case), at least one space, a run of digits and dots, optional spaces and `ms` (any case) stand there; the run is the capture |
| Latency.Search | dns_speed_test.py:168-180 | a search result is a non-empty run of digits and dots |
| Latency.SearchFindsFirst | dns_speed_test.py:168-180 | the search gives the capture of the leftmost match |
| Latency.SearchFailsOnlyWithoutMatch | dns_speed_test.py:168-180 | the search fails exactly when the pattern matches nowhere |
| Latency.ParseDecimalAccepts | dns_speed_test.py:170 | `float()` accepts a capture exactly when it has at most one dot and at least one digit |
| Latency.ParseDecimalZero | dns_speed_test.py:172-183 | an accepted capture is non-negative and is zero exactly when all its digits are zero |
| Latency.LatencyPositive | dns_speed_test.py:163-192 | every latency read is positive |
| Latency.NoSecondsMatchWithoutParen | dns_speed_test.py:168 | text without `(` never matches the seconds pattern |
| Latency.SecondsFound | dns_speed_test.py:168 | a seconds line with no earlier `A` is found, with its number as capture |
| Latency.MsFound | dns_speed_test.py:180 | a milliseconds line with no earlier `a` or `A` is found, with its number as capture |
| Latency.SecondsLineRead | dns_speed_test.py:168-177 | a report whose first `A` opens a seconds line gives that number times 1000, or nothing when it is zero or malformed, whatever follows |
| Latency.MsLineRead | dns_speed_test.py:180-188 | a report without `(` whose first `a` or `A` opens a milliseconds line gives that number as it is, or nothing when it is zero or malformed |
| Latency.MsReportRead | dns_speed_test.py:180-188 | a report without `(` and with a milliseconds match gives that match's number as it is |
| Latency.DecimalSeconds | dns_speed_test.py:167 | `0.00818` reads as 818/100000 |
| Latency.DecimalMs | dns_speed_test.py:179 | `8.18` reads as 818/100 |
| Latency.DecimalZero | dns_speed_test.py:171 | `0.00000` reads as zero |
| Latency.DecimalRefused | dns_speed_test.py:170 | `1.2.3` and `.` are refused |
| Latency.SecondsReportExample | dns_speed_test.py:167-177 | the report line `Average Latency (s):  0.00818` gives 8.18 ms |
| Latency.ZeroReportExample | dns_speed_test.py:171-176 | a zero seconds reading gives no latency |
| Latency.MsReportExample | dns_speed_test.py:179-188 | the report line `Average latency:  8.18 ms` gives 8.18 ms |
| Benchmark.Summarize | dns_speed_test.py:336-359 | the summary keeps the server name; it has an uncached average exactly when an uncached latency was gathered, and a cached one exactly when both kinds were |
| Benchmark.DomainsCrashStays | dns_speed_test.py:296-303 | after a build error a server's loop does nothing more |
| Benchmark.BenchmarkCrashStays | dns_speed_test.py:281-303 | after a build error no further server is measured |
| Benchmark.BenchmarkStep | dns_speed_test.py:281-359 | measuring one more server appends its summary and processes, or stops with its error |
| Benchmark.DomainStepGathers | dns_speed_test.py:295-322 | one domain adds its first reading when it gave a latency, its second only then and when that is a latency too, and an uncached process followed by a cached one only after a latency; an unwritten query file adds nothing; a build error adds only the stop |
| Benchmark.MeasureDomain | dns_speed_test.py:295-328 | one domain: skipped when the query file cannot be written, a build error when the command cannot be built, else the uncached probe and, only after an uncached latency, the cached probe; the progress grows by exactly that domain's first reading (when it is a latency), its second reading (when both are), and the one or two processes started |
| Benchmark.MeasureServer | dns_speed_test.py:288-328 | the domain loop gathers what the specification says the server gathers |
| Benchmark.RecordServer | dns_speed_test.py:336-359 | the server's averages are appended as one more summary, or the run stops with its build error |
| Benchmark.MeasureServers | dns_speed_test.py:281-359 | the server loop gives the specified summaries, processes and build error |
| Benchmark.RunBenchmark | dns_speed_test.py:281-359 | both loops over the environment oracle give the specified run |
| Benchmark.ExtractLatencyPositive | dns_speed_test.py:163-192 | the report reader gives only positive latencies |
| Benchmark.DomainProbesPositive | dns_speed_test.py:291-313 | with such a reader every probe reading is positive |
| Benchmark.DomainsFacts | dns_speed_test.py:291-328 | after n domains there are no more cached than uncached latencies and no more than n of those, all positive; every cached probe directly follows the uncached probe of the same domain; every process ran the server's built command; a server whose command cannot be built has no latencies |
| Benchmark.DomainsCrash | dns_speed_test.py:296-303 | a server's loop stops with an error exactly when its command cannot be built and some query file was written |
| Benchmark.DomainsGather | dns_speed_test.py:291-322 | a server's uncached latencies are, in domain order, the first readings of the domains it probed that gave a latency; its cached latencies the second readings of those whose cached probe gave one too; its processes those the probes started |
| Benchmark.CachedFewer | dns_speed_test.py:305-315 | no more cached readings are gathered than uncached ones |
| Benchmark.ProbeLaunchesSampled | dns_speed_test.py:295-312 | every process a server's loop starts is for that server and a domain whose query file was written, and a cached probe only for a domain whose uncached probe gave a latency |
| Benchmark.LaunchesOfSampled | dns_speed_test.py:303-312 | the processes one domain starts are for that domain, sampled in the same sense |
| Benchmark.ServerRunsCrash | dns_speed_test.py:296-303 | the same, for every server |
| Benchmark.ServerRunsSound | dns_speed_test.py:291-328 | for every server: cached no more than uncached, no more than the domains, all positive, launches paired and with the built command |
| Benchmark.MeanPositive | dns_speed_test.py:336-345 | the mean of positive latencies exists exactly for a non-empty list and is then positive |
| Benchmark.BenchmarkCrashAt | dns_speed_test.py:281-359 | the run stops exactly when some server's loop stops; then the summaries are those before the first such server, and the error is its error |
| Benchmark.BenchmarkCount | dns_speed_test.py:359 | a run that does not stop has one summary per server |
| Benchmark.BenchmarkResults | dns_speed_test.py:336-359 | each summary carries its server's name, positive averages, and a cached average only with an uncached one; a server whose command cannot be built has no uncached average |
| Benchmark.BenchmarkLaunches | dns_speed_test.py:303-310 | processes are paired cached-after-uncached and each ran its server's built command |
| Benchmark.BenchmarkOutcome | dns_speed_test.py:281-359 | the run stops exactly when a server's command cannot be built and it wrote a query file; otherwise there is one sound summary per server, in configuration order and under its name |
| Benchmark.BenchmarkLaunchesBuilt | dns_speed_test.py:303-310 | every process started is for a configured server and domain, with that server's built command and the effective timeout plus 2, and every cached probe directly follows its uncached probe |
| Benchmark.BenchmarkSummaries | dns_speed_test.py:336-359 | each summary holds the means of its server's gathered latencies |
| Benchmark.BenchmarkSampled | dns_speed_test.py:281-322 | every process the server loop starts comes from some server's loop, is for a configured domain and was sampled |
| Benchmark.GathersWith | dns_speed_test.py:281-359 | for any commands and report reader: each average is the mean of its server's readings, and every process was sampled |
| Benchmark.BenchmarkGathers | dns_speed_test.py:281-359 | each summarized server's uncached average is the mean of the first readings of the domains it probed that gave a latency, and its cached average the mean of the second readings of those whose cached probe gave one; every process is for a written query file, a cached one only after an uncached latency |
| Benchmark.AveragesExample | dns_speed_test.py:291-345 | five domains with readings 5, 6 and 7 (one unwritten, one failed uncached probe, one failed cached probe) average to 6 uncached and 1.5 cached, with seven processes |
| Report.ValidResultsAppend | dns_speed_test.py:199 | the filter treats each summary on its own and keeps order |
| Report.ValidResultsKeep | dns_speed_test.py:199 | exactly the summaries with an average are kept, each as often as it occurs |
| Report.ValidResultsEmpty | dns_speed_test.py:199-200 | nothing is kept exactly when no summary has an average |
| Report.InsertPermutes | dns_speed_test.py:203-205 | inserting adds exactly the one summary |
| Report.SortPermutes | dns_speed_test.py:203-205 | the sort is a permutation |
| Report.InsertNoneBefore | dns_speed_test.py:203-205 | inserting a summary not before a key keeps every summary not before that key |
| Report.OrderedCons | dns_speed_test.py:203-205 | a summary not after any of an ordered list, put in front, keeps it ordered |
| Report.InsertOrdered | dns_speed_test.py:203-205 | inserting keeps the list in key order |
| Report.SortOrdered | dns_speed_test.py:203-205 | the sort puts the summaries in key order |
| Report.InsertWithKey | dns_speed_test.py:203-205 | inserting adds the new summary in front of those sharing its key |
| Report.SortStable | dns_speed_test.py:203-205 | the sort is stable: summaries with equal key keep their order |
| Report.OrderedShape | dns_speed_test.py:203-205 | in key order, summaries without an uncached average come last and the uncached averages ascend |
| Report.PlotOrderSpec | dns_speed_test.py:199-205 | the plotted summaries are exactly those with an average, each as often as it occurs, sorted, and stable per key |
| Report.PlotResultsCases | dns_speed_test.py:195-208 | no chart exactly for no summaries, nothing valid exactly when none has an average; otherwise one bar per plotted summary, in plot order, under its name, with 0 for a missing average |
| SpeedTest.RunSpeedTest | dns_speed_test.py:265-365 | the program, step by step, ends as the specification of the run says |
| SpeedTest.ChartOfSummaries | dns_speed_test.py:195-202 | a chart of a non-empty list of sound summaries has something to draw; nothing is valid exactly when no summary has an uncached average |
| SpeedTest.SpeedTestEarlyExits | dns_speed_test.py:265-279 | the program stops early exactly when `dnsperf` is missing, a file is missing or empty, or no server line is valid |
| SpeedTest.SpeedTestFinished | dns_speed_test.py:281-362 | a finished run has one sound summary per valid server, in order and under its name, whose averages are the means of that server's uncached and cached readings over the configured domains; every process was for a written query file, a cached one only after an uncached latency; the chart has something to draw, and nothing valid exactly when no server gave an uncached latency |
| SpeedTest.SpeedTestCrashed | dns_speed_test.py:281-303 | a crash carries the build error of a valid server whose command cannot be built and which wrote a query file |
| Config.OneServerFile | dns_speed_test.py:30-66 | a servers file holding one formatted descriptor line (no port, a name that does not open a comment, stripped comma-free fields) is kept as it is and gives back exactly that descriptor |
| SpeedTest.OneDomainFile | dns_speed_test.py:30-46 | a domains file of one stripped line that does not open a comment is kept as it is |
| SpeedTest.FinishedReachable | dns_speed_test.py:265-362 | with `dnsperf` installed, one plain server line and one domain line, the run finishes whatever `dnsperf` answers |
| SpeedTest.NoHostCannotBuild | dns_speed_test.py:79-80 | a DoH descriptor whose address has no authority cannot be built into a command |
| SpeedTest.CrashedReachable | dns_speed_test.py:281-303 | with one DoH server line whose address has no `//` authority, and one domain line whose query file is written, the run crashes |

## Definitions

The functions that only compute carry no contract of their own, or one that only spells out their definition element by element; the rows above that state what each one means are:

- `Text.Lower`: `Text.LowerLowercases`, `Config.TypeNameIsLowercase`.
- `Text.ReplaceChar`: `Text.ReplaceCharRemoves`, `Probe.CleanStderrFacts`.
- `SpeedTest.ReadConfigFile`: `Config.ConfigLinesOfOneLine`, `Config.ConfigLinesClean`, `Config.ConfigLinesAppend`, `SpeedTest.SpeedTestEarlyExits`.
- `Benchmark.DomainProbes`, `Benchmark.ServerProbes`, `Benchmark.BuiltCommands` and `Benchmark.ServerRuns`: `Benchmark.DomainsGather`, `Benchmark.BenchmarkGathers`, `Benchmark.ServerRunsSound`, `Benchmark.ServerRunsCrash`, `Command.CommandShape`.
- `Config.ParseServerLine`: `Config.ParseServerLineCases`, `Config.ParseFormatRoundTrip`, `Config.PortFieldReads`, `Config.TransportNamed`.
- `Config.ConfigLines`: `Config.ConfigLinesClean`, `Config.ConfigLinesOfOneLine`, `Config.ConfigLinesAppend`, `Config.IndentedCommentKept`.
- `Config.ValidServers`: `Config.ValidServersOfOneLine`, `Config.ValidServersAppend`.
- `Uri.Netloc` and `Uri.Hostname`: `Uri.NetlocOf`, `Uri.AuthorityRoundTrip`, `Command.ExampleUriParts`, `Command.PortlessUriParts`.
- `Command.TransportOptions`, `Command.OptionsFor` and `Command.CommandFor`: `Command.TransportLookup`, `Command.CommandShape`, `Command.CommandOptionValues`, `Command.CommandErrors`, `Command.BuildCommand`.
- `Probe.ProbeSpec`: `Probe.RunDnsperf`, `Probe.ProbeRunsBuiltCommand`.
- `Latency.ParseDecimal`: `Latency.ParseDecimalAccepts`, `Latency.ParseDecimalZero`, `Latency.DecimalSeconds`, `Latency.DecimalMs`, `Latency.DecimalRefused`.
- `Latency.ExtractLatency`: `Latency.LatencyPositive`, `Latency.SecondsLineRead`, `Latency.MsLineRead`, and the report examples.
- `Benchmark.DomainStep`, `Benchmark.Probed` and `Benchmark.DomainsUpTo`: `Benchmark.DomainStepGathers`, `Benchmark.DomainsGather`, `Benchmark.DomainsCrash`, `Benchmark.DomainsFacts`, `Benchmark.AveragesExample`.
- `Benchmark.BenchmarkUpTo`, `Benchmark.BenchmarkWith` and `Benchmark.Benchmark`: `Benchmark.BenchmarkOutcome`, `Benchmark.BenchmarkGathers`, `Benchmark.BenchmarkLaunchesBuilt`, `Benchmark.RunBenchmark`.
- `Report.SortByLatency` and `Report.PlotOrder`: `Report.SortPermutes`, `Report.SortOrdered`, `Report.SortStable`, `Report.PlotOrderSpec`.
- `Report.PlotResults`: `Report.PlotResultsCases`, `SpeedTest.ChartOfSummaries`.
- `SpeedTest.SpeedTestSpec`: `SpeedTest.RunSpeedTest`, `SpeedTest.SpeedTestEarlyExits`, `SpeedTest.SpeedTestFinished`, `SpeedTest.SpeedTestCrashed`.
- `Probe.CleanStderr`: `Probe.CleanStderrFacts`.
- `Probe.ExitErrorMessage`, `Probe.TimeoutMessage` and `Probe.ExceptionMessage`: `Probe.MessageKinds`, `Probe.ExitMessageContents`, `Probe.TimeoutMessageContents`, `Probe.ExceptionMessageContents`, `Probe.MessageContents`.
- `Report.ValidResults`: `Report.ValidResultsKeep`, `Report.ValidResultsEmpty`.
- `Report.Height`: `Report.PlotResultsCases`.
- `Benchmark.Sum` and `Benchmark.Mean`: `Benchmark.MeanPositive`, `Benchmark.BenchmarkSummaries`.
- `Benchmark.ProbeOf` and `Benchmark.ServerStep`: `Benchmark.DomainStepGathers`, `Benchmark.BenchmarkStep`.
- `Latency.Reading`: `Latency.SecondsLineRead`, `Latency.MsLineRead`, `Latency.LatencyPositive`.
- `Latency.SecondsMatchAt`: `Latency.SecondsMatchIsShape`.
- `Latency.MsMatchAt`: `Latency.MsMatchIsShape`.
- `Command.Truthy` and `Command.DohPort`: `Command.DohPortArg`.
- `Command.CommonOptions`: `Command.CommonOptionArgs`.
- `Command.TransportArgs`: `Command.TransportLookup`.
- `Command.PortArg`: `Command.DohPortArg`, `Command.DotOptionArgs`, `Command.PlainOptionArgs`.
- `Config.KeepsLine`: `Config.ConfigLinesOfOneLine`.
- `Uri.HostInfo`, `Uri.HostOf` and `Uri.PortText`: `Uri.SplitHostPort`, `Uri.Port`, `Uri.AuthorityRoundTrip`, `Uri.NoAuthorityNoHost`.
- `SpeedTest.OneServerEnvironment`: `SpeedTest.FinishedReachable`, `SpeedTest.CrashedReachable`.

## Left out

- Process, file and clock effects are not performed. `shutil.which`, `os.path.exists`, `open`, writing the query file, `subprocess.run` and `time.sleep(0.05)` are inputs of the `Environment` oracle. `os.remove` of the query file has no effect on any result and is not modelled.
- Reading a file is abstracted to a list of raw lines. UTF-8 decoding, and where lines break, are not modelled.
- SpeedTest.ReadConfigFile: a missing file and a file that raises while being read are both `None`; the printed message that tells them apart is not modelled.
- Every `print`, including the DEBUG lines and the failure reasons printed at lines 316-327, is left out. These are logging only.
- Probe.Classify: the exception text `{e}` is an input string, since Python's exception formatting is not modelled.
- The drawing of the chart is left out as presentation: bar positions, widths and labels, the y-limit, layout and saving the image. `Report.PlotResults` stops at the three columns the bars are drawn from.
- Latencies and averages are exact reals. IEEE rounding of `float()`, of `* 1000` and of the sums and divisions in the means is not modelled. A capture so small that `float()` underflows to 0.0 counts as a (positive) latency here.
- Latency.ParseDecimal: a capture that `float()` rejects (`1.2.3`, `.`) gives no latency here. In the source the `ValueError` propagates out of `main` and ends the program.
- Latency.MatchAt: `\d` and `\s` are ASCII digits and Python's whitespace set. Python's Unicode-wide `\d` also matches other decimal digits, and those are not modelled.
- Text.Lower: only ASCII letters are lowered. It is exact for the type check, which accepts only `plain`, `doh` and `dot`, but not for non-ASCII host names.
- Text.ParseInt: accepts ASCII digits only, not the other Unicode decimal digits `int()` accepts. Surrounding whitespace cannot occur, since the field is already stripped.
- Uri.Hostname: IPv6 literals in brackets, zone identifiers, and the other `urlparse` corner cases are not modelled. The host is the text after the last `@` and up to the first `:`.
- Command.BuildCommand: the methods rebuild the command for every probe, as the source does (`Benchmark.MeasureDomain` calls `Probe.RunDnsperf`, which calls `Command.BuildCommand`, and checks that the second build equals the first). Only the specification functions `Benchmark.BuiltCommands` and `Benchmark.ServerRun` build it once per server, which is equivalent because building is deterministic.
- Benchmark.RunBenchmark: the report reader is a parameter; `SpeedTest.RunSpeedTest` passes `Latency.ExtractLatency`.
