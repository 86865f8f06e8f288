/**
 * The command builder: the part of `run_dnsperf` that turns a server descriptor into the
 * `dnsperf` argument list and the effective timeout, before the process is started.
 */
module Command {
  import opened Wrappers
  import opened Text
  import opened Config
  import Uri

  const DNS_TIMEOUT_SECONDS: int := 5
  /** Extra seconds of timeout for DoH (TLS and HTTP set-up) and for DoT (TLS set-up). */
  const DOH_TIMEOUT_MARGIN: int := 7
  const DOT_TIMEOUT_MARGIN: int := 5
  const QUERIES_PER_RUN: int := 1
  /** Seconds the process-level timeout adds to the effective one. */
  const PROCESS_TIMEOUT_GRACE: int := 2
  const TEMP_QUERY_FILE: string := "temp_dns_query.txt"

  /** The command line `cmd` and the `effective_timeout` that goes with it. */
  datatype Invocation = Invocation(args: seq<string>, effectiveTimeout: int) {
    /** The bound given to `subprocess.run`. */
    function ProcessTimeout(): int { effectiveTimeout + PROCESS_TIMEOUT_GRACE }
  }

  /**
   * A DoH descriptor the source cannot turn into a command: a URI port `urlparse` rejects
   * (a `ValueError`), or no host to give as SNI name (the `None` that breaks `' '.join(cmd)`).
   */
  datatype BuildError = InvalidUriPort(text: string) | MissingSniHost(address: string)

  /** Python truthiness of the port: `None` and `0` are both false. */
  predicate Truthy(port: Option<int>) { port.Some? && port.value != 0 }

  /** The timeout `dnsperf -t` receives, by transport. */
  function EffectiveTimeout(t: Transport): (seconds: int)
    ensures seconds == match t case Plain => 5 case Dot => 10 case DoH => 12
  {
    match t
    case Plain => DNS_TIMEOUT_SECONDS
    case Dot => DNS_TIMEOUT_SECONDS + DOT_TIMEOUT_MARGIN
    case DoH => DNS_TIMEOUT_SECONDS + DOH_TIMEOUT_MARGIN
  }

  /** One `dnsperf` option: the flag `-letter` and the value that follows it. */
  datatype CmdOption = CmdOption(letter: char, value: string)

  /** The argument strings of a list of options: `-letter value ...`. */
  function OptionArgs(options: seq<CmdOption>): (args: seq<string>)
    ensures |args| == 2 * |options|
  {
    if options == [] then []
    else ["-" + [options[0].letter], options[0].value] + OptionArgs(options[1..])
  }

  lemma {:induction false} OptionArgsAppend(a: seq<CmdOption>, b: seq<CmdOption>)
    ensures OptionArgs(a + b) == OptionArgs(a) + OptionArgs(b)
  {
    if a != [] {
      assert (a + b)[0] == a[0] && (a + b)[1..] == a[1..] + b;
      OptionArgsAppend(a[1..], b);
    } else {
      assert a + b == b;
    }
  }

  /** How `dnsperf` reads its arguments: each flag `-letter` takes the next argument as its value. */
  function ParseOptions(args: seq<string>): Option<seq<CmdOption>>
    decreases |args|
  {
    if args == [] then Some([])
    else if |args| >= 2 && |args[0]| == 2 && args[0][0] == '-' then
      match ParseOptions(args[2..])
      case None => None
      case Some(rest) => Some([CmdOption(args[0][1], args[1])] + rest)
    else None
  }

  /** Reading the arguments back gives exactly the options they were written from. */
  lemma {:induction false} ParseOptionArgs(options: seq<CmdOption>)
    ensures ParseOptions(OptionArgs(options)) == Some(options)
  {
    if options != [] {
      var args := OptionArgs(options);
      assert args[2..] == OptionArgs(options[1..]);
      ParseOptionArgs(options[1..]);
      assert options == [options[0]] + options[1..];
    }
  }

  /** The value of the first `-letter` among the options. */
  function Lookup(options: seq<CmdOption>, letter: char): Option<string> {
    if options == [] then None
    else if options[0].letter == letter then Some(options[0].value)
    else Lookup(options[1..], letter)
  }

  lemma {:induction false} LookupAppend(a: seq<CmdOption>, b: seq<CmdOption>, letter: char)
    ensures Lookup(a + b, letter) == if Lookup(a, letter).Some? then Lookup(a, letter) else Lookup(b, letter)
  {
    if a != [] {
      assert (a + b)[0] == a[0] && (a + b)[1..] == a[1..] + b;
      LookupAppend(a[1..], b, letter);
    } else {
      assert a + b == b;
    }
  }

  function PortOption(port: Option<int>): seq<CmdOption> {
    if Truthy(port) then [CmdOption('p', IntToString(port.value))] else []
  }

  /** The options every transport ends with: query file, one query, one client, the timeout. */
  function CommonOptions(path: string, timeout: int): seq<CmdOption> {
    var n := IntToString(QUERIES_PER_RUN);
    [CmdOption('d', path), CmdOption('c', n), CmdOption('q', n), CmdOption('Q', n), CmdOption('t', IntToString(timeout))]
  }

  /** The DoH port: the descriptor's if truthy, else the URI's (read only then), else none. */
  function DohPort(server: ServerInfo): Result<Option<int>, BuildError> {
    if Truthy(server.port) then Ok(server.port)
    else
      match Uri.Port(server.address)
      case NoPort => Ok(None)
      case PortNumber(n) => Ok(Some(n))
      case InvalidPort(t) => Err(InvalidUriPort(t))
  }

  /** The transport-specific options, in the order the three branches add them. */
  function TransportOptions(server: ServerInfo): Result<seq<CmdOption>, BuildError> {
    match server.transport
    case DoH =>
      (match DohPort(server)
       case Err(e) => Err(e)
       case Ok(port) =>
         match Uri.Hostname(server.address)
         case None => Err(MissingSniHost(server.address))
         case Some(host) =>
           Ok([CmdOption('m', "doh"), CmdOption('O', "doh-uri=" + server.address), CmdOption('s', host)] + PortOption(port)))
    case Dot => Ok([CmdOption('s', server.address), CmdOption('m', "dot")] + PortOption(server.port))
    case Plain => Ok([CmdOption('s', server.address)] + PortOption(server.port))
  }

  /** The options of a command that can be built: transport options, then the common ones. */
  function OptionsFor(server: ServerInfo, path: string): Result<seq<CmdOption>, BuildError> {
    match TransportOptions(server)
    case Err(e) => Err(e)
    case Ok(options) => Ok(options + CommonOptions(path, EffectiveTimeout(server.transport)))
  }

  /** `cmd_base + cmd_options` and `effective_timeout`. */
  function CommandFor(server: ServerInfo, path: string): Result<Invocation, BuildError> {
    match OptionsFor(server, path)
    case Err(e) => Err(e)
    case Ok(options) => Ok(Invocation(["dnsperf"] + OptionArgs(options), EffectiveTimeout(server.transport)))
  }

  function PortArgs(port: Option<int>): seq<string> {
    if Truthy(port) then ["-p", IntToString(port.value)] else []
  }

  lemma OptionArgsOne(o: CmdOption)
    ensures OptionArgs([o]) == ["-" + [o.letter], o.value]
  {
    assert [o][1..] == [];
  }

  lemma PortOptionArgs(port: Option<int>)
    ensures OptionArgs(PortOption(port)) == PortArgs(port)
  {
    if Truthy(port) {
      OptionArgsOne(CmdOption('p', IntToString(port.value)));
      assert "-" + ['p'] == "-p";
    }
  }

  lemma OptionArgsCons(o: CmdOption, rest: seq<CmdOption>)
    ensures OptionArgs([o] + rest) == ["-" + [o.letter], o.value] + OptionArgs(rest)
  {
    assert ([o] + rest)[1..] == rest;
  }

  lemma DohOptionArgs(address: string, host: string, port: Option<int>)
    ensures OptionArgs([CmdOption('m', "doh"), CmdOption('O', "doh-uri=" + address), CmdOption('s', host)] + PortOption(port))
         == ["-m", "doh"] + ["-O", "doh-uri=" + address] + ["-s", host] + PortArgs(port)
  {
    var m, o, h := CmdOption('m', "doh"), CmdOption('O', "doh-uri=" + address), CmdOption('s', host);
    var p := PortOption(port);
    assert [m, o, h] + p == [m] + ([o] + ([h] + p));
    PortOptionArgs(port);
    OptionArgsCons(h, p); OptionArgsCons(o, [h] + p); OptionArgsCons(m, [o] + ([h] + p));
    assert "-" + ['s'] == "-s" && "-" + ['m'] == "-m" && "-" + ['O'] == "-O";
  }

  lemma DotOptionArgs(address: string, port: Option<int>)
    ensures OptionArgs([CmdOption('s', address), CmdOption('m', "dot")] + PortOption(port))
         == ["-s", address] + ["-m", "dot"] + PortArgs(port)
  {
    var sopt, m := CmdOption('s', address), CmdOption('m', "dot");
    var p := PortOption(port);
    assert [sopt, m] + p == [sopt] + ([m] + p);
    PortOptionArgs(port);
    OptionArgsCons(m, p); OptionArgsCons(sopt, [m] + p);
    assert "-" + ['s'] == "-s" && "-" + ['m'] == "-m";
  }

  lemma PlainOptionArgs(address: string, port: Option<int>)
    ensures OptionArgs([CmdOption('s', address)] + PortOption(port)) == ["-s", address] + PortArgs(port)
  {
    PortOptionArgs(port);
    OptionArgsCons(CmdOption('s', address), PortOption(port));
    assert "-" + ['s'] == "-s";
  }

  lemma CommonOptionArgs(path: string, t: int)
    ensures var n := IntToString(QUERIES_PER_RUN);
      OptionArgs(CommonOptions(path, t)) == ["-d", path, "-c", n, "-q", n, "-Q", n, "-t", IntToString(t)]
  {
    var c := CommonOptions(path, t);
    assert "-" + ['d'] == "-d" && "-" + ['c'] == "-c" && "-" + ['q'] == "-q" && "-" + ['Q'] == "-Q" && "-" + ['t'] == "-t";
    assert c == [c[0]] + ([c[1]] + ([c[2]] + ([c[3]] + [c[4]])));
    OptionArgsOne(c[0]); OptionArgsOne(c[1]); OptionArgsOne(c[2]); OptionArgsOne(c[3]); OptionArgsOne(c[4]);
    OptionArgsAppend([c[3]], [c[4]]);
    OptionArgsAppend([c[2]], [c[3]] + [c[4]]);
    OptionArgsAppend([c[1]], [c[2]] + ([c[3]] + [c[4]]));
    OptionArgsAppend([c[0]], [c[1]] + ([c[2]] + ([c[3]] + [c[4]])));
  }

  /** The argument strings of the transport-specific options, or the build error. */
  function TransportArgs(server: ServerInfo): Result<seq<string>, BuildError> {
    match TransportOptions(server)
    case Err(e) => Err(e)
    case Ok(options) => Ok(OptionArgs(options))
  }

  /** The DoH branch of `run_dnsperf` (dns_speed_test.py:73-91): the DoH options, with the SNI name and port taken from the URI. */
  method DohOptions(server: ServerInfo) returns (r: Result<seq<string>, BuildError>)
    requires server.transport == DoH
    ensures r == TransportArgs(server)
  {
    var cmdOptions := ["-m", "doh"];
    cmdOptions := cmdOptions + ["-O", "doh-uri=" + server.address];
    var sni := Uri.Hostname(server.address);
    ghost var port: Option<int>;
    var portOptions: seq<string> := [];
    if Truthy(server.port) {
      port := server.port;
      portOptions := ["-p", IntToString(server.port.value)];
    } else {
      match Uri.Port(server.address)
      case InvalidPort(t) =>
        return Err(InvalidUriPort(t));
      case PortNumber(n) =>
        port := Some(n);
        if n != 0 {
          portOptions := ["-p", IntToString(n)];
        }
      case NoPort =>
        port := None;
    }
    assert DohPort(server) == Ok(port) && portOptions == PortArgs(port);
    if sni.None? {
      return Err(MissingSniHost(server.address));
    }
    cmdOptions := cmdOptions + ["-s", sni.value];
    cmdOptions := cmdOptions + portOptions;
    DohOptionArgs(server.address, sni.value, port);
    assert TransportOptions(server)
        == Ok([CmdOption('m', "doh"), CmdOption('O', "doh-uri=" + server.address), CmdOption('s', sni.value)] + PortOption(port));
    r := Ok(cmdOptions);
  }

  /** `run_dnsperf`'s option list (dns_speed_test.py:70-117): the options grow by successive `extend` calls. */
  method BuildCommand(server: ServerInfo, path: string) returns (r: Result<Invocation, BuildError>)
    ensures r == CommandFor(server, path)
  {
    var cmdBase := ["dnsperf"];
    var cmdOptions: seq<string>;
    var effectiveTimeout := DNS_TIMEOUT_SECONDS;
    if server.transport == DoH {
      var doh := DohOptions(server);
      if doh.Err? {
        return Err(doh.error);
      }
      cmdOptions := doh.value;
      effectiveTimeout := DNS_TIMEOUT_SECONDS + DOH_TIMEOUT_MARGIN;
    } else if server.transport == Dot {
      cmdOptions := ["-s", server.address];
      cmdOptions := cmdOptions + ["-m", "dot"];
      var portOptions := if Truthy(server.port) then ["-p", IntToString(server.port.value)] else [];
      cmdOptions := cmdOptions + portOptions;
      effectiveTimeout := DNS_TIMEOUT_SECONDS + DOT_TIMEOUT_MARGIN;
      DotOptionArgs(server.address, server.port);
    } else {
      cmdOptions := ["-s", server.address];
      var portOptions := if Truthy(server.port) then ["-p", IntToString(server.port.value)] else [];
      cmdOptions := cmdOptions + portOptions;
      PlainOptionArgs(server.address, server.port);
    }
    assert TransportOptions(server).Ok? && cmdOptions == OptionArgs(TransportOptions(server).value);
    var n := IntToString(QUERIES_PER_RUN);
    CommonOptionArgs(path, effectiveTimeout);
    OptionArgsAppend(TransportOptions(server).value, CommonOptions(path, effectiveTimeout));
    cmdOptions := cmdOptions + ["-d", path, "-c", n, "-q", n, "-Q", n, "-t", IntToString(effectiveTimeout)];
    r := Ok(Invocation(cmdBase + cmdOptions, effectiveTimeout));
  }

  lemma LookupCons(o: CmdOption, rest: seq<CmdOption>, letter: char)
    ensures Lookup([o] + rest, letter) == if o.letter == letter then Some(o.value) else Lookup(rest, letter)
  {
    assert ([o] + rest)[1..] == rest;
  }

  lemma PortLookup(port: Option<int>, letter: char)
    ensures Lookup(PortOption(port), letter) == if letter == 'p' && Truthy(port) then Some(IntToString(port.value)) else None
  {
    if Truthy(port) { LookupCons(CmdOption('p', IntToString(port.value)), [], letter); }
  }

  lemma CommonLookup(path: string, t: int, letter: char)
    ensures Lookup(CommonOptions(path, t), letter) ==
      if letter == 'd' then Some(path)
      else if letter == 'c' || letter == 'q' || letter == 'Q' then Some("1")
      else if letter == 't' then Some(IntToString(t))
      else None
  {
    var c := CommonOptions(path, t);
    assert IntToString(1) == "1";
    assert c == [c[0]] + ([c[1]] + ([c[2]] + ([c[3]] + ([c[4]] + []))));
    LookupCons(c[4], [], letter);
    LookupCons(c[3], [c[4]] + [], letter);
    LookupCons(c[2], [c[3]] + ([c[4]] + []), letter);
    LookupCons(c[1], [c[2]] + ([c[3]] + ([c[4]] + [])), letter);
    LookupCons(c[0], [c[1]] + ([c[2]] + ([c[3]] + ([c[4]] + []))), letter);
  }

  /**
   * The port `-p` carries: the descriptor's when truthy; otherwise, for DoH only, the URI's
   * when there is one and it is not 0; otherwise no `-p` at all.
   */
  function ExpectedPortArg(server: ServerInfo): Option<string> {
    if Truthy(server.port) then Some(IntToString(server.port.value))
    else if server.transport == DoH && Uri.Port(server.address).PortNumber? && Uri.Port(server.address).number != 0 then
      Some(IntToString(Uri.Port(server.address).number))
    else None
  }

  /** What `-p` carries, given the port chosen for the command. */
  function PortArg(port: Option<int>): Option<string> {
    if Truthy(port) then Some(IntToString(port.value)) else None
  }

  lemma DohLookup(address: string, host: string, port: Option<int>, letter: char)
    ensures Lookup([CmdOption('m', "doh"), CmdOption('O', "doh-uri=" + address), CmdOption('s', host)] + PortOption(port), letter) ==
      if letter == 's' then Some(host)
      else if letter == 'm' then Some("doh")
      else if letter == 'O' then Some("doh-uri=" + address)
      else if letter == 'p' then PortArg(port)
      else None
  {
    var m, o, h := CmdOption('m', "doh"), CmdOption('O', "doh-uri=" + address), CmdOption('s', host);
    var p := PortOption(port);
    assert [m, o, h] + p == [m] + ([o] + ([h] + p));
    PortLookup(port, letter);
    LookupCons(h, p, letter); LookupCons(o, [h] + p, letter); LookupCons(m, [o] + ([h] + p), letter);
  }

  lemma DotLookup(address: string, port: Option<int>, letter: char)
    ensures Lookup([CmdOption('s', address), CmdOption('m', "dot")] + PortOption(port), letter) ==
      if letter == 's' then Some(address)
      else if letter == 'm' then Some("dot")
      else if letter == 'p' then PortArg(port)
      else None
  {
    var sopt, m := CmdOption('s', address), CmdOption('m', "dot");
    var p := PortOption(port);
    assert [sopt, m] + p == [sopt] + ([m] + p);
    PortLookup(port, letter);
    LookupCons(m, p, letter); LookupCons(sopt, [m] + p, letter);
  }

  lemma PlainLookup(address: string, port: Option<int>, letter: char)
    ensures Lookup([CmdOption('s', address)] + PortOption(port), letter) ==
      if letter == 's' then Some(address)
      else if letter == 'p' then PortArg(port)
      else None
  {
    PortLookup(port, letter);
    LookupCons(CmdOption('s', address), PortOption(port), letter);
  }

  /** The port a buildable DoH descriptor puts after `-p` is the one `ExpectedPortArg` names. */
  lemma DohPortArg(server: ServerInfo)
    requires server.transport == DoH && DohPort(server).Ok?
    ensures PortArg(DohPort(server).value) == ExpectedPortArg(server)
  {
  }

  lemma TransportLookup(server: ServerInfo, letter: char)
    requires TransportOptions(server).Ok?
    ensures Lookup(TransportOptions(server).value, letter) ==
      if letter == 's' then Some(if server.transport == DoH then Uri.Hostname(server.address).value else server.address)
      else if letter == 'm' then (match server.transport case Plain => None case Dot => Some("dot") case DoH => Some("doh"))
      else if letter == 'O' then (if server.transport == DoH then Some("doh-uri=" + server.address) else None)
      else if letter == 'p' then ExpectedPortArg(server)
      else None
  {
    match server.transport
    case DoH =>
      var port := DohPort(server).value;
      var host := Uri.Hostname(server.address).value;
      assert TransportOptions(server).value
          == [CmdOption('m', "doh"), CmdOption('O', "doh-uri=" + server.address), CmdOption('s', host)] + PortOption(port);
      DohLookup(server.address, host, port, letter);
      DohPortArg(server);
    case Dot =>
      DotLookup(server.address, server.port, letter);
    case Plain =>
      PlainLookup(server.address, server.port, letter);
  }

  /**
   * A built command starts with `dnsperf`, reads back (as `dnsperf` parses flags) to exactly
   * the options the model chose, and pairs them with the transport's timeout; the process
   * timeout is two seconds more.
   */
  lemma CommandShape(server: ServerInfo, path: string)
    requires CommandFor(server, path).Ok?
    ensures var inv := CommandFor(server, path).value;
      |inv.args| >= 1 && inv.args[0] == "dnsperf"
      && ParseOptions(inv.args[1..]) == Some(OptionsFor(server, path).value)
      && inv.effectiveTimeout == EffectiveTimeout(server.transport)
      && inv.ProcessTimeout() == inv.effectiveTimeout + 2
  {
    var inv := CommandFor(server, path).value;
    assert inv.args[1..] == OptionArgs(OptionsFor(server, path).value);
    ParseOptionArgs(OptionsFor(server, path).value);
  }

  /**
   * Every flag of a built command, read back from its arguments: the target and mode, the
   * DoH URI, the port rule, the query file, one query on one client, and the timeout.
   */
  lemma CommandOptionValues(server: ServerInfo, path: string, letter: char)
    requires CommandFor(server, path).Ok?
    ensures var inv := CommandFor(server, path).value;
      ParseOptions(inv.args[1..]).Some?
      && Lookup(ParseOptions(inv.args[1..]).value, letter) ==
      if letter == 's' then Some(if server.transport == DoH then Uri.Hostname(server.address).value else server.address)
      else if letter == 'm' then (match server.transport case Plain => None case Dot => Some("dot") case DoH => Some("doh"))
      else if letter == 'O' then (if server.transport == DoH then Some("doh-uri=" + server.address) else None)
      else if letter == 'p' then ExpectedPortArg(server)
      else if letter == 'd' then Some(path)
      else if letter == 'c' || letter == 'q' || letter == 'Q' then Some("1")
      else if letter == 't' then Some(IntToString(EffectiveTimeout(server.transport)))
      else None
  {
    CommandShape(server, path);
    TransportLookup(server, letter);
    CommonLookup(path, EffectiveTimeout(server.transport), letter);
    LookupAppend(TransportOptions(server).value, CommonOptions(path, EffectiveTimeout(server.transport)), letter);
  }

  /**
   * The command can be built unless the descriptor is DoH and either its URI port is
   * malformed (consulted only without a truthy descriptor port) or its URI has no host.
   */
  lemma CommandErrors(server: ServerInfo, path: string)
    ensures CommandFor(server, path).Err? <==>
      server.transport == DoH && ((!Truthy(server.port) && Uri.Port(server.address).InvalidPort?) || Uri.Hostname(server.address).None?)
    ensures CommandFor(server, path).Err? && CommandFor(server, path).error.InvalidUriPort? <==>
      server.transport == DoH && !Truthy(server.port) && Uri.Port(server.address).InvalidPort?
  {
  }

  /**
   * A DoH descriptor whose URI is `https://dns.example.org:443/dns-query` takes its SNI name
   * from the URI host and its `-p` from the URI port, unless the descriptor itself gives a
   * truthy port, which wins.
   */
  lemma DohUriExample(port: Option<int>)
    requires port == None || port == Some(8443)
    ensures var server := ServerInfo("Example DoH", DoH, ExampleUri, port);
      CommandFor(server, TEMP_QUERY_FILE).Ok?
      && var inv := CommandFor(server, TEMP_QUERY_FILE).value;
      ParseOptions(inv.args[1..]).Some?
      && Lookup(ParseOptions(inv.args[1..]).value, 's') == Some("dns.example.org")
      && Lookup(ParseOptions(inv.args[1..]).value, 'p') == Some(if port == None then "443" else "8443")
      && inv.effectiveTimeout == 12
  {
    var server := ServerInfo("Example DoH", DoH, ExampleUri, port);
    ExampleUriParts();
    PortSpellings();
    CommandErrors(server, TEMP_QUERY_FILE);
    CommandShape(server, TEMP_QUERY_FILE);
    CommandOptionValues(server, TEMP_QUERY_FILE, 's');
    CommandOptionValues(server, TEMP_QUERY_FILE, 'p');
  }

  lemma PortSpellings()
    ensures IntToString(443) == "443" && IntToString(8443) == "8443"
  {
  }

  const ExampleUri: string := "https" + "://" + ExampleHost + ":443" + "/dns-query"

  lemma ExampleUriParts()
    ensures Uri.Hostname(ExampleUri) == Some("dns.example.org")
    ensures Uri.Port(ExampleUri) == Uri.PortNumber(443)
  {
    ExampleUriSpelled();
    HttpsIsScheme();
    ExampleHostChars();
    Uri.AuthorityRoundTrip("https", ExampleHost, Some(443), "/dns-query");
  }

  const ExampleHost: string := "dns.example.org"

  lemma ExampleUriSpelled()
    ensures ExampleUri == "https" + "://" + ExampleHost + Uri.PortSuffix(Some(443)) + "/dns-query"
  {
    PortSpellings();
  }

  lemma HttpsIsScheme()
    ensures |"https"| > 0 && IsAsciiLetter("https"[0])
    ensures forall k :: 0 <= k < |"https"| ==> Uri.IsSchemeChar("https"[k])
    ensures Uri.EndsAuthority("/dns-query"[0])
  {
    assert Uri.IsSchemeChar('h') && Uri.IsSchemeChar('t') && Uri.IsSchemeChar('p') && Uri.IsSchemeChar('s');
  }

  lemma ExampleHostChars()
    ensures ExampleHost != [] && Lower(ExampleHost) == ExampleHost
    ensures forall k :: 0 <= k < |ExampleHost| ==> ExampleHost[k] != ':' && ExampleHost[k] != '@' && !Uri.EndsAuthority(ExampleHost[k])
  {
    var host := ExampleHost;
    forall k | 0 <= k < |host| ensures host[k] != ':' && host[k] != '@' && !Uri.EndsAuthority(host[k]) && !('A' <= host[k] <= 'Z') {
      assert host[k] in "abcdeglmnoprsx.";
    }
    LowerOfLowercase(host);
  }

  /** The same resolver written without a port: `https://dns.example.org/dns-query`. */
  const PortlessUri: string := "https" + "://" + ExampleHost + "/dns-query"

  lemma PortlessUriParts()
    ensures Uri.Hostname(PortlessUri) == Some("dns.example.org")
    ensures Uri.Port(PortlessUri) == Uri.NoPort
  {
    HttpsIsScheme();
    ExampleHostChars();
    Uri.AuthorityRoundTrip("https", ExampleHost, None, "/dns-query");
    assert PortlessUri == "https" + "://" + ExampleHost + Uri.PortSuffix(None) + "/dns-query";
  }

  /**
   * A DoH descriptor without a port whose URI has none either: the SNI name is the URI
   * host, the URI itself is passed on, and no `-p` is given, so `dnsperf` keeps its own
   * DoH default.
   */
  lemma DohPortlessExample()
    ensures var server := ServerInfo("Example DoH", DoH, PortlessUri, None);
      CommandFor(server, TEMP_QUERY_FILE).Ok?
      && var inv := CommandFor(server, TEMP_QUERY_FILE).value;
      ParseOptions(inv.args[1..]).Some?
      && Lookup(ParseOptions(inv.args[1..]).value, 's') == Some("dns.example.org")
      && Lookup(ParseOptions(inv.args[1..]).value, 'O') == Some("doh-uri=" + PortlessUri)
      && Lookup(ParseOptions(inv.args[1..]).value, 'p') == None
      && inv.effectiveTimeout == 12
  {
    var server := ServerInfo("Example DoH", DoH, PortlessUri, None);
    PortlessUriParts();
    CommandErrors(server, TEMP_QUERY_FILE);
    CommandShape(server, TEMP_QUERY_FILE);
    CommandOptionValues(server, TEMP_QUERY_FILE, 's');
    CommandOptionValues(server, TEMP_QUERY_FILE, 'O');
    CommandOptionValues(server, TEMP_QUERY_FILE, 'p');
  }
}
