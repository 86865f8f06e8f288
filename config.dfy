/**
 * Configuration input: the line filter of `read_config_file` and the server-line parser
 * `parse_dns_server_line`, which turns `name, type, address[, port]` into a descriptor.
 */
module Config {
  import opened Wrappers
  import opened Text

  /** The three transports a server line may name. */
  datatype Transport = Plain | DoH | Dot

  /** The dictionary `{"name", "type", "address", "port"}` that a valid server line becomes. */
  datatype ServerInfo = ServerInfo(name: string, transport: Transport, address: string, port: Option<int>)

  /** The lower-case spelling of a transport in a server line. */
  function TypeName(t: Transport): string {
    match t
    case Plain => "plain"
    case DoH => "doh"
    case Dot => "dot"
  }

  /** The membership test `type_str in ["plain", "doh", "dot"]`, giving the transport named. */
  function TransportNamed(s: string): (t: Option<Transport>)
    ensures t.Some? ==> TypeName(t.value) == s
    ensures t.None? ==> forall u: Transport :: TypeName(u) != s
  {
    if s == "plain" then Some(Plain)
    else if s == "doh" then Some(DoH)
    else if s == "dot" then Some(Dot)
    else None
  }

  lemma TypeNameIsLowercase(t: Transport)
    ensures Lower(TypeName(t)) == TypeName(t)
  {
    var n := TypeName(t);
    assert forall i :: 0 <= i < |n| ==> 'a' <= n[i] <= 'z';
    LowerOfLowercase(n);
  }

  lemma TransportNamedTypeName(t: Transport)
    ensures TransportNamed(TypeName(t)) == Some(t)
  {
    match t
    case Plain =>
    case DoH => assert "doh"[1] != "plain"[1];
    case Dot => assert "dot"[1] != "plain"[1] && "dot"[2] != "doh"[2];
  }

  /** A raw file line survives the filter when it has content and does not itself begin with `#`. */
  predicate KeepsLine(raw: string) {
    Strip(raw) != "" && !(|raw| > 0 && raw[0] == '#')
  }

  /** A list comprehension over `xs` that gives, for each element, zero or more results `f(x)`, in order. */
  function Gather<T, U>(f: T -> seq<U>, xs: seq<T>): seq<U> {
    if xs == [] then [] else f(xs[0]) + Gather(f, xs[1..])
  }

  lemma GatherOne<T, U>(f: T -> seq<U>, x: T)
    ensures Gather(f, [x]) == f(x)
  {
    assert [x][1..] == [];
    assert f(x) + [] == f(x);
  }

  /** Every result satisfies `p` when every element's results do; with at most one result each, there are no more results than elements. */
  lemma {:induction false} GatherEach<T, U>(f: T -> seq<U>, xs: seq<T>, p: U -> bool)
    requires forall k :: 0 <= k < |xs| ==> |f(xs[k])| <= 1 && forall i :: 0 <= i < |f(xs[k])| ==> p(f(xs[k])[i])
    ensures |Gather(f, xs)| <= |xs|
    ensures forall i :: 0 <= i < |Gather(f, xs)| ==> p(Gather(f, xs)[i])
  {
    if xs != [] {
      var head, rest := f(xs[0]), Gather(f, xs[1..]);
      assert forall k :: 1 <= k < |xs| ==> xs[1..][k - 1] == xs[k];
      GatherEach(f, xs[1..], p);
      assert Gather(f, xs) == head + rest;
      forall i | 0 <= i < |head + rest| ensures p((head + rest)[i]) {
        if i < |head| {
          assert (head + rest)[i] == head[i];
        } else {
          assert (head + rest)[i] == rest[i - |head|];
        }
      }
    }
  }

  lemma {:induction false} GatherAppend<T, U>(f: T -> seq<U>, a: seq<T>, b: seq<T>)
    ensures Gather(f, a + b) == Gather(f, a) + Gather(f, b)
  {
    if a != [] {
      assert (a + b)[0] == a[0] && (a + b)[1..] == a[1..] + b;
      GatherAppend(f, a[1..], b);
      assert Gather(f, a + b) == f(a[0]) + (Gather(f, a[1..]) + Gather(f, b));
    } else {
      assert a + b == b;
    }
  }

  /** What one raw line contributes: itself stripped, when the filter keeps it. */
  function KeptLine(raw: string): seq<string> {
    if KeepsLine(raw) then [Strip(raw)] else []
  }

  /** The comprehension in `read_config_file`: kept lines, stripped, in file order. */
  function ConfigLines(raw: seq<string>): seq<string> {
    Gather(KeptLine, raw)
  }

  /** A line fit to use: not empty, no surrounding whitespace. */
  predicate CleanLine(line: string) { line != "" && Stripped(line) }

  /** Every line the filter keeps is non-empty and has no surrounding whitespace; there are no more of them than raw lines. */
  lemma ConfigLinesClean(raw: seq<string>)
    ensures |ConfigLines(raw)| <= |raw|
    ensures forall k :: 0 <= k < |ConfigLines(raw)| ==> CleanLine(ConfigLines(raw)[k])
  {
    GatherEach(KeptLine, raw, CleanLine);
  }

  /** The filter treats each line on its own: filtering a file is filtering its parts. */
  lemma ConfigLinesAppend(a: seq<string>, b: seq<string>)
    ensures ConfigLines(a + b) == ConfigLines(a) + ConfigLines(b)
  {
    GatherAppend(KeptLine, a, b);
  }

  /** A single line is kept, stripped, exactly when it is not blank and does not start with `#`. */
  lemma ConfigLinesOfOneLine(raw: string)
    ensures ConfigLines([raw]) == (if Strip(raw) != "" && !(|raw| > 0 && raw[0] == '#') then [Strip(raw)] else [])
  {
    GatherOne(KeptLine, raw);
  }

  /**
   * The `#` test looks at the unstripped line: a comment indented by whitespace is kept,
   * and what is kept starts with `#`.
   */
  lemma IndentedCommentKept(indent: string, rest: string)
    requires |indent| > 0 && AllSpace(indent)
    ensures ConfigLines([indent + "#" + rest]) != [] && ConfigLines([indent + "#" + rest])[0] != ""
    ensures ConfigLines([indent + "#" + rest])[0][0] == '#'
  {
    var raw := indent + "#" + rest;
    assert raw[|indent|] == '#';
    assert forall k :: 0 <= k < |indent| ==> IsSpace(raw[k]) by {
      forall k | 0 <= k < |indent| ensures IsSpace(raw[k]) { assert raw[k] == indent[k]; }
    }
    StripFirst(raw, |indent|);
    assert raw[0] != '#';
    ConfigLinesOfOneLine(raw);
  }

  /** The stripped comma-separated fields, `[p.strip() for p in line.split(",")]`. */
  function Fields(line: string): (f: seq<string>)
    ensures |f| >= 1
  {
    var parts := Split(line, ',');
    seq(|parts|, k requires 0 <= k < |parts| => Strip(parts[k]))
  }

  /**
   * `parse_dns_server_line`: the stripped comma fields become a descriptor, with the type
   * lower-cased; `None` on the rejections that `ParseServerLineCases` lists.
   */
  function ParseServerLine(line: string): Option<ServerInfo> {
    var f := Fields(line);
    if |f| < 3 then None
    else
      var name, typeStr, address := f[0], Lower(f[1]), f[2];
      match TransportNamed(typeStr)
      case None => None
      case Some(t) =>
        if |f| > 3 && f[3] != "" then
          match ParseInt(f[3])
          case None => None
          case Some(p) => Some(ServerInfo(name, t, address, Some(p)))
        else Some(ServerInfo(name, t, address, None))
  }

  /**
   * A line is rejected exactly for fewer than three fields, an unknown type (compared after
   * lower-casing) or a non-empty fourth field that `int()` rejects. An accepted line keeps
   * name and address, and has port `None` exactly when the fourth field is missing or empty.
   */
  lemma ParseServerLineCases(line: string)
    ensures var f, r := Fields(line), ParseServerLine(line);
      r.None? <==> (|f| < 3 || TransportNamed(Lower(f[1])).None?
                    || (|f| > 3 && f[3] != "" && ParseInt(f[3]).None?))
    ensures var f, r := Fields(line), ParseServerLine(line);
      r.Some? ==> && r.value.name == f[0] && r.value.address == f[2]
                  && TypeName(r.value.transport) == Lower(f[1])
                  && (r.value.port.None? <==> |f| == 3 || f[3] == "")
                  && (r.value.port.Some? ==> ParseInt(f[3]) == r.value.port)
  {
  }

  /** A server line as a configuration file would spell it, the inverse of the parser. */
  function FormatServerLine(s: ServerInfo): string {
    Join(LineFields(s), ',')
  }

  function LineFields(s: ServerInfo): seq<string> {
    [s.name, TypeName(s.transport), s.address] + (if s.port.Some? then [IntToString(s.port.value)] else [])
  }

  lemma IntToStringStripped(n: int)
    ensures IntToString(n) != [] && Stripped(IntToString(n)) && ',' !in IntToString(n)
  {
    var d := NatToString(if n < 0 then -n else n);
    assert !IsSpace(d[0]) && !IsSpace(d[|d| - 1]);
    if n < 0 { assert IntToString(n) == ['-'] + d; }
  }

  lemma FieldsOfJoin(fields: seq<string>)
    requires |fields| >= 1
    requires forall k :: 0 <= k < |fields| ==> ',' !in fields[k] && Stripped(fields[k])
    ensures Fields(Join(fields, ',')) == fields
  {
    SplitJoin(fields, ',');
    var f := Fields(Join(fields, ','));
    forall k | 0 <= k < |f| ensures f[k] == fields[k] {
      StripOfStripped(fields[k]);
    }
  }

  lemma LineFieldsFit(s: ServerInfo)
    requires ',' !in s.name && ',' !in s.address
    requires Stripped(s.name) && Stripped(s.address)
    ensures var fields := LineFields(s);
      |fields| >= 3 && forall k :: 0 <= k < |fields| ==> ',' !in fields[k] && Stripped(fields[k])
  {
    if s.port.Some? { IntToStringStripped(s.port.value); }
  }

  /** The fourth field written for a port reads back as that port. */
  lemma PortFieldReads(s: ServerInfo)
    ensures var fields := LineFields(s);
      (|fields| > 3 <==> s.port.Some?) && (|fields| > 3 ==> fields[3] != "" && ParseInt(fields[3]) == s.port)
  {
    if s.port.Some? {
      IntToStringStripped(s.port.value);
      IntToStringRoundTrip(s.port.value);
    }
  }

  /** Every descriptor whose name and address are comma-free and stripped survives a write and re-read. */
  lemma ParseFormatRoundTrip(s: ServerInfo)
    requires ',' !in s.name && ',' !in s.address
    requires Stripped(s.name) && Stripped(s.address)
    ensures ParseServerLine(FormatServerLine(s)) == Some(s)
  {
    var fields := LineFields(s);
    var line := FormatServerLine(s);
    LineFieldsFit(s);
    FieldsOfJoin(fields);
    assert Fields(line) == fields;
    TypeNameIsLowercase(s.transport);
    TransportNamedTypeName(s.transport);
    PortFieldReads(s);
    ParseServerLineCases(line);
  }

  function AsList(o: Option<ServerInfo>): seq<ServerInfo> {
    match o
    case Some(s) => [s]
    case None => []
  }

  /** What one server line contributes: its descriptor, when it parses. */
  function ServerOf(line: string): seq<ServerInfo> {
    AsList(ParseServerLine(line))
  }

  /** `servers_to_test`: the descriptors of the lines that parse, in file order. */
  function ValidServers(lines: seq<string>): seq<ServerInfo> {
    Gather(ServerOf, lines)
  }

  /** A single line gives its descriptor when it parses and nothing otherwise. */
  lemma ValidServersOfOneLine(line: string)
    ensures ValidServers([line]) == (match ParseServerLine(line) case Some(s) => [s] case None => [])
  {
    GatherOne(ServerOf, line);
  }

  /** Bad lines are skipped one by one: the list of a file is the list of its parts. */
  lemma ValidServersAppend(a: seq<string>, b: seq<string>)
    ensures ValidServers(a + b) == ValidServers(a) + ValidServers(b)
  {
    GatherAppend(ServerOf, a, b);
  }

  /**
   * A servers file of one formatted line, for a descriptor without a port whose name does
   * not start a comment: the filter keeps the line as it is, and it gives that descriptor.
   */
  lemma OneServerFile(s: ServerInfo)
    requires s.port.None? && s.name != "" && s.name[0] != '#'
    requires ',' !in s.name && ',' !in s.address && Stripped(s.name) && Stripped(s.address)
    ensures ConfigLines([FormatServerLine(s)]) == [FormatServerLine(s)]
    ensures ValidServers(ConfigLines([FormatServerLine(s)])) == [s]
  {
    var line := FormatServerLine(s);
    var tail := TypeName(s.transport) + [','] + s.address;
    var fields := [s.name, TypeName(s.transport), s.address];
    assert LineFields(s) == fields;
    assert fields[1..] == [TypeName(s.transport), s.address] && fields[1..][1..] == [s.address];
    assert Join(fields[1..], ',') == tail;
    assert line == s.name + [','] + tail;
    assert line[0] == s.name[0];
    assert line[|line| - 1] == if s.address == [] then ',' else s.address[|s.address| - 1];
    StripOfStripped(line);
    ConfigLinesOfOneLine(line);
    ParseFormatRoundTrip(s);
    ValidServersOfOneLine(line);
  }
}
