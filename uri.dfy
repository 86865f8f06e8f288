/**
 * The part of `urllib.parse.urlparse` that the DoH branch uses: the `hostname` and `port`
 * of a URI. The authority is split in the manner of RFC 3986, section 3.2: user information
 * ends at the last `@` (section 3.2.1), the host runs to the first `:` (section 3.2.2) and
 * the port follows it (section 3.2.3).
 */
module Uri {
  import opened Wrappers
  import opened Text

  predicate IsSchemeChar(c: char) {
    IsAsciiLetter(c) || IsDigit(c) || c == '+' || c == '-' || c == '.'
  }

  /** The characters that end the authority: start of path, query or fragment. */
  predicate EndsAuthority(c: char) { c == '/' || c == '?' || c == '#' }

  /** Text after `scheme:` when the URI opens with a scheme (a letter, then scheme characters, then `:`). */
  function AfterScheme(url: string): (rest: string)
    ensures |rest| <= |url| && rest == url[|url| - |rest|..]
  {
    if ':' in url then
      var i := IndexOf(url, ':');
      if i > 0 && IsAsciiLetter(url[0]) && (forall k :: 0 <= k < i ==> IsSchemeChar(url[k]))
      then url[i + 1..] else url
    else url
  }

  /** First index at or after `from` where the authority ends. */
  function AuthorityEnd(s: string, from: nat): (e: nat)
    requires from <= |s|
    ensures from <= e <= |s|
    ensures forall k :: from <= k < e ==> !EndsAuthority(s[k])
    ensures e == |s| || EndsAuthority(s[e])
    decreases |s| - from
  {
    if from == |s| || EndsAuthority(s[from]) then from else AuthorityEnd(s, from + 1)
  }

  /** `netloc`: what follows `//` up to the path, query or fragment; empty without `//`. */
  function Netloc(url: string): string {
    var rest := AfterScheme(url);
    if |rest| >= 2 && rest[0] == '/' && rest[1] == '/' then rest[2..AuthorityEnd(rest, 2)] else ""
  }

  /** The authority without user information: after the last `@`. */
  function HostInfo(url: string): string {
    var n := Netloc(url);
    if '@' in n then n[LastIndexOf(n, '@') + 1..] else n
  }

  /** Host text: up to the first `:` of the host information. */
  function HostOf(h: string): string {
    if ':' in h then h[..IndexOf(h, ':')] else h
  }

  /** Port text: after the first `:` of the host information, empty without one. */
  function PortOf(h: string): string {
    if ':' in h then h[IndexOf(h, ':') + 1..] else ""
  }

  function HostText(url: string): string { HostOf(HostInfo(url)) }

  function PortText(url: string): string { PortOf(HostInfo(url)) }

  /** `urlparse(url).hostname`: the lower-cased host, `None` when it is empty. */
  function Hostname(url: string): Option<string> {
    var h := HostText(url);
    if h == "" then None else Some(Lower(h))
  }

  /** What `urlparse(url).port` gives: nothing, a number, or a `ValueError`. */
  datatype UriPort = NoPort | PortNumber(number: nat) | InvalidPort(text: string)

  /** `urlparse(url).port`: ASCII digits in 0..65535, or `ValueError` for anything else. */
  function Port(url: string): (p: UriPort)
    ensures p.PortNumber? ==> p.number <= 65535
    ensures p.NoPort? <==> PortText(url) == ""
  {
    var t := PortText(url);
    if t == "" then NoPort
    else if AllDigits(t) && NatValue(t) <= 65535 then PortNumber(NatValue(t))
    else InvalidPort(t)
  }

  /** The `:port` suffix of an authority. */
  function PortSuffix(port: Option<nat>): string {
    if port.Some? then ":" + NatToString(port.value) else ""
  }

  lemma AfterSchemeOf(scheme: string, rest: string)
    requires |scheme| > 0 && IsAsciiLetter(scheme[0])
    requires forall k :: 0 <= k < |scheme| ==> IsSchemeChar(scheme[k])
    ensures AfterScheme(scheme + ":" + rest) == rest
  {
    var tail := ":" + rest;
    var url := scheme + tail;
    assert scheme + ":" + rest == url;
    assert ':' !in scheme by {
      forall k | 0 <= k < |scheme| ensures scheme[k] != ':' { assert IsSchemeChar(scheme[k]); }
    }
    assert tail[0] == ':';
    IndexOfAfter(scheme, tail, ':');
    assert IndexOf(url, ':') == |scheme|;
    assert forall k :: 0 <= k < |scheme| ==> IsSchemeChar(url[k]) by {
      forall k | 0 <= k < |scheme| ensures IsSchemeChar(url[k]) { assert url[k] == scheme[k]; }
    }
    assert url[0] == scheme[0];
    assert url[|scheme| + 1..] == rest;
  }

  /** The authority ends at the first character that ends it. */
  lemma AuthorityEndAt(s: string, from: nat, e: nat)
    requires from <= e <= |s|
    requires forall k :: from <= k < e ==> !EndsAuthority(s[k])
    requires e == |s| || EndsAuthority(s[e])
    ensures AuthorityEnd(s, from) == e
  {
  }

  /** The text after `scheme:` that opens with `//` gives the authority up to the path. */
  lemma NetlocOfRest(url: string, rest: string, auth: string, path: string)
    requires AfterScheme(url) == rest && rest == "//" + auth + path
    requires forall k :: 0 <= k < |auth| ==> !EndsAuthority(auth[k])
    requires path == [] || EndsAuthority(path[0])
    ensures Netloc(url) == auth
  {
    assert rest[0] == '/' && rest[1] == '/';
    assert forall k :: 2 <= k < 2 + |auth| ==> rest[k] == auth[k - 2];
    assert 2 + |auth| == |rest| || rest[2 + |auth|] == path[0];
    AuthorityEndAt(rest, 2, 2 + |auth|);
    assert rest[2..2 + |auth|] == auth;
  }

  lemma NetlocOf(scheme: string, auth: string, path: string)
    requires |scheme| > 0 && IsAsciiLetter(scheme[0])
    requires forall k :: 0 <= k < |scheme| ==> IsSchemeChar(scheme[k])
    requires forall k :: 0 <= k < |auth| ==> !EndsAuthority(auth[k])
    requires path == [] || EndsAuthority(path[0])
    ensures Netloc(scheme + "://" + auth + path) == auth
  {
    var url := scheme + "://" + auth + path;
    var rest := "//" + auth + path;
    assert url == scheme + ":" + rest;
    AfterSchemeOf(scheme, rest);
    NetlocOfRest(url, rest, auth, path);
  }

  lemma PortSuffixChars(port: Option<nat>)
    ensures forall k :: 0 <= k < |PortSuffix(port)| ==> PortSuffix(port)[k] == ':' || IsDigit(PortSuffix(port)[k])
  {
    var ps := PortSuffix(port);
    if port.Some? {
      var d := NatToString(port.value);
      forall k | 0 <= k < |ps| ensures ps[k] == ':' || IsDigit(ps[k]) {
        if k > 0 { assert ps[k] == d[k - 1]; }
      }
    }
  }

  /**
   * Composing `scheme://host[:port]path` and parsing it back gives the host (lower-cased)
   * and the port: the decomposition the DoH branch relies on is unambiguous.
   */
  lemma AuthorityRoundTrip(scheme: string, host: string, port: Option<nat>, path: string)
    requires |scheme| > 0 && IsAsciiLetter(scheme[0])
    requires forall k :: 0 <= k < |scheme| ==> IsSchemeChar(scheme[k])
    requires host != []
    requires forall k :: 0 <= k < |host| ==> host[k] != ':' && host[k] != '@' && !EndsAuthority(host[k])
    requires port.Some? ==> port.value <= 65535
    requires path == [] || EndsAuthority(path[0])
    ensures var url := scheme + "://" + host + PortSuffix(port) + path;
      Hostname(url) == Some(Lower(host))
      && Port(url) == (if port.Some? then PortNumber(port.value) else NoPort)
  {
    var ps := PortSuffix(port);
    var auth := host + ps;
    var url := scheme + "://" + host + ps + path;
    assert forall k :: 0 <= k < |auth| ==> auth[k] != '@' && !EndsAuthority(auth[k]) by {
      PortSuffixChars(port);
      forall k | 0 <= k < |auth| ensures auth[k] != '@' && !EndsAuthority(auth[k]) {
        if k >= |host| { assert auth[k] == ps[k - |host|]; }
      }
    }
    assert Netloc(url) == auth by {
      assert url == scheme + "://" + auth + path;
      NetlocOf(scheme, auth, path);
    }
    assert HostInfo(url) == auth;
    SplitHostPort(host, port);
    if port.Some? { NatValueOfNatToString(port.value); }
  }

  lemma SplitHostPort(host: string, port: Option<nat>)
    requires forall k :: 0 <= k < |host| ==> host[k] != ':'
    ensures HostOf(host + PortSuffix(port)) == host
    ensures PortOf(host + PortSuffix(port)) == if port.Some? then NatToString(port.value) else ""
  {
    var ps := PortSuffix(port);
    var auth := host + ps;
    if port.Some? {
      var d := NatToString(port.value);
      assert ps == ":" + d;
      IndexOfAfter(host, ps, ':');
      assert auth[..|host|] == host;
      assert auth[|host| + 1..] == d;
    } else {
      assert auth == host;
    }
  }

  /** Without a scheme and without `//` there is no authority, and so no hostname. */
  lemma NoAuthorityNoHost(url: string)
    requires ':' !in url && (url == "" || url[0] != '/')
    ensures Netloc(url) == "" && Hostname(url).None?
  {
    assert AfterScheme(url) == url;
  }
}
