/** Server URLs and account URIs: what src/transport.c and src/account.c print is
  read back as what was meant, and exactly when. */
module Urls {
  import opened History
  import opened CStrings
  import opened Decimal
  import opened DnsLookup

  const HOST_SIZE: nat := 256
  const USER_SIZE: nat := 64

  // ---------------------------------------------------------------------
  // C string scanning
  // ---------------------------------------------------------------------

  /** strchr: the first `c`, or the length. */
  function Index(s: string, c: char): (k: nat)
    ensures k <= |s| && (k < |s| <==> c in s) && (k < |s| ==> s[k] == c)
    ensures c !in s[..k]
  {
    if s == [] || s[0] == c then 0
    else
      assert s == [s[0]] + s[1..];
      var k := Index(s[1..], c);
      assert s[..k + 1] == [s[0]] + s[1..][..k];
      k + 1
  }

  lemma IndexIs(s: string, c: char, k: nat)
    requires k <= |s| && c !in s[..k] && (k < |s| ==> s[k] == c)
    ensures Index(s, c) == k
  {
    var f := Index(s, c);
    assert forall i :: 0 <= i < k ==> s[..k][i] == s[i];
    assert forall i :: 0 <= i < f ==> s[..f][i] == s[i];
    assert forall i :: 0 <= i < k ==> s[i] != c;
    assert forall i :: 0 <= i < f ==> s[i] != c;
  }

  predicate StartsWith(s: string, p: string) {
    |s| >= |p| && s[..|p|] == p
  }

  /** strncasecmp with a lower-case prefix. */
  predicate StartsWithCase(s: string, p: string) {
    |s| >= |p| && forall i :: 0 <= i < |p| ==> Lower(s[i]) == p[i]
  }

  /** strstr: the first occurrence of `p`, or nothing. */
  function Find(s: string, p: string): (r: Option<nat>)
    ensures r.Some? ==> r.value <= |s| && StartsWith(s[r.value..], p)
  {
    if StartsWith(s, p) then Some(0)
    else if s == [] then None
    else
      match Find(s[1..], p)
      case None => None
      case Some(k) => assert s[1..][k..] == s[k + 1..]; Some(k + 1)
  }

  // ---------------------------------------------------------------------
  // Server URLs
  // ---------------------------------------------------------------------

  datatype Server = Server(transport: Transport, host: string, port: nat, path: string)

  function TransportName(t: Transport): string {
    match t
    case Udp => "udp"
    case Tcp => "tcp"
    case Tls => "tls"
    case Ws => "ws"
    case Wss => "wss"
  }

  const PARAM := ";transport="

  /** The scheme's transport and what follows it. */
  function Schemed(url: string): (Transport, string) {
    if StartsWith(url, "wss://") then (Wss, url[6..])
    else if StartsWith(url, "ws://") then (Ws, url[5..])
    else if StartsWith(url, "sips:") then (Tls, SkipSlashes(url[5..]))
    else if StartsWith(url, "sip:") then (Udp, SkipSlashes(url[4..]))
    else (Udp, url)
  }

  function SkipSlashes(s: string): string {
    if StartsWith(s, "//") then s[2..] else s
  }

  /** The value of a transport parameter; an unknown one changes nothing. */
  function Named(v: string, otherwise: Transport): Transport {
    if StartsWithCase(v, "wss") then Wss
    else if StartsWithCase(v, "ws") then Ws
    else if StartsWithCase(v, "tls") then Tls
    else if StartsWithCase(v, "tcp") then Tcp
    else if StartsWithCase(v, "udp") then Udp
    else otherwise
  }

  function Overridden(rest: string, t: Transport): Transport {
    match Find(rest, PARAM)
    case None => t
    case Some(k) => Named(rest[k + |PARAM|..], t)
  }

  /** What comes after the first '@' of the authority. */
  function SkipUser(authority: string): string {
    if '@' in authority then authority[Index(authority, '@') + 1..] else authority
  }

  /** Everything before the first slash or semicolon. */
  function AuthorityOf(rest: string): string {
    var slash, semi := Index(rest, '/'), Index(rest, ';');
    rest[..if slash < semi then slash else semi]
  }

  /** From the slash on, unless a parameter comes first or nothing follows. */
  function PathOf(rest: string): string {
    var slash, semi := Index(rest, '/'), Index(rest, ';');
    if slash < semi && slash + 1 < |rest| && rest[slash + 1] != ';' then rest[slash..] else ""
  }

  function ReadHost(authority: string): string {
    Take(authority[..Index(authority, ':')], HOST_SIZE)
  }

  /** vox_parse_server_url with 256-byte buffers. The number after the colon is
    read from the URL itself, past the end of the authority. */
  function ParseServer(url: string): Server {
    var (scheme, rest) := Schemed(url);
    var t := Overridden(rest, scheme);
    var authority := AuthorityOf(rest);
    var hostPort := SkipUser(authority);
    var colon := Index(hostPort, ':');
    var port :=
      if colon < |hostPort| then ReadPort(rest[|authority| - |hostPort| + colon + 1..]) else 0;
    Server(t, ReadHost(hostPort), if port == 0 then DefaultPort(t) else port, Take(PathOf(rest), HOST_SIZE))
  }

  function PrintServer(host: string, port: nat, t: Transport): string {
    "sip:" + host + ":" + Print(port) + PARAM + TransportName(t)
  }

  /** vox_build_outbound into a buffer of `size` bytes. */
  function BuildOutbound(url: Option<string>, host: string, port: nat, t: Transport, size: nat): string
    requires size > 0
  {
    match url
    case Some(u) =>
      var s := ParseServer(u);
      Take(PrintServer(s.host, s.port, s.transport), size)
    case None => Take(PrintServer(Take(host, HOST_SIZE), if port == 0 then DefaultPort(t) else port, t), size)
  }

  predicate Plain(host: string) {
    ':' !in host && ';' !in host && '/' !in host && '@' !in host
  }

  /** The number and parameter that follow the host. */
  function Suffix(port: nat, t: Transport): string {
    ":" + Print(port) + PARAM + TransportName(t)
  }

  lemma NameReads(t: Transport, otherwise: Transport)
    ensures Named(TransportName(t), otherwise) == t
  {
    match t
    case Udp =>
      assert "udp"[0] == 'u';
    case Tcp =>
      assert "tcp"[0] == 't' && "tcp"[1] == 'c';
    case Tls =>
      assert "tls"[0] == 't';
    case Ws =>
    case Wss =>
  }

  lemma {:induction false} FindFirst(a: string, p: string, b: string)
    requires p != [] && p[0] !in a
    ensures Find(a + p + b, p) == Some(|a|)
  {
    var s := a + p + b;
    if a == [] {
      assert s[..|p|] == p;
    } else {
      assert s[0] == a[0] != p[0];
      assert s[1..] == a[1..] + p + b;
      assert a[0] in a && forall c :: c in a[1..] ==> c in a;
      FindFirst(a[1..], p, b);
      assert !StartsWith(s, p);
    }
  }

  lemma Differs(s: string, p: string, i: nat)
    requires i < |p| && i < |s| && s[i] != p[i]
    ensures !StartsWith(s, p)
  {
    if |s| >= |p| { assert s[..|p|][i] == s[i]; }
  }

  lemma SchemePrinted(rest: string)
    requires !StartsWith(rest, "//")
    ensures Schemed("sip:" + rest) == (Udp, rest)
  {
    var url := "sip:" + rest;
    assert url[0] == 's' && url[3] == ':' && url[..4] == "sip:" && url[4..] == rest;
    Differs(url, "sips:", 3);
    Differs(url, "ws://", 0);
    Differs(url, "wss://", 0);
  }

  lemma OverridePrinted(authority: string, t: Transport)
    requires ';' !in authority
    ensures Overridden(authority + PARAM + TransportName(t), Udp) == t
  {
    hide Named, TransportName;
    var rest := authority + PARAM + TransportName(t);
    FindFirst(authority, PARAM, TransportName(t));
    assert rest[|authority| + |PARAM|..] == TransportName(t);
    NameReads(t, Udp);
  }

  lemma AuthorityPrinted(authority: string, tail: string)
    requires ';' !in authority && '/' !in authority && '/' !in tail && tail != [] && tail[0] == ';'
    ensures AuthorityOf(authority + tail) == authority && PathOf(authority + tail) == ""
  {
    var rest := authority + tail;
    assert rest[..|authority|] == authority && rest[|authority|] == ';';
    IndexIs(rest, ';', |authority|);
    assert '/' !in rest;
  }

  lemma TailHasNoSlash(t: Transport)
    ensures '/' !in PARAM + TransportName(t)
  {
  }

  /** What the scanner sees in printed text. */
  lemma PrintedParts(host: string, port: nat, t: Transport)
    requires '/' !in host && ';' !in host && ':' !in host
    ensures Schemed(PrintServer(host, port, t)) == (Udp, host + Suffix(port, t))
    ensures AuthorityOf(host + Suffix(port, t)) == host + ":" + Print(port)
    ensures PathOf(host + Suffix(port, t)) == ""
    ensures Overridden(host + Suffix(port, t), Udp) == t
  {
    hide Schemed, AuthorityOf, PathOf, Overridden, Print, TransportName, StartsWith;
    var rest, authority, name := host + Suffix(port, t), host + ":" + Print(port), TransportName(t);
    DigitsAreNotDelimiters(port);
    assert ';' !in authority && '/' !in authority;
    assert rest == authority + PARAM + name == authority + (PARAM + name);
    assert PrintServer(host, port, t) == "sip:" + rest;
    FirstTwo(host, Suffix(port, t));
    SchemePrinted(rest);
    OverridePrinted(authority, t);
    TailHasNoSlash(t);
    AuthorityPrinted(authority, PARAM + name);
  }

  lemma FirstTwo(host: string, suffix: string)
    requires '/' !in host && suffix != [] && suffix[0] == ':'
    ensures !StartsWith(host + suffix, "//")
  {
    var s := host + suffix;
    assert s[0] == if host == [] then ':' else host[0];
    Differs(s, "//", 0);
  }

  /** The printed text reads back as what was printed. */
  lemma PrintedReadsBack(host: string, port: nat, t: Transport)
    requires Plain(host) && |host| < HOST_SIZE && 0 < port < 0x1_0000
    ensures ParseServer(PrintServer(host, port, t)) == Server(t, host, port, "")
  {
    hide Schemed, AuthorityOf, PathOf, Overridden, ReadPort, Print, TransportName, PrintServer;
    PrintedParts(host, port, t);
    var rest, authority := host + Suffix(port, t), host + ":" + Print(port);
    DigitsAreNotDelimiters(port);
    assert '@' !in authority;
    assert authority[..|host|] == host && authority[|host|] == ':';
    IndexIs(authority, ':', |host|);
    var tail := PARAM + TransportName(t);
    assert rest[|host| + 1..] == Print(port) + tail;
    ReadBack(port, tail);
  }

  /** The text for any host of an account, its terminator included, fits 280
    bytes. */
  lemma PrintedLength(host: string, port: nat, t: Transport)
    requires |host| < HOST_SIZE && port < 0x1_0000
    ensures |PrintServer(host, port, t)| < 280
  {
    assert Power10(5) == 100000;
    PortLength(port, 5);
  }

  /** Reading what the SDK builds for a host and a port gives them back with the
    transport and no path, the transport's default standing for port 0, if and
    only if the host has no delimiter. */
  lemma {:induction false} OutboundRoundTripExactly(host: string, port: nat, t: Transport, size: nat)
    requires |host| < HOST_SIZE && port < 0x1_0000 && size >= 280
    ensures ParseServer(BuildOutbound(None, host, port, t, size))
         == Server(t, host, if port == 0 then DefaultPort(t) else port, "")
         <==> Plain(host)
  {
    hide ParseServer, PrintServer;
    var used := if port == 0 then DefaultPort(t) else port;
    PrintedLength(host, used, t);
    if Plain(host) {
      PrintedReadsBack(host, used, t);
    } else {
      ParsedHostIsPlain(PrintServer(host, used, t));
      if ':' !in host && ';' !in host && '/' !in host { SecondUserIsLost(host, used, t); }
    }
  }

  lemma DigitsAreNotDelimiters(n: nat)
    ensures '@' !in Print(n) && ':' !in Print(n) && ';' !in Print(n) && '/' !in Print(n)
  {
  }

  lemma AuthorityIsClean(rest: string)
    ensures ';' !in AuthorityOf(rest) && '/' !in AuthorityOf(rest)
  {
    var authority := AuthorityOf(rest);
    assert authority == rest[..Index(rest, ';')][..|authority|];
    assert authority == rest[..Index(rest, '/')][..|authority|];
  }

  lemma ParsedHostIsPlain(url: string)
    ensures var s := ParseServer(url); |s.host| < HOST_SIZE && 0 < s.port < 0x1_0000
    ensures var h := ParseServer(url).host; ':' !in h && ';' !in h && '/' !in h
  {
    hide Schemed, AuthorityOf, PathOf, Overridden, ReadPort;
    var (_, rest) := Schemed(url);
    var authority := AuthorityOf(rest);
    AuthorityIsClean(rest);
    var hostPort := SkipUser(authority);
    assert forall c :: c in hostPort ==> c in authority;
    var host := hostPort[..Index(hostPort, ':')];
    assert ':' !in host && forall c :: c in host ==> c in hostPort;
    assert forall c :: c in Take(host, HOST_SIZE) ==> c in host;
  }

  /** For a server URL, reading what the SDK prints for it gives the same
    transport, host and port if and only if the host it reads has no '@'. */
  lemma {:induction false} OutboundFromUrlExactly(url: string, size: nat)
    requires size >= 280
    ensures ParseServer(BuildOutbound(Some(url), "", 0, Udp, size)) == ParseServer(url).(path := "")
            <==> '@' !in ParseServer(url).host
  {
    hide ParseServer, PrintServer;
    var s := ParseServer(url);
    ParsedHostIsPlain(url);
    PrintedLength(s.host, s.port, s.transport);
    if '@' !in s.host {
      PrintedReadsBack(s.host, s.port, s.transport);
    } else {
      SecondUserIsLost(s.host, s.port, s.transport);
    }
  }

  /** A URL with two '@': its host is read as "b@c", and read back as "c". */
  lemma {:induction false} TwoUsersDoNotSurvive()
    ensures ParseServer("ws://a@b@c").host == "b@c"
    ensures ParseServer(BuildOutbound(Some("ws://a@b@c"), "", 0, Udp, 280)) != ParseServer("ws://a@b@c").(path := "")
  {
    hide ParseServer, BuildOutbound;
    SchemeOfWs("a@b@c");
    HostOfTwoUsers();
    OutboundFromUrlExactly("ws://a@b@c", 280);
  }

  lemma SchemeOfWs(rest: string)
    ensures Schemed("ws://" + rest) == (Ws, rest)
  {
    var url := "ws://" + rest;
    assert url[2] == ':' && url[..5] == "ws://" && url[5..] == rest;
    Differs(url, "wss://", 2);
  }

  lemma HostOfTwoUsers()
    ensures ParseServer("ws://a@b@c").host == "b@c"
  {
    hide Overridden, ReadPort, PathOf, Schemed;
    var rest := "a@b@c";
    assert "ws://a@b@c" == "ws://" + rest;
    SchemeOfWs(rest);
    assert rest[..5] == rest;
    IndexIs(rest, '/', 5);
    IndexIs(rest, ';', 5);
    assert AuthorityOf(rest) == rest;
    assert rest[..1] == "a" && rest[1] == '@' && rest[2..] == "b@c";
    IndexIs(rest, '@', 1);
    var host := "b@c";
    assert host[..3] == host;
    IndexIs(host, ':', 3);
  }

  /** A host that still holds an '@' loses its head on the way back. */
  lemma SecondUserIsLost(host: string, port: nat, t: Transport)
    requires '@' in host && '/' !in host && ';' !in host && ':' !in host
    ensures |ParseServer(PrintServer(host, port, t)).host| < |host|
  {
    hide Schemed, PathOf, Overridden, ReadPort, Print, AuthorityOf, PrintServer, TransportName, DefaultPort;
    PrintedParts(host, port, t);
    var authority := host + ":" + Print(port);
    var at := Index(host, '@');
    assert authority[..at] == host[..at] && authority[at] == '@';
    IndexIs(authority, '@', at);
    var rest := SkipUser(authority);
    assert rest == host[at + 1..] + ":" + Print(port);
    assert rest[..|host| - at - 1] == host[at + 1..];
    IndexIs(rest, ':', |host| - at - 1);
  }

  // ---------------------------------------------------------------------
  // URLs as they are written
  // ---------------------------------------------------------------------

  /** How a transport is asked for by scheme; TCP has none. */
  function SchemeFor(t: Transport): string
    requires !t.Tcp?
  {
    match t
    case Udp => "sip:"
    case Tls => "sips:"
    case Ws => "ws://"
    case Wss => "wss://"
  }

  /** A server URL; port 0 is left out. */
  function UrlText(t: Transport, host: string, port: nat, path: string): string
    requires !t.Tcp?
  {
    SchemeFor(t) + (AuthorityText(host, port) + path)
  }

  function AuthorityText(host: string, port: nat): string {
    host + if port == 0 then "" else ":" + Print(port)
  }

  /** Nothing, or a slash and something, without parameters. */
  predicate PathText(path: string) {
    path == "" || (2 <= |path| < HOST_SIZE && path[0] == '/' && ';' !in path)
  }

  lemma SchemeReads(t: Transport, rest: string)
    requires !t.Tcp? && !StartsWith(rest, "//")
    ensures Schemed(SchemeFor(t) + rest) == (t, rest)
  {
    var url := SchemeFor(t) + rest;
    match t
    case Udp => SchemePrinted(rest);
    case Ws => SchemeOfWs(rest);
    case Wss => assert url[..6] == "wss://" && url[6..] == rest;
    case Tls =>
      assert url[0] == 's' && url[..5] == "sips:" && url[5..] == rest;
      Differs(url, "ws://", 0);
      Differs(url, "wss://", 0);
  }

  lemma {:induction false} FindNone(s: string, p: string)
    requires p != [] && p[0] !in s
    ensures Find(s, p) == None
  {
    if s != [] {
      assert forall c :: c in s[1..] ==> c in s;
      FindNone(s[1..], p);
      if |s| >= |p| { assert s[..|p|][0] == s[0]; }
    }
  }

  lemma PathReads(authority: string, path: string)
    requires ';' !in authority && '/' !in authority && PathText(path)
    ensures AuthorityOf(authority + path) == authority && PathOf(authority + path) == path
    ensures Overridden(authority + path, Udp) == Udp && forall t :: Overridden(authority + path, t) == t
  {
    var rest := authority + path;
    assert ';' !in rest;
    IndexIs(rest, ';', |rest|) by { assert rest[..|rest|] == rest; }
    assert rest[..|authority|] == authority;
    IndexIs(rest, '/', |authority|);
    assert rest[|authority|..] == path;
    assert PARAM[0] == ';';
    FindNone(rest, PARAM);
  }

  lemma AuthorityReads(host: string, port: nat, path: string)
    requires Plain(host) && port < 0x1_0000 && PathText(path)
    ensures var authority := AuthorityText(host, port);
            && ';' !in authority && '/' !in authority && '@' !in authority
            && Index(authority, ':') == |host| && authority[..|host|] == host
            && (|host| < |authority| <==> port != 0)
            && (port != 0 ==> ReadPort((authority + path)[|host| + 1..]) == port)
  {
    hide ReadPort, Print;
    var authority := AuthorityText(host, port);
    DigitsAreNotDelimiters(port);
    PrintIsNotEmpty(port);
    assert authority[..|host|] == host;
    if port == 0 {
      assert authority == host;
    } else {
      assert authority[|host|] == ':';
      assert (authority + path)[|host| + 1..] == Print(port) + path;
      ReadBack(port, path);
    }
    IndexIs(authority, ':', |host|);
  }

  lemma PrintIsNotEmpty(n: nat)
    ensures Print(n) != []
  {
  }

  /** Every URL of the four schemes reads as what it says: the scheme's transport,
    the host, the port or the scheme's own (443, 80, 5061, 5060), and the path. */
  lemma {:induction false} UrlReads(t: Transport, host: string, port: nat, path: string)
    requires !t.Tcp? && host != "" && Plain(host) && |host| < HOST_SIZE && port < 0x1_0000 && PathText(path)
    ensures ParseServer(UrlText(t, host, port, path))
         == Server(t, host,
                   if port != 0 then port
                   else match t case Wss => 443 case Ws => 80 case Tls => 5061 case _ => 5060,
                   path)
  {
    hide Schemed, AuthorityOf, PathOf, Overridden, ReadPort, AuthorityText, Print, PathText;
    var authority := AuthorityText(host, port);
    AuthorityReads(host, port, path);
    PathReads(authority, path);
    PathIsShort(path);
    HostComesFirst(host, port, path);
    SchemeReads(t, authority + path);
  }

  lemma PathIsShort(path: string)
    requires PathText(path)
    ensures |path| < HOST_SIZE
  {
  }

  lemma HostComesFirst(host: string, port: nat, path: string)
    requires host != "" && '/' !in host
    ensures !StartsWith(AuthorityText(host, port) + path, "//")
  {
    var s := AuthorityText(host, port) + path;
    assert s[0] == host[0];
    Differs(s, "//", 0);
  }

  // ---------------------------------------------------------------------
  // Account URIs
  // ---------------------------------------------------------------------

  datatype Account = Account(user: string, host: string, port: nat)

  function Unschemed(uri: string): string {
    if StartsWithCase(uri, "sip:") then uri[4..]
    else if StartsWithCase(uri, "sips:") then uri[5..]
    else uri
  }

  /** Host and port of what follows the user; a bracketed literal ends at its
    bracket, an unclosed one is taken as it is. */
  function HostPort(hp: string): (string, nat) {
    var part := hp[..Index(hp, ';')];
    if StartsWith(part, "[") && ']' in part then
      var close := Index(part, ']');
      (Take(part[1..close], HOST_SIZE),
       if close + 1 < |part| && part[close + 1] == ':' then ReadPort(hp[close + 2..]) else 0)
    else if !StartsWith(part, "[") && ':' in part then
      var colon := Index(part, ':');
      (Take(part[..colon], HOST_SIZE), ReadPort(hp[colon + 1..]))
    else (Take(part, HOST_SIZE), 0)
  }

  /** parse_account_uri. */
  function ParseAccount(uri: string): Account {
    var s := Unschemed(uri);
    if '@' in s then
      var at := Index(s, '@');
      var (host, port) := HostPort(s[at + 1..]);
      Account(Take(s[..at], USER_SIZE), host, port)
    else if ':' in s then
      var colon := Index(s, ':');
      Account("", Take(s[..colon], HOST_SIZE), ReadPort(s[colon + 1..]))
    else Account("", Take(s, HOST_SIZE), 0)
  }

  function PrintAor(user: string, host: string): string {
    "sip:" + user + "@" + if ':' in host then "[" + host + "]" else host
  }

  /** voxsdk_account_get_aor: the address of record, if it fits. */
  function GetAor(user: string, host: string, size: nat): Option<string> {
    if |PrintAor(user, host)| < size then Some(PrintAor(user, host)) else None
  }

  /** A host that survives printing: no parameter in it, and no bracket that the
    reader would take for the end of a literal. */
  predicate Printable(host: string) {
    ';' !in host && (if ':' in host then ']' !in host else !(StartsWith(host, "[") && ']' in host))
  }

  lemma HostReads(host: string)
    requires |host| < HOST_SIZE
    ensures HostPort(if ':' in host then "[" + host + "]" else host) == (host, 0) <==> Printable(host)
  {
    hide ReadPort, HostPort;
    if ';' in host {
      SemiIsLost(if ':' in host then "[" + host + "]" else host);
    } else if ':' in host {
      var hp := "[" + host + "]";
      if ']' in host {
        assert hp[..1] == "[" && hp[|hp| - 1] == ']';
        BracketIsLost(hp);
      } else {
        assert hp + PortText(0) == hp;
        BracketedReads(host, 0);
      }
    } else if StartsWith(host, "[") && ']' in host {
      BracketIsLost(host);
    } else {
      UnclosedReads(host);
    }
  }

  lemma UnclosedReads(host: string)
    requires ';' !in host && ':' !in host && |host| < HOST_SIZE && !(StartsWith(host, "[") && ']' in host)
    ensures HostPort(host) == (host, 0)
  {
    hide ReadPort;
    assert host[..|host|] == host;
    IndexIs(host, ';', |host|);
  }

  lemma SemiIsLost(hp: string)
    ensures ';' !in HostPort(hp).0
  {
    hide ReadPort;
    var part := hp[..Index(hp, ';')];
    assert forall c :: c in HostPort(hp).0 ==> c in part;
  }

  lemma BracketIsLost(hp: string)
    requires ';' !in hp && StartsWith(hp, "[") && ']' in hp
    ensures ']' !in HostPort(hp).0
  {
    hide ReadPort;
    assert hp[..Index(hp, ';')] == hp;
    var close := Index(hp, ']');
    assert forall c :: c in hp[1..close] ==> c in hp[..close];
  }

  /** Parsing the printed address of record returns the same user and host, with
    no port, if and only if the user has no '@' and the host is printable; IPv6
    literals keep their brackets outside. */
  lemma {:induction false} AorRoundTripExactly(user: string, host: string, size: nat)
    requires |user| < USER_SIZE && |host| < HOST_SIZE && GetAor(user, host, size).Some?
    ensures ParseAccount(GetAor(user, host, size).value) == Account(user, host, 0)
            <==> '@' !in user && Printable(host)
  {
    hide HostPort, Printable;
    var hp := if ':' in host then "[" + host + "]" else host;
    var s := user + "@" + hp;
    var uri := PrintAor(user, host);
    assert uri == "sip:" + s;
    assert uri[4..] == s;
    assert StartsWithCase(uri, "sip:");
    assert s[|user|] == '@';
    if '@' in user {
      var at := Index(s, '@');
      assert '@' !in s[..at] && '@' !in Take(s[..at], USER_SIZE);
    } else {
      assert s[..|user|] == user;
      IndexIs(s, '@', |user|);
      assert s[|user| + 1..] == hp;
      HostReads(host);
    }
  }

  // ---------------------------------------------------------------------
  // Account URIs as they are written
  // ---------------------------------------------------------------------

  /** The host, in brackets when it is an IPv6 literal, and the port unless 0. */
  function HostPortText(host: string, port: nat): string {
    if ':' in host then "[" + host + "]" + PortText(port) else host + PortText(port)
  }

  /** A host that can stand there: no parameter and no bracket. */
  predicate HostText(host: string) {
    ';' !in host && '[' !in host && ']' !in host && |host| < HOST_SIZE
  }

  /** What may follow a host: nothing, or a colon and a port. */
  function PortText(port: nat): string {
    if port == 0 then "" else ":" + Print(port)
  }

  lemma PortTextIs(port: nat)
    requires port < 0x1_0000
    ensures ';' !in PortText(port) && ']' !in PortText(port)
    ensures port == 0 ==> PortText(port) == ""
    ensures port != 0 ==> |PortText(port)| > 1 && PortText(port)[0] == ':' && ReadPort(PortText(port)[1..]) == port
  {
    hide ReadPort;
    DigitsAreNotDelimiters(port);
    NoBrackets(port);
    ReadBack(port, "");
    assert Print(port) + "" == Print(port);
    if port != 0 { assert PortText(port)[1..] == Print(port); }
  }

  lemma BracketedReads(host: string, port: nat)
    requires ';' !in host && ']' !in host && |host| < HOST_SIZE && port < 0x1_0000
    ensures HostPort("[" + host + "]" + PortText(port)) == (host, port)
  {
    hide ReadPort, PortText;
    PortTextIs(port);
    var hp := "[" + host + "]" + PortText(port);
    assert ';' !in hp && hp[..|hp|] == hp;
    IndexIs(hp, ';', |hp|);
    var close := |host| + 1;
    assert hp[..close] == "[" + host && hp[close] == ']' && hp[1..close] == host;
    IndexIs(hp, ']', close);
    assert hp[close + 1..] == PortText(port);
    if port != 0 { assert hp[close + 2..] == PortText(port)[1..]; }
  }

  lemma PlainReads(host: string, port: nat)
    requires HostText(host) && ':' !in host && port < 0x1_0000
    ensures HostPort(host + PortText(port)) == (host, port)
  {
    hide ReadPort, PortText;
    PortTextIs(port);
    var hp := host + PortText(port);
    assert ';' !in hp && hp[..|hp|] == hp;
    IndexIs(hp, ';', |hp|);
    if hp != [] {
      assert hp[0] != '[';
      Differs(hp, "[", 0);
    }
    assert hp[..|host|] == host && hp[|host|..] == PortText(port);
    if port != 0 {
      assert hp[|host| + 1..] == PortText(port)[1..];
      IndexIs(hp, ':', |host|);
    }
  }

  lemma HostPortReads(host: string, port: nat)
    requires HostText(host) && port < 0x1_0000
    ensures HostPort(HostPortText(host, port)) == (host, port)
  {
    hide HostPort, PortText;
    if ':' in host { BracketedReads(host, port); } else { PlainReads(host, port); }
  }

  lemma NoBrackets(n: nat)
    ensures '[' !in Print(n) && ']' !in Print(n)
  {
  }

  /** Every account URI with a user reads as what it says: the user up to 63
    characters, the host and the port, whatever the scheme's spelling. */
  lemma {:induction false} AccountUriReads(user: string, host: string, port: nat)
    requires '@' !in user && HostText(host) && port < 0x1_0000
    ensures ParseAccount("sip:" + (user + "@" + HostPortText(host, port)))
         == Account(if |user| > 63 then user[..63] else user, host, port)
  {
    hide HostPort;
    var hp := HostPortText(host, port);
    var s := user + "@" + hp;
    var uri := "sip:" + s;
    assert uri[4..] == s && StartsWithCase(uri, "sip:");
    assert s[..|user|] == user && s[|user|] == '@';
    IndexIs(s, '@', |user|);
    assert s[|user| + 1..] == hp;
    HostPortReads(host, port);
  }

  lemma UnschemedIs(s: string)
    ensures Unschemed("sip:" + s) == s && Unschemed("sips:" + s) == s
  {
    var (uri, uris) := ("sip:" + s, "sips:" + s);
    assert uri[4..] == s && uris[5..] == s && uris[3] == 's';
  }

  /** The scheme may be sips. */
  lemma {:induction false} SipsAccountReads(rest: string)
    ensures ParseAccount("sips:" + rest) == ParseAccount("sip:" + rest)
  {
    hide HostPort, Unschemed, ReadPort;
    UnschemedIs(rest);
  }

  /** The user may be left out. */
  lemma {:induction false} BareAccountReads(host: string, port: nat)
    requires ':' !in host && '@' !in host && |host| < HOST_SIZE && port < 0x1_0000
    ensures ParseAccount("sip:" + (host + PortText(port))) == Account("", host, port)
  {
    hide HostPort, PortText, ReadPort, Unschemed;
    PortTextIs(port);
    NoAt(port);
    var h := host + PortText(port);
    UnschemedIs(h);
    assert '@' !in h;
    assert h[..|host|] == host && h[|host|..] == PortText(port);
    if port != 0 {
      IndexIs(h, ':', |host|);
      assert h[|host| + 1..] == PortText(port)[1..];
    }
  }

  lemma NoAt(port: nat)
    ensures '@' !in PortText(port)
  {
    DigitsAreNotDelimiters(port);
  }
}
