/**
  How a request finds its service: the hub turns the request URI into a target, writes the
  target into headers, and the agent turns the headers into an address.
 */
module Routing {
  import opened Wrappers
  import opened Strings

  type Headers = map<string, seq<string>>

  const PROTO := "Cluster-Proxy-Proto"
  const NAMESPACE := "Cluster-Proxy-Namespace"
  const SERVICE := "Cluster-Proxy-Service"
  const PORT := "Cluster-Proxy-Port"
  const KUBE_API_SERVER_HOST := "kubernetes.default.svc"

  function Get(h: Headers, key: string): string {
    if key in h && h[key] != [] then h[key][0] else ""
  }

  datatype Target = Target(
    cluster: string, proto: string, service: string, namespace: string, port: string, path: string)

  datatype ProxyType = Service | KubeAPIServer

  datatype ParseError = TooShort | InvalidServiceName

  predicate NamesService(parts: seq<string>) {
    |parts| > 9 && parts[8] == "proxy-service"
  }

  function GetProxyType(uri: string): ProxyType {
    if NamesService(Split(uri, '/')) then Service else KubeAPIServer
  }

  datatype SchemeNamePort = SchemeNamePort(scheme: string, name: string, port: string)

  /** `name`, `name:port` or `scheme:name:port`, with a name and a known scheme. */
  function SplitSchemeNamePort(id: string): Option<SchemeNamePort> {
    var parts := Split(id, ':');
    if |parts| > 3 then None
    else
      var snp :=
        if |parts| == 1 then SchemeNamePort("", parts[0], "")
        else if |parts| == 2 then SchemeNamePort("", parts[0], parts[1])
        else SchemeNamePort(parts[0], parts[1], parts[2]);
      if snp.name != "" && (snp.scheme == "http" || snp.scheme == "https" || snp.scheme == "") then Some(snp)
      else None
  }

  function JoinSchemeNamePort(snp: SchemeNamePort): string {
    if snp.scheme != "" then Join([snp.scheme, snp.name, snp.port], ':')
    else if snp.port != "" then Join([snp.name, snp.port], ':')
    else snp.name
  }

  function GetTargetServiceConfig(uri: string): Result<Target, ParseError> {
    var parts := Split(uri, '/');
    if |parts| < 9 then Err(TooShort)
    else
      var snp := SplitSchemeNamePort(parts[7]);
      if snp.None? then Err(InvalidServiceName)
      else
        var proto := if snp.value.scheme == "" then "https" else snp.value.scheme;
        Ok(Target(parts[1], proto, snp.value.name, parts[5], snp.value.port, Before(Join(parts[9..], '/'), '?')))
  }

  function GetTargetServiceConfigForKubeAPIServer(uri: string): Result<Target, ParseError> {
    var parts := Split(uri, '/');
    if |parts| <= 2 then Err(TooShort)
    else Ok(Target(parts[1], "https", "kubernetes", "default", "443", Before(Join(parts[2..], '/'), '?')))
  }

  /** What the hub makes of a URI before it looks at membership and the allowlist. */
  function Route(uri: string): Result<Target, ParseError> {
    match GetProxyType(uri)
    case Service => GetTargetServiceConfig(uri)
    case KubeAPIServer => GetTargetServiceConfigForKubeAPIServer(uri)
  }

  /** The headers the hub writes. */
  function TargetHeaders(t: Target, h: Headers): Headers {
    h[PROTO := [t.proto]][NAMESPACE := [t.namespace]][SERVICE := [t.service]][PORT := [t.port]]
  }

  class Request {
    const uri: string
    var path: string
    var header: Headers

    constructor (uri: string, path: string, header: Headers)
      ensures this.uri == uri && this.path == path && this.header == header
    {
      this.uri, this.path, this.header := uri, path, header;
    }

    /** Points the request at the target; every other header stays as it was. */
    method UpdateRequest(t: Target)
      modifies this
      ensures path == t.path
      ensures forall k :: k in header.Keys <==> k in old(header).Keys || k in {PROTO, NAMESPACE, SERVICE, PORT}
      ensures forall k :: k in old(header) && k !in {PROTO, NAMESPACE, SERVICE, PORT} ==> header[k] == old(header)[k]
      ensures header[PROTO] == [t.proto] && header[NAMESPACE] == [t.namespace]
      ensures header[SERVICE] == [t.service] && header[PORT] == [t.port]
      ensures header == TargetHeaders(t, old(header))
    {
      path := t.path;
      header := header[PROTO := [t.proto]];
      header := header[NAMESPACE := [t.namespace]];
      header := header[SERVICE := [t.service]];
      header := header[PORT := [t.port]];
    }
  }

  predicate IsKubeAPIServer(service: string, namespace: string) {
    EqualFold(service, "kubernetes") && EqualFold(namespace, "default")
  }

  function Address(proto: string, service: string, namespace: string, port: string): string {
    if IsKubeAPIServer(service, namespace) then "https://" + KUBE_API_SERVER_HOST
    else proto + "://" + service + "." + namespace + ".svc:" + port
  }

  /** The address the agent reads from the headers, before it is parsed as a URL. */
  function GetTargetServiceURL(h: Headers): Option<string> {
    var proto, namespace, service, port := Get(h, PROTO), Get(h, NAMESPACE), Get(h, SERVICE), Get(h, PORT);
    if proto == "" || namespace == "" || service == "" || port == "" then None
    else Some(Address(proto, service, namespace, port))
  }

  datatype Url = Url(scheme: string, host: string)

  /** The URL parser of the library. */
  type Parser = string -> Option<Url>

  /** What the agent makes of the headers: nothing if one is missing or the address is no URL. */
  function GetTargetServiceURLFromRequest(h: Headers, parse: Parser): Option<Url> {
    var text := GetTargetServiceURL(h);
    if text.None? then None else parse(text.value)
  }

  // ---------------------------------------------------------------------------------------
  // Service requests.

  /** A service request as a client writes it. */
  datatype Call = Call(
    cluster: string, namespace: string, scheme: string, name: string, port: string, path: string,
    query: Option<string>)

  ghost predicate WellFormed(c: Call) {
    && !Has(c.cluster, '/') && !Has(c.namespace, '/')
    && (c.scheme == "" || c.scheme == "http" || c.scheme == "https")
    && c.name != "" && !Has(c.name, '/') && !Has(c.name, ':')
    && !Has(c.port, '/') && !Has(c.port, ':')
    && !Has(c.path, '?')
  }

  function ServiceID(c: Call): string {
    JoinSchemeNamePort(SchemeNamePort(c.scheme, c.name, c.port))
  }

  function Tail(c: Call): string {
    c.path + (if c.query.Some? then "?" + c.query.value else "")
  }

  function Front(c: Call): seq<string> {
    ["", c.cluster, "api", "v1", "namespaces", c.namespace, "services", ServiceID(c), "proxy-service"]
  }

  /** /cluster/api/v1/namespaces/namespace/services/[scheme:]name[:port]/proxy-service/path[?query] */
  function PrintURI(c: Call): string {
    Join(Front(c), '/') + "/" + Tail(c)
  }

  lemma SchemeNamePortRoundTrip(snp: SchemeNamePort)
    requires snp.scheme == "" || snp.scheme == "http" || snp.scheme == "https"
    requires snp.name != "" && !Has(snp.name, ':') && !Has(snp.port, ':')
    ensures SplitSchemeNamePort(JoinSchemeNamePort(snp)) == Some(snp)
  {
    if snp.scheme != "" {
      SplitOfJoin([snp.scheme, snp.name, snp.port], ':');
    } else if snp.port != "" {
      SplitOfJoin([snp.name, snp.port], ':');
    } else {
      SplitPlain(snp.name, ':');
    }
  }

  lemma HasConcat(x: string, y: string, c: char)
    ensures Has(x + y, c) <==> Has(x, c) || Has(y, c)
  {
    if i :| 0 <= i < |x| && x[i] == c {
      assert (x + y)[i] == c;
    }
    if i :| 0 <= i < |y| && y[i] == c {
      assert (x + y)[|x| + i] == c;
    }
  }

  lemma ServiceIDIsPlain(c: Call)
    requires WellFormed(c)
    ensures !Has(ServiceID(c), '/')
  {
    HasConcat(c.name, ":", '/');
    HasConcat(c.name + ":", c.port, '/');
    if c.scheme != "" {
      assert Join([c.name, c.port], ':') == c.name + ":" + c.port;
      assert [c.scheme, c.name, c.port][1..] == [c.name, c.port];
      HasConcat(c.scheme, ":", '/');
      HasConcat(c.scheme + ":", c.name + ":" + c.port, '/');
    } else if c.port != "" {
      assert [c.name, c.port][1..] == [c.port] && Join([c.port], ':') == c.port;
      assert Join([c.name, c.port], ':') == c.name + ":" + c.port;
      assert ServiceID(c) == c.name + ":" + c.port;
    }
  }

  lemma BeforeQuery(c: Call)
    requires WellFormed(c)
    ensures Before(Tail(c), '?') == c.path
  {
    if c.query.Some? {
      SplitFirst(c.path, '?', c.query.value);
      assert Tail(c) == c.path + ['?'] + c.query.value;
    } else {
      SplitPlain(c.path, '?');
      assert Tail(c) == c.path;
    }
  }

  /**
    Every URI of nine parts, the last "proxy-service", and some more text is a service request,
    whatever its fixed parts say; its target is made of the second, sixth and eighth parts and of
    the text after the ninth up to a question mark.
   */
  lemma AnyServiceURI(parts: seq<string>, tail: string)
    requires |parts| == 9 && Plain(parts, '/') && parts[8] == "proxy-service"
    ensures var uri, snp := Join(parts, '/') + "/" + tail, SplitSchemeNamePort(parts[7]);
      && GetProxyType(uri) == Service
      && (snp.None? ==> Route(uri) == Err(InvalidServiceName))
      && (snp.Some? ==>
            Route(uri) == Ok(Target(parts[1], if snp.value.scheme == "" then "https" else snp.value.scheme,
                                    snp.value.name, parts[5], snp.value.port, Before(tail, '?'))))
  {
    var uri := Join(parts, '/') + "/" + tail;
    SplitJoined(parts, '/', tail);
    var all := Split(uri, '/');
    assert all == parts + Split(tail, '/');
    assert all[9..] == Split(tail, '/');
    JoinSplit(tail, '/');
  }

  /** A service name is accepted exactly in the three documented forms. */
  lemma SchemeNamePortIff(id: string, scheme: string, name: string, port: string)
    requires !Has(scheme, ':') && !Has(name, ':') && !Has(port, ':')
    ensures id == name ==>
      SplitSchemeNamePort(id) == if name == "" then None else Some(SchemeNamePort("", name, ""))
    ensures id == name + ":" + port ==>
      SplitSchemeNamePort(id) == if name == "" then None else Some(SchemeNamePort("", name, port))
    ensures id == scheme + ":" + name + ":" + port ==>
      SplitSchemeNamePort(id) ==
      if name == "" || (scheme != "" && scheme != "http" && scheme != "https") then None
      else Some(SchemeNamePort(scheme, name, port))
  {
    SplitPlain(name, ':');
    SplitPlain(port, ':');
    SplitFirst(name, ':', port);
    SplitTwoColons(scheme, name, port);
  }

  lemma SplitTwoColons(scheme: string, name: string, port: string)
    requires !Has(scheme, ':') && !Has(name, ':') && !Has(port, ':')
    ensures Split(scheme + ":" + name + ":" + port, ':') == [scheme, name, port]
  {
    assert scheme + ":" + name + ":" + port == scheme + [':'] + (name + [':'] + port);
    SplitPlain(port, ':');
    SplitFirst(name, ':', port);
    SplitFirst(scheme, ':', name + [':'] + port);
  }

  /** And nothing else is: what is accepted has one of these forms. */
  lemma AcceptedServiceName(id: string)
    requires SplitSchemeNamePort(id).Some?
    ensures var snp := SplitSchemeNamePort(id).value;
      && !Has(snp.scheme, ':') && !Has(snp.name, ':') && !Has(snp.port, ':')
      && (|| id == snp.name
          || id == snp.name + ":" + snp.port
          || id == snp.scheme + ":" + snp.name + ":" + snp.port)
  {
    var parts := Split(id, ':');
    SplitParts(id, ':');
    JoinSplit(id, ':');
    if |parts| == 2 {
      assert parts[1..] == [parts[1]];
    } else if |parts| == 3 {
      assert parts[1..] == [parts[1], parts[2]] && parts[1..][1..] == [parts[2]];
      assert Join(parts[1..], ':') == parts[1] + ":" + parts[2];
      assert id == parts[0] + ":" + (parts[1] + ":" + parts[2]);
    }
  }

  /** A printed service URI is recognised and parsed back into what it was printed from. */
  lemma ServiceRoundTrip(c: Call)
    requires WellFormed(c)
    ensures GetProxyType(PrintURI(c)) == Service
    ensures Route(PrintURI(c)) ==
            Ok(Target(c.cluster, if c.scheme == "" then "https" else c.scheme, c.name, c.namespace, c.port, c.path))
  {
    ServiceIDIsPlain(c);
    AnyServiceURI(Front(c), Tail(c));
    SchemeNamePortRoundTrip(SchemeNamePort(c.scheme, c.name, c.port));
    BeforeQuery(c);
  }

  /** Letters whose case folds to an ASCII letter, as that letter. */
  function Ascii(s: string): string {
    seq(|s|, i requires 0 <= i < |s| => if s[i] == '\U{212A}' then 'k' else if s[i] == '\U{17F}' then 's' else s[i])
  }

  /** Where the agent goes: to the API server exactly for the service "kubernetes" of the namespace
      "default", in any mixture of cases, and else to the service named in the headers. */
  lemma AddressIs(proto: string, service: string, namespace: string, port: string)
    ensures var api := SameName(Ascii(service), "kubernetes") && SameName(Ascii(namespace), "default");
      Address(proto, service, namespace, port) ==
      if api then "https://kubernetes.default.svc" else proto + "://" + service + "." + namespace + ".svc:" + port
  {
    FoldIsName(service, "kubernetes");
    FoldIsName(namespace, "default");
    assert "https://" + KUBE_API_SERVER_HOST == "https://kubernetes.default.svc";
  }

  lemma FoldIsName(s: string, ascii: string)
    requires forall i :: 0 <= i < |ascii| ==> 'a' <= ascii[i] <= 'z'
    ensures EqualFold(s, ascii) <==> SameName(Ascii(s), ascii)
  {
    if |s| == |ascii| {
      forall i | 0 <= i < |s| ensures Fold(s[i]) == Fold(ascii[i]) <==> Lower(Ascii(s)[i]) == Lower(ascii[i]) {
      }
      if EqualFold(s, ascii) {
        assert forall i :: 0 <= i < |s| ==> Lower(Ascii(s)[i]) == Lower(ascii[i]);
      }
      if SameName(Ascii(s), ascii) {
        assert forall i :: 0 <= i < |s| ==> Fold(s[i]) == Fold(ascii[i]);
      }
    }
  }

  /** From the client's URI through the hub's headers to the agent's address, for every other
      header the request may carry. */
  lemma EndToEnd(c: Call, h: Headers)
    requires WellFormed(c) && c.namespace != "" && c.port != ""
    ensures Route(PrintURI(c)).Ok?
    ensures GetTargetServiceURL(TargetHeaders(Route(PrintURI(c)).value, h)) ==
            Some(Address(if c.scheme == "" then "https" else c.scheme, c.name, c.namespace, c.port))
  {
    ServiceRoundTrip(c);
  }

  /** A URI classified as a service never fails the parser's length check. */
  lemma ServiceIsLongEnough(uri: string)
    requires GetProxyType(uri) == Service
    ensures GetTargetServiceConfig(uri) != Err(TooShort)
    ensures GetTargetServiceConfig(uri).Ok? <==> SplitSchemeNamePort(Split(uri, '/')[7]).Some?
  {
  }

  // ---------------------------------------------------------------------------------------
  // What the hub accepts and the agent refuses.

  /** Whatever URI the hub accepts, the agent refuses the headers written for it exactly when
      the port or the namespace is empty, or the address made of them is not a URL. */
  lemma AgentRefusesIff(uri: string, h: Headers, parse: Parser)
    requires Route(uri).Ok?
    ensures var t := Route(uri).value;
      GetTargetServiceURLFromRequest(TargetHeaders(t, h), parse).None? <==>
      || t.port == "" || t.namespace == ""
      || parse(Address(t.proto, t.service, t.namespace, t.port)).None?
  {
  }

  predicate IsNumber(s: string) {
    forall i :: 0 <= i < |s| ==> '0' <= s[i] <= '9'
  }

  /** Letters, digits, hyphens and, in host names, dots. */
  predicate IsName(s: string, dots: bool) {
    forall i :: 0 <= i < |s| ==>
      'a' <= s[i] <= 'z' || 'A' <= s[i] <= 'Z' || '0' <= s[i] <= '9' || s[i] == '-' || (dots && s[i] == '.')
  }

  /** How the library parses the address of a host made of plain names: the port must be a number. */
  ghost predicate PortsAreNumbers(parse: Parser) {
    && (forall proto: string, host: string, port: string ::
          (proto == "http" || proto == "https") && host != "" && IsName(host, true) && IsName(port, false) ==>
            parse(proto + "://" + host + ":" + port) ==
            if IsNumber(port) then Some(Url(proto, host + ":" + port)) else None)
    && parse("https://" + KUBE_API_SERVER_HOST) == Some(Url("https", KUBE_API_SERVER_HOST))
  }

  /** So for a service request made of plain names the agent refuses exactly an empty namespace,
      an empty port, and a named port, unless it is the API server that is asked for. */
  lemma NamedPortsAreRefused(c: Call, h: Headers, parse: Parser)
    requires WellFormed(c) && PortsAreNumbers(parse)
    requires IsName(c.name, true) && IsName(c.namespace, true) && IsName(c.port, false)
    ensures Route(PrintURI(c)).Ok?
    ensures GetTargetServiceURLFromRequest(TargetHeaders(Route(PrintURI(c)).value, h), parse).None? <==>
      || c.port == "" || c.namespace == ""
      || (!IsKubeAPIServer(c.name, c.namespace) && !IsNumber(c.port))
  {
    ServiceRoundTrip(c);
    AgentRefusesIff(PrintURI(c), h, parse);
    if !IsKubeAPIServer(c.name, c.namespace) {
      AddressParses(if c.scheme == "" then "https" else c.scheme, c.name, c.namespace, c.port, parse);
    }
  }

  lemma AddressParses(proto: string, service: string, namespace: string, port: string, parse: Parser)
    requires PortsAreNumbers(parse) && (proto == "http" || proto == "https")
    requires IsName(service, true) && IsName(namespace, true) && IsName(port, false)
    requires !IsKubeAPIServer(service, namespace)
    ensures parse(Address(proto, service, namespace, port)).Some? <==> IsNumber(port)
  {
    var host := service + "." + namespace + ".svc";
    AddressOf(proto, service, namespace, port);
    assert IsName(host, true);
    assert parse(proto + "://" + host + ":" + port) ==
           if IsNumber(port) then Some(Url(proto, host + ":" + port)) else None;
  }

  lemma AddressOf(proto: string, service: string, namespace: string, port: string)
    requires !IsKubeAPIServer(service, namespace)
    ensures Address(proto, service, namespace, port) ==
            proto + "://" + (service + "." + namespace + ".svc") + ":" + port
  {
    var host := service + "." + namespace + ".svc";
    assert proto + "://" + host == proto + "://" + service + "." + namespace + ".svc";
    assert Address(proto, service, namespace, port) ==
           proto + "://" + service + "." + namespace + (".svc" + (":" + port));
  }

  /** One of them is /c1/api/v1/namespaces/ns/services/https:svc:web/proxy-service/x: the hub
      accepts a request for the port called web, and the agent refuses it. */
  lemma NamedPortExample(c: Call, h: Headers, parse: Parser)
    requires PortsAreNumbers(parse) && c == Call("c1", "ns", "https", "svc", "web", "x", None)
    ensures Route(PrintURI(c)) == Ok(Target("c1", "https", "svc", "ns", "web", "x"))
    ensures GetTargetServiceURLFromRequest(TargetHeaders(Route(PrintURI(c)).value, h), parse) == None
  {
    NamedPortIsPlain(c);
    ServiceRoundTrip(c);
    NamedPortsAreRefused(c, h, parse);
  }

  lemma NamedPortIsPlain(c: Call)
    requires c == Call("c1", "ns", "https", "svc", "web", "x", None)
    ensures WellFormed(c)
    ensures IsName(c.name, true) && IsName(c.namespace, true) && IsName(c.port, false)
    ensures !IsKubeAPIServer(c.name, c.namespace) && !IsNumber(c.port)
  {
    assert |c.name| == 3 && c.port[0] == 'w';
  }

  // ---------------------------------------------------------------------------------------
  // Kubernetes API requests.

  /** Text with at least two slashes is what comes before the first, between the two, and after. */
  lemma TwoSlashes(uri: string) returns (host: string, cluster: string, rest: string)
    requires |Split(uri, '/')| > 2
    ensures !Has(host, '/') && !Has(cluster, '/') && uri == host + "/" + cluster + "/" + rest
  {
    var parts := Split(uri, '/');
    SplitParts(uri, '/');
    JoinSplit(uri, '/');
    host, cluster, rest := parts[0], parts[1], Join(parts[2..], '/');
    assert parts[1..][1..] == parts[2..];
    assert Join(parts[1..], '/') == cluster + "/" + rest;
  }

  lemma SplitTwoSlashes(host: string, cluster: string, rest: string)
    requires !Has(host, '/') && !Has(cluster, '/')
    ensures Split(host + "/" + cluster + "/" + rest, '/') == [host, cluster] + Split(rest, '/')
  {
    TwoSlashesRegroup(host, cluster, rest);
    var parts := Split(rest, '/');
    SplitFirst(cluster, '/', rest);
    SplitFirst(host, '/', cluster + ['/'] + rest);
    assert [host] + ([cluster] + parts) == [host, cluster] + parts;
  }

  lemma TwoSlashesRegroup(host: string, cluster: string, rest: string)
    ensures host + "/" + cluster + "/" + rest == host + ['/'] + (cluster + ['/'] + rest)
  {
  }

  /**
    If a URI with two slashes is classified as a Kubernetes API request, the target is the
    cluster between the first two slashes with the text after them up to the first question
    mark, and the agent goes to the API server.
   */
  lemma KubeAPIServerRoute(host: string, cluster: string, rest: string, h: Headers)
    requires !Has(host, '/') && !Has(cluster, '/')
    requires GetProxyType(host + "/" + cluster + "/" + rest) == KubeAPIServer
    ensures var r := Route(host + "/" + cluster + "/" + rest);
      && r.Ok? && r.value == Target(cluster, "https", "kubernetes", "default", "443", r.value.path)
      && r.value.path <= rest && !Has(r.value.path, '?')
      && (|r.value.path| < |rest| ==> rest[|r.value.path|] == '?')
      && GetTargetServiceURL(TargetHeaders(r.value, h)) == Some("https://" + KUBE_API_SERVER_HOST)
  {
    SplitTwoSlashes(host, cluster, rest);
    var parts := Split(host + "/" + cluster + "/" + rest, '/');
    assert parts[2..] == Split(rest, '/');
    JoinSplit(rest, '/');
    BeforeIsLongest(rest, '?');
  }

  /** A URI with one slash or none has no cluster and is refused. */
  lemma OneSlashIsRefused(host: string, rest: string)
    requires !Has(host, '/') && !Has(rest, '/')
    ensures Route(host) == Err(TooShort) && Route(host + "/" + rest) == Err(TooShort)
  {
    SplitPlain(host, '/');
    SplitPlain(rest, '/');
    SplitFirst(host, '/', rest);
  }

  // ---------------------------------------------------------------------------------------
  // The classification reads the whole URI, query included.

  /** Text put together from two pieces: the last part of one runs on into the first of the other. */
  lemma {:induction false} SplitConcat(x: string, y: string, sep: char)
    ensures var p, q := Split(x, sep), Split(y, sep);
      Split(x + y, sep) == p[..|p| - 1] + [p[|p| - 1] + q[0]] + q[1..]
  {
    var q := Split(y, sep);
    if x == [] {
      assert x + y == y && "" + q[0] == q[0] && [q[0]] + q[1..] == q;
    } else {
      var xy := x + y;
      assert xy[1..] == x[1..] + y && xy[0] == x[0];
      SplitConcat(x[1..], y, sep);
      SplitConcatStep(x[0], Split(x[1..], sep), q, sep, Split(x, sep));
    }
  }

  lemma SplitConcatStep(c: char, rest: seq<string>, q: seq<string>, sep: char, p: seq<string>)
    requires rest != [] && q != []
    requires p == if c == sep then [""] + rest else [[c] + rest[0]] + rest[1..]
    ensures var joined := rest[..|rest| - 1] + [rest[|rest| - 1] + q[0]] + q[1..];
      p[..|p| - 1] + [p[|p| - 1] + q[0]] + q[1..] ==
      if c == sep then [""] + joined else [[c] + joined[0]] + joined[1..]
  {
    if c == sep {
      assert p[..|p| - 1] == [""] + rest[..|rest| - 1];
    } else if |rest| == 1 {
      assert [c] + (rest[0] + q[0]) == ([c] + rest[0]) + q[0];
    } else {
      assert p[..|p| - 1] == [[c] + rest[0]] + rest[1..|rest| - 1];
    }
  }

  /** The parts of a URI with a query. */
  lemma SplitQuery(path: string, query: string)
    ensures var p, q := Split(path, '/'), Split(query, '/');
      Split(path + "?" + query, '/') == p[..|p| - 1] + [p[|p| - 1] + "?" + q[0]] + q[1..]
  {
    var p, q := Split(path, '/'), Split(query, '/');
    assert path + "?" + query == path + ("?" + query);
    SplitConcat(path, "?" + query, '/');
    assert ("?" + query)[1..] == query;
    assert Split("?" + query, '/') == [['?'] + q[0]] + q[1..];
    assert p[|p| - 1] + (['?'] + q[0]) == p[|p| - 1] + "?" + q[0];
  }

  /** The path has too few parts, and the query, cut at its slashes, puts "proxy-service" in the
      ninth place with something after it. */
  predicate QueryNamesService(p: seq<string>, q: seq<string>) {
    |p| < 9 && |p| + |q| > 10 && q[9 - |p|] == "proxy-service"
  }

  /**
    Adding a query changes how a request is classified exactly when the query completes the form
    of a service URI; and then it turns a Kubernetes API request into a service one.
   */
  lemma QueryChangesTypeIff(path: string, query: string)
    ensures GetProxyType(path + "?" + query) != GetProxyType(path) <==>
      QueryNamesService(Split(path, '/'), Split(query, '/'))
    ensures GetProxyType(path) == Service ==> GetProxyType(path + "?" + query) == Service
  {
    QueryNames(path, query, Split(path, '/'), Split(query, '/'), path + "?" + query);
  }

  lemma QueryNames(path: string, query: string, p: seq<string>, q: seq<string>, uri: string)
    requires p == Split(path, '/') && q == Split(query, '/') && uri == path + "?" + query
    ensures GetProxyType(uri) == Service <==> GetProxyType(path) == Service || QueryNamesService(p, q)
    ensures QueryNamesService(p, q) ==> GetProxyType(path) == KubeAPIServer
  {
    SplitQuery(path, query);
    NamesServiceIff(p, q, Split(uri, '/'));
  }

  lemma NamesServiceIff(p: seq<string>, q: seq<string>, parts: seq<string>)
    requires p != [] && q != []
    requires parts == p[..|p| - 1] + [p[|p| - 1] + "?" + q[0]] + q[1..]
    ensures NamesService(parts) <==> NamesService(p) || QueryNamesService(p, q)
  {
    if |p| == 9 {
      assert parts[8][|p[8]|] == '?';
      assert forall i :: 0 <= i < 13 ==> "proxy-service"[i] != '?';
    }
  }

  /** So a query without a slash never matters. */
  lemma PlainQueryIsIgnored(path: string, query: string)
    requires !Has(query, '/')
    ensures GetProxyType(path + "?" + query) == GetProxyType(path)
  {
    SplitPlain(query, '/');
    QueryChangesTypeIff(path, query);
  }

  /** And one with slashes can: whatever the cluster and resource, adding a query that puts
      "proxy-service" in the ninth place turns a Kubernetes API request into a service one. */
  lemma SlashedQueryChangesType(cluster: string, resource: string, q: seq<string>, x: string)
    requires !Has(cluster, '/') && !Has(resource, '/')
    requires |q| == 7 && Plain(q, '/') && q[6] == "proxy-service"
    ensures GetProxyType("/" + cluster + "/" + resource) == KubeAPIServer
    ensures GetProxyType("/" + cluster + "/" + resource + "?" + (Join(q, '/') + "/" + x)) == Service
  {
    SplitTwoSlashes("", cluster, resource);
    SplitPlain(resource, '/');
    assert "" + "/" + cluster + "/" + resource == "/" + cluster + "/" + resource;
    SplitJoined(q, '/', x);
    assert (q + Split(x, '/'))[6] == q[6];
    QueryChangesTypeIff("/" + cluster + "/" + resource, Join(q, '/') + "/" + x);
  }
}
