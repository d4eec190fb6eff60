/** The route entity: validation, path matching and publication readiness (internal/domain/route.go). */
module Routes {
  import opened Results
  import opened Text
  import opened Hosts

  datatype Protocol = HTTP | HTTPS | TCP | UDP | OtherProtocol(name: string) {
    predicate IsWeb() { HTTP? || HTTPS? }

    predicate IsStream() { TCP? || UDP? }

    function DefaultPublicPort(): int {
      if HTTP? then 80 else if HTTPS? then 443 else 0
    }

    function Name(): string {
      match this
      case HTTP => "http"
      case HTTPS => "https"
      case TCP => "tcp"
      case UDP => "udp"
      case OtherProtocol(name) => name
    }
  }

  datatype Route = Route(
    id: string, clientId: string, name: string, protocol: Protocol,
    domain: string, pathPrefix: string, stripPath: bool,
    localHost: string, localPort: int, remotePort: int, publicPort: int,
    tunnelGroup: string, enabled: bool,
    desiredRevision: int, observedRevision: int,
    localStatus: string, tunnelStatus: string, lastError: string,
    agentLastSeenAt: Option<int>, publicStatus: string, createdAt: int, updatedAt: int)

  const SECOND := 1_000_000_000
  const AGENT_HEARTBEAT_FRESHNESS := 90 * SECOND

  predicate ValidPort(port: int) { 1 <= port <= 65535 }

  /** The part of readiness that does not depend on the clock. */
  predicate Converged(r: Route) {
    r.enabled && r.tunnelStatus == "up" && r.observedRevision >= r.desiredRevision
  }

  predicate PublicationReadyAt(r: Route, now: int) {
    && Converged(r)
    && r.agentLastSeenAt.Some?
    && -5 * SECOND <= now - r.agentLastSeenAt.value <= AGENT_HEARTBEAT_FRESHNESS
  }

  // ---- Path prefixes ----

  predicate IsPathChar(c: char) {
    || 'a' <= c <= 'z' || 'A' <= c <= 'Z' || IsDigit(c)
    || c in "._~!$&'()*+,;=:@%/-"
  }

  predicate IsSegment(s: string) { s != "" && s != "." && s != ".." }

  predicate AllSegments(parts: seq<string>) {
    forall i :: 0 <= i < |parts| ==> IsSegment(parts[i])
  }

  predicate AllPathChars(s: string) {
    forall c :: c in s ==> IsPathChar(c)
  }

  function CheckedPrefix(v: string): Option<string> {
    if v == "" || v == "/" then Some("")
    else if v[0] != '/' || !AllPathChars(v) then None
    else
      var p := TrimSuffix(v, '/');
      if AllSegments(Split(p[1..], '/')) then Some(p) else None
  }

  function NormalizePathPrefix(value: string): Option<string> {
    CheckedPrefix(TrimSpace(value))
  }

  /** The normalizer as the source runs it: reassigned locals and a loop over the segments. */
  method ComputePathPrefix(value: string) returns (prefix: Option<string>)
    ensures prefix == NormalizePathPrefix(value)
  {
    hide TrimSpace, Split, AllPathChars;
    var v := TrimSpace(value);
    if v == "" || v == "/" {
      return Some("");
    }
    if v[0] != '/' || !AllPathChars(v) {
      return None;
    }
    v := TrimSuffix(v, '/');
    var segments := Split(v[1..], '/');
    for i := 0 to |segments|
      invariant forall j :: 0 <= j < i ==> IsSegment(segments[j])
    {
      if segments[i] == "" || segments[i] == "." || segments[i] == ".." {
        return None;
      }
    }
    return Some(v);
  }

  function Segments(path: string): seq<string>
    requires path != ""
  {
    Split(path[1..], '/')
  }

  /** What a stored path prefix looks like: empty, or "/" followed by proper segments. */
  predicate PrefixShape(p: string) {
    p != "" ==>
      && p[0] == '/' && p[|p| - 1] != '/'
      && AllPathChars(p)
      && AllSegments(Segments(p))
  }

  lemma NormalizedPrefixShape(value: string)
    requires NormalizePathPrefix(value).Some?
    ensures PrefixShape(NormalizePathPrefix(value).value)
  {
    hide TrimSpace, Split;
    var v := TrimSpace(value);
    var p := NormalizePathPrefix(value).value;
    if p != "" {
      assert p == TrimSuffix(v, '/') && p[0] == '/';
      assert forall c :: c in p ==> c in v;
      if p[|p| - 1] == '/' {
        SplitLastEmpty(p[1..], '/');
        assert false;
      }
    }
  }

  lemma PrefixOfShapeFixed(p: string)
    requires PrefixShape(p)
    ensures NormalizePathPrefix(p) == Some(p)
  {
    hide TrimSpace, Split;
    if p != "" {
      assert !IsSpace(p[0]) && !IsSpace(p[|p| - 1]) by { assert p[0] in p && p[|p| - 1] in p; }
      assert TrimSpace(p) == p && TrimSuffix(p, '/') == p;
      hide AllPathChars;
      assert p != "/";
    }
  }

  /** A prefix is accepted if it has the shape of a stored one, but for spaces around it and a final slash. */
  lemma NormalizePathPrefixIff(value: string)
    ensures var v := TrimSpace(value);
      NormalizePathPrefix(value) ==
        if v == "" || v == "/" then Some("")
        else if TrimSuffix(v, '/') != "" && PrefixShape(TrimSuffix(v, '/')) then Some(TrimSuffix(v, '/'))
        else None
  {
    hide TrimSpace, Split;
    var v := TrimSpace(value);
    if NormalizePathPrefix(value).Some? { NormalizedPrefixShape(value); }
    if v != "" && v != "/" && TrimSuffix(v, '/') != "" && PrefixShape(TrimSuffix(v, '/')) {
      assert forall c :: c in v ==> c in TrimSuffix(v, '/') || c == '/';
    }
  }

  /** A normalized prefix is a fixed point of normalization. */
  lemma NormalizePathPrefixFixed(value: string)
    requires NormalizePathPrefix(value).Some?
    ensures NormalizePathPrefix(NormalizePathPrefix(value).value) == NormalizePathPrefix(value)
  {
    NormalizedPrefixShape(value);
    PrefixOfShapeFixed(NormalizePathPrefix(value).value);
  }

  predicate MatchesPath(prefix: string, path: string) {
    prefix == "" || path == prefix || HasPrefix(path, prefix + "/")
  }

  lemma FirstSeparator(a: string, b: string, sep: char)
    ensures IndexOf(a + [sep] + b, sep) == IndexOf(a, sep)
  {
    hide IndexOf;
    var whole := a + [sep] + b;
    assert whole[IndexOf(a, sep)] == sep;
  }

  lemma {:induction false} SplitConcat(a: string, b: string, sep: char)
    ensures Split(a + [sep] + b, sep) == Split(a, sep) + Split(b, sep)
  {
    hide IndexOf;
    var whole := a + [sep] + b;
    var i := IndexOf(a, sep);
    FirstSeparator(a, b, sep);
    assert whole[..i] == a[..i];
    if i < |a| {
      var rest := a[i + 1..];
      assert whole[i + 1..] == rest + [sep] + b;
      SplitConcat(rest, b, sep);
      assert [a[..i]] + (Split(rest, sep) + Split(b, sep)) == ([a[..i]] + Split(rest, sep)) + Split(b, sep);
    } else {
      assert whole[i + 1..] == b;
      assert a[..i] == a;
    }
  }

  lemma {:induction false} JoinConcat(a: seq<string>, b: seq<string>, sep: char)
    requires |a| > 0 && |b| > 0
    ensures Join(a + b, sep) == Join(a, sep) + [sep] + Join(b, sep)
  {
    if |a| == 1 {
      assert (a + b)[1..] == b;
    } else {
      JoinConcat(a[1..], b, sep);
      assert (a + b)[1..] == a[1..] + b;
    }
  }

  lemma PrefixMatchesSegments(prefix: string, rest: string)
    requires prefix != ""
    ensures Segments(prefix) <= Segments(prefix + "/" + rest)
  {
    assert (prefix + "/" + rest)[1..] == prefix[1..] + ['/'] + rest;
    SplitConcat(prefix[1..], rest, '/');
  }

  lemma JoinOfExtension(p: seq<string>, q: seq<string>, sep: char)
    requires 0 < |p| && p <= q
    ensures Join(q, sep) == Join(p, sep) || Join(p, sep) + [sep] <= Join(q, sep)
  {
    hide Join;
    if |p| == |q| {
      assert p == q;
    } else {
      assert q == p + q[|p|..];
      JoinConcat(p, q[|p|..], sep);
    }
  }

  lemma SegmentsMatchPrefix(prefix: string, path: string)
    requires prefix != "" && path != "" && prefix[0] == path[0]
    requires Segments(prefix) <= Segments(path)
    ensures MatchesPath(prefix, path)
  {
    hide Split, Join;
    JoinSplit(prefix[1..], '/');
    JoinSplit(path[1..], '/');
    JoinOfExtension(Segments(prefix), Segments(path), '/');
    assert prefix == [prefix[0]] + prefix[1..] && path == [path[0]] + path[1..];
  }

  /** Matching is segment-wise: the prefix's segments are an initial part of the path's. */
  lemma MatchesPathIsSegmentwise(prefix: string, path: string)
    requires prefix != "" && prefix[0] == '/' && path != "" && path[0] == '/'
    ensures MatchesPath(prefix, path) <==> Segments(prefix) <= Segments(path)
  {
    hide Split;
    if HasPrefix(path, prefix + "/") {
      var rest := path[|prefix| + 1..];
      assert path == prefix + "/" + rest;
      PrefixMatchesSegments(prefix, rest);
    }
    if Segments(prefix) <= Segments(path) {
      SegmentsMatchPrefix(prefix, path);
    }
  }

  // ---- Validation ----

  function ValidatedTarget(r: Route): Result<Route, string> {
    if !ValidHost(r.localHost) then Err("invalid local host")
    else if !ValidPort(r.localPort) then Err("local port must be between 1 and 65535")
    else if r.tunnelGroup == "" then
      Ok(r.(tunnelGroup := if r.protocol.IsStream() then r.protocol.Name() else "web"))
    else Ok(r)
  }

  function ValidatedWeb(r: Route): Result<Route, string> {
    var domain := NormalizeDNSHost(r.domain);
    if domain.None? then Err("valid domain is required for HTTP/HTTPS route")
    else
      var prefix := NormalizePathPrefix(r.pathPrefix);
      if prefix.None? then Err("path prefix must start with / and contain no empty or dot segments")
      else if r.stripPath && prefix.value == "" then Err("strip path requires a path prefix")
      else if r.publicPort != 0 && !ValidPort(r.publicPort) then Err("public port must be between 1 and 65535")
      else
        Ok(r.(domain := domain.value, pathPrefix := prefix.value,
              publicPort := if r.publicPort == r.protocol.DefaultPublicPort() then 0 else r.publicPort))
  }

  function ValidatedStream(r: Route): Result<Route, string> {
    if NormalizeHost(r.domain) != "" then Err("domain is only valid for HTTP/HTTPS route")
    else if r.pathPrefix != "" then Err("path prefix is only valid for HTTP/HTTPS route")
    else if r.stripPath then Err("strip path is only valid for HTTP/HTTPS route")
    else if !ValidPort(r.publicPort) then Err("public port must be between 1 and 65535 for TCP/UDP route")
    else Ok(r.(domain := ""))
  }

  function ValidatedEndpoint(r: Route): Result<Route, string> {
    if r.protocol.IsWeb() then ValidatedWeb(r) else ValidatedStream(r)
  }

  function Cleaned(r: Route): Route {
    r.(name := TrimSpace(r.name), localHost := NormalizeHost(r.localHost), tunnelGroup := TrimSpace(r.tunnelGroup))
  }

  /** Validation with the rewriting of the receiver's fields as its value. */
  function Validate(r: Route): Result<Route, string> {
    var named := Cleaned(r);
    if named.name == "" then Err("name is required")
    else if named.protocol.OtherProtocol? then Err("protocol must be http, https, tcp, or udp")
    else
      match ValidatedEndpoint(named)
      case Err(error) => Err(error)
      case Ok(endpoint) => ValidatedTarget(endpoint)
  }

  /** A route as the store keeps it: validating it again changes nothing. */
  predicate Canonical(r: Route) { Validate(r) == Ok(r) }

  lemma EndpointKeeps(r: Route)
    requires ValidatedEndpoint(r).Ok?
    ensures var e := ValidatedEndpoint(r).value;
      e == r.(domain := e.domain, pathPrefix := e.pathPrefix, publicPort := e.publicPort)
  {
    hide NormalizeHost, NormalizeDNSHost, NormalizePathPrefix;
  }

  /** Validation touches only the fields a caller supplies. */
  lemma ValidateKeeps(r: Route)
    requires Validate(r).Ok?
    ensures var v := Validate(r).value;
      v == r.(name := v.name, localHost := v.localHost, tunnelGroup := v.tunnelGroup,
              domain := v.domain, pathPrefix := v.pathPrefix, publicPort := v.publicPort)
  {
    hide NormalizeHost, TrimSpace, ValidatedEndpoint, ValidatedTarget;
    EndpointKeeps(Cleaned(r));
    ValidatedTargetFixed(ValidatedEndpoint(Cleaned(r)).value);
  }

  /** Endpoint validation is idempotent and indifferent to the tunnel group. */
  lemma ValidatedWebFixed(r: Route, group: string)
    requires r.protocol.IsWeb() && ValidatedWeb(r).Ok?
    ensures var e := ValidatedWeb(r).value.(tunnelGroup := group); ValidatedWeb(e) == Ok(e)
    ensures var e := ValidatedWeb(r).value;
      && e.name == r.name && e.localHost == r.localHost && e.tunnelGroup == r.tunnelGroup
      && e.protocol == r.protocol
  {
    hide NormalizeHost, NormalizeDNSHost, NormalizePathPrefix;
    NormalizersAgree(r.domain);
    NormalizePathPrefixFixed(r.pathPrefix);
  }

  lemma ValidatedStreamFixed(r: Route, group: string)
    requires ValidatedStream(r).Ok?
    ensures var e := ValidatedStream(r).value.(tunnelGroup := group); ValidatedStream(e) == Ok(e)
    ensures var e := ValidatedStream(r).value;
      && e.name == r.name && e.localHost == r.localHost && e.tunnelGroup == r.tunnelGroup
      && e.protocol == r.protocol
  {
    hide NormalizeHost;
    EmptyHost();
  }

  lemma EmptyHost()
    ensures NormalizeHost("") == ""
  {
    assert ToLower("") == "";
  }

  lemma ValidatedTargetFixed(r: Route)
    requires ValidatedTarget(r).Ok?
    ensures ValidatedTarget(ValidatedTarget(r).value) == ValidatedTarget(r)
    ensures ValidatedTarget(r).value == r.(tunnelGroup := ValidatedTarget(r).value.tunnelGroup)
    ensures Trimmed(r.tunnelGroup) ==> Trimmed(ValidatedTarget(r).value.tunnelGroup)
    ensures !r.protocol.OtherProtocol? ==> ValidatedTarget(r).value.tunnelGroup != ""
  {
    hide ValidHost;
  }

  lemma ValidatedEndpointFixed(r: Route, group: string)
    requires ValidatedEndpoint(r).Ok?
    ensures var e := ValidatedEndpoint(r).value.(tunnelGroup := group); ValidatedEndpoint(e) == Ok(e)
    ensures var e := ValidatedEndpoint(r).value;
      && e.name == r.name && e.localHost == r.localHost && e.tunnelGroup == r.tunnelGroup
      && e.protocol == r.protocol
  {
    hide ValidatedWeb, ValidatedStream;
    if r.protocol.IsWeb() {
      ValidatedWebFixed(r, group);
    } else {
      ValidatedStreamFixed(r, group);
    }
  }

  /** An accepted route is a fixed point of validation, for all four protocols. */
  lemma ValidateFixed(r: Route)
    requires Validate(r).Ok?
    ensures Canonical(Validate(r).value)
  {
    hide NormalizeHost, ValidatedEndpoint, ValidatedTarget, TrimSpace;
    var cleaned, v := Cleaned(r), Validate(r).value;
    var endpoint := ValidatedEndpoint(cleaned).value;
    NormalizeHostFixed(r.localHost) by { AcceptedHostIsValid(cleaned); }
    ValidatedEndpointFixed(cleaned, v.tunnelGroup);
    ValidatedTargetFixed(endpoint);
    assert Cleaned(v) == v;
  }

  lemma AcceptedHostIsValid(r: Route)
    requires ValidatedEndpoint(r).Ok? && ValidatedTarget(ValidatedEndpoint(r).value).Ok?
    ensures ValidHost(r.localHost)
  {
    hide ValidHost;
    ValidatedEndpointFixed(r, "");
  }

  /** Canonical routes described field by field, without running validation. */
  predicate CanonicalFields(r: Route) {
    && r.name != "" && TrimSpace(r.name) == r.name
    && NormalizeHost(r.localHost) == r.localHost && ValidHost(r.localHost) && ValidPort(r.localPort)
    && r.tunnelGroup != "" && TrimSpace(r.tunnelGroup) == r.tunnelGroup
    && if r.protocol.IsWeb() then
         && NormalizeDNSHost(r.domain) == Some(r.domain) && NormalizePathPrefix(r.pathPrefix) == Some(r.pathPrefix)
         && (r.stripPath ==> r.pathPrefix != "")
         && 0 <= r.publicPort <= 65535 && r.publicPort != r.protocol.DefaultPublicPort()
       else
         r.protocol.IsStream() && r.domain == "" && r.pathPrefix == "" && !r.stripPath && ValidPort(r.publicPort)
  }

  /** The fields that endpoint validation left as they were. */
  lemma FixedEndpointFields(r: Route)
    requires ValidatedEndpoint(r) == Ok(r)
    ensures if r.protocol.IsWeb() then
        && NormalizeDNSHost(r.domain) == Some(r.domain) && NormalizePathPrefix(r.pathPrefix) == Some(r.pathPrefix)
        && (r.stripPath ==> r.pathPrefix != "")
        && 0 <= r.publicPort <= 65535 && r.publicPort != r.protocol.DefaultPublicPort()
      else r.domain == "" && r.pathPrefix == "" && !r.stripPath && ValidPort(r.publicPort)
  {
    hide NormalizeHost, NormalizeDNSHost, NormalizePathPrefix;
  }

  lemma CanonicalStages(r: Route)
    requires Canonical(r)
    ensures Cleaned(r) == r && ValidatedEndpoint(r) == Ok(r) && ValidatedTarget(r) == Ok(r)
  {
    hide NormalizeHost, TrimSpace, ValidatedEndpoint;
    var endpoint := ValidatedEndpoint(Cleaned(r)).value;
    EndpointKeeps(Cleaned(r));
    ValidatedTargetFixed(endpoint);
    hide ValidatedTarget;
    assert Cleaned(r) == r;
  }

  lemma CanonicalHasFields(r: Route)
    requires Canonical(r)
    ensures CanonicalFields(r)
  {
    hide NormalizeHost, NormalizeDNSHost, NormalizePathPrefix, ValidHost, TrimSpace, ValidatedEndpoint, Validate;
    CanonicalStages(r);
    FixedEndpointFields(r);
    CanonicalProtocolKnown(r);
  }

  lemma CanonicalProtocolKnown(r: Route)
    requires Canonical(r)
    ensures r.name != "" && !r.protocol.OtherProtocol?
  {
    hide NormalizeHost, TrimSpace, ValidatedEndpoint, ValidatedTarget;
    if Cleaned(r).name != "" { CanonicalStages(r); }
  }

  lemma FieldsAreCanonical(r: Route)
    requires CanonicalFields(r)
    ensures Canonical(r)
  {
    hide NormalizeHost, NormalizeDNSHost, NormalizePathPrefix, ValidHost, TrimSpace;
    EmptyHost();
    assert Cleaned(r) == r;
    assert ValidatedEndpoint(r) == Ok(r);
    assert ValidatedTarget(r) == Ok(r);
  }

  /** The two descriptions of a stored route agree. */
  lemma CanonicalIffFields(r: Route)
    ensures Canonical(r) <==> CanonicalFields(r)
  {
    hide Canonical, CanonicalFields;
    if Canonical(r) { CanonicalHasFields(r); }
    if CanonicalFields(r) { FieldsAreCanonical(r); }
  }
}
