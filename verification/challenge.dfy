/** The token negotiator: parsing a `WWW-Authenticate: Bearer` challenge
    (section 3 of RFC 6750, as used by the Docker Registry v2 token
    authentication flow), building the token endpoint URL, and the one
    request to that endpoint. */
module Challenge {
  import opened Basics
  import opened Strings
  import opened Http

  /** The parameters of a Bearer challenge. `scope` is None when the header
      carries no scope parameter. */
  datatype Challenge = Challenge(realm: string, service: string, scope: Option<string>)

  /** Why no token could be obtained. */
  datatype TokenError =
    | HeaderMissing                // no challenge header at all
    | ChallengeInvalid             // header not of the Bearer form, or empty realm or service
    | FetchFailed(cause: Outcome)  // the token endpoint call threw

  const RealmOpen: string := "Bearer realm=\""
  const ServiceOpen: string := "\",service=\""
  const ScopeOpen: string := ",scope=\""
  const Quote: string := "\""

  /** Timeout of the token endpoint call, in milliseconds. */
  const TokenTimeoutMs: nat := 10000

  /** Quoted values cannot contain a double quote. */
  predicate WellFormed(c: Challenge) {
    && '"' !in c.realm
    && '"' !in c.service
    && (c.scope.Some? ==> '"' !in c.scope.value)
  }

  /** The header text a challenge is written as, up to its last quote. */
  function Render(c: Challenge): string {
    RealmOpen + c.realm + ServiceOpen + c.service + Quote + ScopeClause(c.scope)
  }

  /** `t` begins with a complete `,scope="…"` parameter. */
  predicate OpensScope(t: string) {
    ScopeOpen <= t && '"' in t[|ScopeOpen|..]
  }

  /** The optional scope parameter right after the service parameter. */
  function ParseScope(t: string): (scope: Option<string>)
    ensures scope.Some? <==> OpensScope(t)
    ensures scope.Some? ==> '"' !in scope.value && ScopeOpen + scope.value + Quote <= t
  {
    if ScopeOpen <= t then
      var v := t[|ScopeOpen|..];
      match Find(v, '"')
      case None => None
      case Some(k) =>
        assert t == ScopeOpen + v;
        assert v[..k + 1] == v[..k] + Quote;
        Some(v[..k])
    else None
  }

  /** The start-anchored match of
      `Bearer realm="([^"]*)",service="([^"]*)"(,scope="([^"]*)"|)`;
      whatever follows the match is ignored. */
  function Parse(h: string): (c: Option<Challenge>)
    ensures c.Some? ==> WellFormed(c.value)
  {
    if RealmOpen <= h then ParseRealm(h[|RealmOpen|..]) else None
  }

  /** The match after `Bearer realm="`: the realm runs to the next quote. */
  function ParseRealm(a: string): (c: Option<Challenge>)
    ensures c.Some? ==> WellFormed(c.value)
  {
    match Find(a, '"')
    case None => None
    case Some(i) =>
      var b := a[i..];
      if ServiceOpen <= b then ParseService(a[..i], b[|ServiceOpen|..]) else None
  }

  /** The match after `",service="`: the service runs to the next quote. */
  function ParseService(realm: string, d: string): (c: Option<Challenge>)
    requires '"' !in realm
    ensures c.Some? ==> WellFormed(c.value)
  {
    match Find(d, '"')
    case None => None
    case Some(j) => Some(Challenge(realm, d[..j], ParseScope(d[j + 1..])))
  }

  /** The text of the optional scope parameter. */
  function ScopeClause(scope: Option<string>): string {
    match scope
    case None => ""
    case Some(x) => ScopeOpen + x + Quote
  }

  /** A string is its prefix followed by the rest. */
  lemma PrefixSplit(p: string, s: string)
    requires p <= s
    ensures s == p + s[|p|..]
  {
  }

  /** `x` is a prefix of `x + y`, and `y` what follows it. */
  lemma PrefixOfConcat(x: string, y: string)
    ensures x <= x + y && (x + y)[|x|..] == y
  {
  }

  /** What `ParseService` reads back from a service value and what follows. */
  lemma ParseServiceOf(realm: string, c: Challenge, tail: string)
    requires '"' !in realm && WellFormed(c)
    requires c.scope.None? ==> !OpensScope(tail)
    ensures ParseService(realm, c.service + Quote + (ScopeClause(c.scope) + tail)) == Some(Challenge(realm, c.service, c.scope))
  {
    var t := ScopeClause(c.scope) + tail;
    var d := c.service + Quote + t;
    assert d[..|c.service|] == c.service;
    FindAt(d, '"', |c.service|);
    assert d[|c.service| + 1..] == t;
    match c.scope
    case None =>
    case Some(x) =>
      var v := x + Quote + tail;
      assert t == ScopeOpen + v;
      PrefixOfConcat(ScopeOpen, v);
      assert v[..|x|] == x;
      FindAt(v, '"', |x|);
  }

  /** What `ParseService` accepted is the service value, its closing
      quote and the scope parameter, in that order, at the start of `d`. */
  lemma ParseServiceSound(realm: string, d: string, c: Challenge) returns (rest: string)
    requires '"' !in realm && ParseService(realm, d) == Some(c)
    ensures c.realm == realm
    ensures d == (c.service + Quote) + (ScopeClause(c.scope) + rest)
    ensures c.scope.None? ==> !OpensScope(rest)
  {
    var j := Find(d, '"').value;
    var t := d[j + 1..];
    assert c.service == d[..j] && c.scope == ParseScope(t);
    Around(d, j);
    assert Quote == [d[j]];
    var clause := ScopeClause(c.scope);
    assert clause <= t;
    rest := t[|clause|..];
    PrefixSplit(clause, t);
  }


  /** A parsed challenge is written at the start of the header, and a
      missing scope means the text after it opens no scope parameter. */
  lemma ParseSound(h: string)
    requires Parse(h).Some?
    ensures Render(Parse(h).value) <= h
    ensures Parse(h).value.scope.None? ==> !OpensScope(h[|Render(Parse(h).value)|..])
  {
    var c := Parse(h).value;
    PrefixSplit(RealmOpen, h);
    var rest := ParseRealmSound(h[|RealmOpen|..], c);
    Regroup(RealmOpen, c.realm, ServiceOpen, c.service, Quote, ScopeClause(c.scope), rest);
    assert h == Render(c) + rest;
    PrefixOfConcat(Render(c), rest);
  }

  /** What `ParseRealm` accepted, in order, and the text after it. */
  lemma ParseRealmSound(a: string, c: Challenge) returns (rest: string)
    requires ParseRealm(a) == Some(c)
    ensures a == c.realm + (ServiceOpen + ((c.service + Quote) + (ScopeClause(c.scope) + rest)))
    ensures c.scope.None? ==> !OpensScope(rest)
  {
    var i := Find(a, '"').value;
    var b := a[i..];
    var d := b[|ServiceOpen|..];
    assert ParseService(a[..i], d) == Some(c);
    rest := ParseServiceSound(a[..i], d, c);
    PrefixSplit(ServiceOpen, b);
    PrefixSplit(a[..i], a);
  }

  /** Every well-formed challenge is recovered from its header text,
      whatever follows it (unless a scope parameter follows one without). */
  lemma ParseComplete(c: Challenge, tail: string)
    requires WellFormed(c)
    requires c.scope.None? ==> !OpensScope(tail)
    ensures Parse(Render(c) + tail) == Some(c)
  {
    var d := c.service + Quote + (ScopeClause(c.scope) + tail);
    var b := ServiceOpen + d;
    var a := c.realm + b;
    var h := Render(c) + tail;
    Regroup(RealmOpen, c.realm, ServiceOpen, c.service, Quote, ScopeClause(c.scope), tail);
    assert h == RealmOpen + a;
    PrefixOfConcat(RealmOpen, a);
    assert a[..|c.realm|] == c.realm;
    FindAt(a, '"', |c.realm|);
    PrefixOfConcat(c.realm, b);
    PrefixOfConcat(ServiceOpen, d);
    ParseServiceOf(c.realm, c, tail);
    assert ParseRealm(a) == ParseService(c.realm, d);
  }

  /** Concatenation regrouped from the right to the left. */
  lemma Regroup(a: string, b: string, c: string, d: string, e: string, f: string, g: string)
    ensures a + (b + (c + ((d + e) + (f + g)))) == a + b + c + d + e + f + g
  {
  }

  /** The scope value, empty when absent; an empty scope is not sent. */
  function ScopeText(c: Challenge): string {
    c.scope.GetOr("")
  }

  /** The token endpoint URL, by plain concatenation without escaping. */
  function Endpoint(c: Challenge): string {
    c.realm + "?service=" + ServiceQuery(c.service, ScopeText(c))
  }

  /** The token endpoint for a challenge header, or why there is none:
      an absent or empty header, or one that does not match the Bearer
      pattern with a non-empty realm and service. */
  function TokenUrl(header: Option<string>): (r: Result<string, TokenError>)
    ensures r.Failure? ==> !r.error.FetchFailed?
    ensures r == Failure(HeaderMissing) <==> header.None? || header.value == ""
    ensures r.Success? ==> exists c :: Parse(header.value) == Some(c) && c.realm != "" && c.service != "" && r.value == Endpoint(c)
  {
    if header.None? || header.value == "" then Failure(HeaderMissing)
    else match Parse(header.value)
      case None => Failure(ChallengeInvalid)
      case Some(c) =>
        if c.realm != "" && c.service != "" then Success(Endpoint(c)) else Failure(ChallengeInvalid)
  }

  /** The header of a well-formed challenge yields its endpoint exactly when
      realm and service are non-empty. */
  lemma TokenUrlOfChallenge(c: Challenge, tail: string)
    requires WellFormed(c)
    requires c.scope.None? ==> !OpensScope(tail)
    ensures TokenUrl(Some(Render(c) + tail))
         == if c.realm != "" && c.service != "" then Success(Endpoint(c)) else Failure(ChallengeInvalid)
  {
    ParseComplete(c, tail);
  }

  /** A non-empty header that does not start with `Bearer realm="` is invalid. */
  lemma TokenUrlRejectsOtherSchemes(h: string)
    requires h != "" && !(RealmOpen <= h)
    ensures TokenUrl(Some(h)) == Failure(ChallengeInvalid)
  {
  }

  /** Reads an endpoint URL back: the realm before the first `?`, then
      `service=`, the service up to the first `&`, then an optional `scope=`. */
  function DecodeEndpoint(u: string): Option<(string, string, string)>
  {
    match Find(u, '?')
    case None => None
    case Some(q) =>
      var query := u[q + 1..];
      if "service=" <= query then DecodeService(u[..q], query[|"service="|..]) else None
  }

  /** The part of `DecodeEndpoint` after `service=`. */
  function DecodeService(realm: string, v: string): Option<(string, string, string)>
  {
    match Find(v, '&')
    case None => Some((realm, v, ""))
    case Some(k) =>
      var rest := v[k + 1..];
      if "scope=" <= rest then Some((realm, v[..k], rest[|"scope="|..])) else None
  }

  /** The query text after `service=` for a service and a scope value. */
  function ServiceQuery(service: string, scope: string): string {
    service + (if scope != "" then "&scope=" + scope else "")
  }

  /** A service without `&` and its scope are read back from the query. */
  lemma ServiceRoundTrip(realm: string, service: string, scope: string)
    requires '&' !in service
    ensures DecodeService(realm, ServiceQuery(service, scope)) == Some((realm, service, scope))
  {
    var v := ServiceQuery(service, scope);
    if scope != "" {
      assert "&scope=" + scope == "&" + ("scope=" + scope);
      AfterSeparator(service, '&', "scope=" + scope);
      FindAt(v, '&', |service|);
      PrefixOfConcat("scope=", scope);
    } else {
      assert v == service;
    }
  }

  /** The endpoint URL carries realm, service and scope recoverably as long
      as the realm has no `?` and the service no `&`. */
  lemma EndpointRoundTrip(c: Challenge)
    requires '?' !in c.realm && '&' !in c.service
    ensures DecodeEndpoint(Endpoint(c)) == Some((c.realm, c.service, ScopeText(c)))
  {
    var v := ServiceQuery(c.service, ScopeText(c));
    var query := "service=" + v;
    var u := Endpoint(c);
    assert u == c.realm + ("?" + query);
    assert u[..|c.realm|] == c.realm;
    FindAt(u, '?', |c.realm|);
    assert u[|c.realm| + 1..] == query;
    PrefixOfConcat("service=", v);
    ServiceRoundTrip(c.realm, c.service, ScopeText(c));
  }

  /** Without escaping, a service containing `&scope=` is indistinguishable
      from a separate scope parameter. */
  lemma EndpointAmbiguous()
    ensures Endpoint(Challenge("https://auth", "reg&scope=x", None))
         == Endpoint(Challenge("https://auth", "reg", Some("x")))
  {
  }

  /** The token endpoint request: a Basic authorization header exactly when
      a secret is configured, and a ten-second timeout. */
  function TokenRequest(url: string, secret: string): (r: Request)
    ensures r.url == url && r.timeoutMs == TokenTimeoutMs && r.followRedirect
    ensures Authorization in r.headers <==> secret != ""
    ensures Authorization in r.headers ==> r.headers[Authorization] == "Basic " + secret
    ensures r.headers.Keys <= {Authorization}
  {
    Request(url, if secret != "" then map[Authorization := "Basic " + secret] else map[], TokenTimeoutMs, true)
  }

  /** What one negotiation did: the `token` field obtained (possibly
      missing), or why none was; and the endpoint request, if one was made. */
  datatype Negotiation = Negotiation(result: Result<Option<string>, TokenError>, fetch: Option<Request>)

  /** `getToken`: validate the challenge header, call the token endpoint
      (whose answer is `reply`), and return the `token` field of its body. */
  function Negotiate(header: Option<string>, secret: string, reply: Outcome): (n: Negotiation)
    ensures n.fetch.Some? <==> TokenUrl(header).Success?
    ensures n.fetch.Some? ==> n.fetch.value == TokenRequest(TokenUrl(header).value, secret)
    ensures n.fetch.None? ==>
      n.result == Failure(if header.None? || header.value == "" then HeaderMissing else ChallengeInvalid)
    ensures n.result.Success? ==> n.fetch.Some? && reply.Delivered? && n.result.value == reply.response.token
    ensures n.fetch.Some? && reply.Delivered? ==> n.result == Success(reply.response.token)
    ensures n.fetch.Some? && !reply.Delivered? ==> n.result == Failure(FetchFailed(reply))
  {
    match TokenUrl(header)
    case Failure(e) => Negotiation(Failure(e), None)
    case Success(url) =>
      var fetch := Some(TokenRequest(url, secret));
      match reply
      case Delivered(resp) => Negotiation(Success(resp.token), fetch)
      case _ => Negotiation(Failure(FetchFailed(reply)), fetch)
  }
}
