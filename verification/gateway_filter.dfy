/** The API gateway's authentication filter
    (backend/api-gateway/src/main/java/org/projectbakso/apigateway/filter/AuthenticationFilter.java):
    a guard sequence over the request that either forwards it, possibly with
    identity headers added, or answers 401. Signature checking and claim parsing
    (the JWT library and the secret key) are the parameter `verify`, which yields
    the claims of a good token and `None` for any failure. */
module GatewayFilter {
  import opened Wrappers
  import opened Text

  /** Request headers: each name with its list of values, in arrival order.
      Names are compared exactly (HTTP's case-insensitivity is not modelled). */
  type Headers = map<string, seq<string>>

  datatype Request = Request(path: string, verb: string, headers: Headers)

  /** The two claims the filter reads; `name` may be absent (Java `null`). */
  datatype Claims = Claims(id: string, name: Option<string>)

  datatype Outcome = Forward(request: Request) | Unauthorized

  const PublicEndpoints: seq<string> := ["/api/users/auth/signup", "/api/users/auth/login", "/api/users/auth/refresh"]
  const BearerPrefix := "Bearer "
  const UserIdHeader := "X-User-Id"
  const UserNameHeader := "X-User-Name"
  const UnknownName := "Unknown"

  /** `headers().header(name)`: the values under `name`, empty when absent. */
  function Values(h: Headers, name: string): seq<string> {
    if name in h then h[name] else []
  }

  /** `ServerRequest.from(request).header(name, value)`: adds `value` after any
      values already present under `name`. */
  function AddHeader(h: Headers, name: string, value: string): Headers {
    h[name := Values(h, name) + [value]]
  }

  /** The bypass test: the path contains one of the public endpoints anywhere. */
  predicate IsPublic(path: string) {
    exists e :: e in PublicEndpoints && Includes(path, e)
  }

  /** The filter as written. */
  function Apply(req: Request, verify: string -> Option<Claims>): (r: Outcome)
    ensures r.Forward? ==> r.request.path == req.path && r.request.verb == req.verb
    ensures r.Unauthorized? ==> !IsPublic(req.path)
    ensures r.Forward? && !IsPublic(req.path) ==> Values(req.headers, "Authorization") != []
  {
    if IsPublic(req.path) then Forward(req)
    else
      var auth := Values(req.headers, "Authorization");
      if auth == [] then Unauthorized
      else if !StartsWith(auth[0], BearerPrefix) then Unauthorized
      else
        match verify(auth[0][|BearerPrefix|..])
        case None => Unauthorized
        case Some(claims) =>
          Forward(req.(headers := AddHeader(AddHeader(req.headers, UserIdHeader, claims.id),
                                            UserNameHeader, claims.name.GetOr(UnknownName))))
  }

  /** A request whose path contains a public endpoint is forwarded unchanged,
      whatever its headers (AuthenticationFilter.java:26-39). */
  lemma PublicPathBypasses(req: Request, verify: string -> Option<Claims>)
    requires IsPublic(req.path)
    ensures Apply(req, verify) == Forward(req)
  {
  }

  /** Off the public paths the filter decides to forward a request exactly when it
      has an Authorization header whose first value starts with "Bearer " and whose
      remainder after those 7 characters verifies; otherwise the answer is 401
      (AuthenticationFilter.java:42-56,76-78). Whether the forwarded call itself
      succeeds is `Respond`'s concern. */
  lemma ForwardedIffVerified(req: Request, verify: string -> Option<Claims>)
    requires !IsPublic(req.path)
    ensures var auth := Values(req.headers, "Authorization");
      Apply(req, verify).Forward? <==>
        auth != [] && StartsWith(auth[0], BearerPrefix) && verify(auth[0][7..]).Some?
    ensures Apply(req, verify).Unauthorized? <==> !Apply(req, verify).Forward?
  {
  }

  /** A verified request goes on with its path and method unchanged, every header
      other than the two identity headers unchanged, and the claims' id and name
      ("Unknown" without one) appended to them (AuthenticationFilter.java:63-75). */
  lemma ForwardedIdentity(req: Request, verify: string -> Option<Claims>)
    requires !IsPublic(req.path)
    requires Apply(req, verify).Forward?
    ensures var auth := Values(req.headers, "Authorization");
      var claims := verify(auth[0][7..]).value;
      var out := Apply(req, verify).request;
      && out.path == req.path && out.verb == req.verb
      && Values(out.headers, UserIdHeader) == Values(req.headers, UserIdHeader) + [claims.id]
      && Values(out.headers, UserNameHeader)
           == Values(req.headers, UserNameHeader) + [if claims.name.Some? then claims.name.value else "Unknown"]
      && forall n :: n != UserIdHeader && n != UserNameHeader ==> Values(out.headers, n) == Values(req.headers, n)
  {
  }

  /** What the filter function returns once `next.handle` has run: the downstream
      service's answer to the request it was handed, a 401, or the failure of the
      downstream call propagating out of the filter. */
  datatype Reply = Served(request: Request) | Status401 | Failed(request: Request)

  /** The whole filter function, `next.handle` included; `downstreamFails` says
      whether the call to the routed service throws. On the bypass the call sits
      outside any `try`, so its failure propagates (AuthenticationFilter.java:38);
      after the token checks it sits inside the `try` whose `catch` answers 401
      (AuthenticationFilter.java:55-78). */
  function Respond(req: Request, verify: string -> Option<Claims>, downstreamFails: bool): (r: Reply)
    ensures r == Status401 <==> !IsPublic(req.path) && (Apply(req, verify).Unauthorized? || downstreamFails)
    ensures r.Served? <==> Apply(req, verify).Forward? && !downstreamFails
    ensures r.Served? ==> r.request == Apply(req, verify).request
    ensures r.Failed? ==> IsPublic(req.path) && downstreamFails && r.request == req
  {
    match Apply(req, verify)
    case Unauthorized => Status401
    case Forward(out) =>
      if !downstreamFails then Served(out)
      else if IsPublic(req.path) then Failed(req)
      else Status401
  }

  /** A request with a valid token whose forwarded call fails is answered 401,
      as if the token were bad, while the same failure on a public path is not
      turned into 401. */
  lemma DownstreamFailureLooksUnauthorized(req: Request, verify: string -> Option<Claims>)
    ensures !IsPublic(req.path) && Apply(req, verify).Forward? ==>
      Respond(req, verify, false).Served? && Respond(req, verify, true) == Status401
    ensures IsPublic(req.path) ==> Respond(req, verify, true) == Failed(req)
  {
  }

  // ------------------------------------------------------------------ findings

  /** A path outside /api/users/auth that merely contains a public endpoint is
      forwarded with no Authorization header at all. */
  lemma BypassByContainment(verify: string -> Option<Claims>)
    ensures Apply(Request("/campaigns/1/api/users/auth/login", "PUT", map[]), verify)
         == Forward(Request("/campaigns/1/api/users/auth/login", "PUT", map[]))
    ensures !StartsWith("/campaigns/1/api/users/auth/login", "/api/users/auth")
  {
    var path := "/campaigns/1/api/users/auth/login";
    assert path[12..] == "/api/users/auth/login";
    var e := PublicEndpoints[1];
    assert e in PublicEndpoints && e <= path[12..];
    assert Includes(path, e);
    assert path[1] != "/api/users/auth"[1];
  }

  /** Services read the first value of an identity header. A client that sends its
      own X-User-Id along with any valid token keeps its value first, so the
      service sees the client's choice instead of the token's id. */
  lemma SpoofedIdentityReachesService()
    ensures var verify := (t: string) => if t == "t" then Some(Claims("alice", Some("Alice"))) else None;
      var req := Request("/campaigns/", "POST", map["Authorization" := ["Bearer t"], UserIdHeader := ["bob"]]);
      && !IsPublic(req.path)
      && Apply(req, verify).Forward?
      && Values(Apply(req, verify).request.headers, UserIdHeader)[0] == "bob"
  {
    var verify := (t: string) => if t == "t" then Some(Claims("alice", Some("Alice"))) else None;
    var req := Request("/campaigns/", "POST", map["Authorization" := ["Bearer t"], UserIdHeader := ["bob"]]);
    NotPublic(req.path);
    assert "Bearer t"[7..] == "t";
  }

  /** "/campaigns/" contains none of the public endpoints (it is shorter than all of them). */
  lemma NotPublic(path: string)
    requires |path| < 21
    ensures !IsPublic(path)
  {
  }

  /** The intended bypass: only the public endpoints themselves, or paths below them. */
  predicate IsPublicIntended(path: string) {
    exists e :: e in PublicEndpoints && (path == e || StartsWith(path, e + "/"))
  }

  /** `header(name, value)` as a replacement: `value` becomes the only value. */
  function SetHeader(h: Headers, name: string, value: string): Headers {
    h[name := [value]]
  }

  /** The filter with both corrections: the bypass matches public endpoints by
      prefix, and the identity headers replace whatever the client sent. */
  function ApplyCorrected(req: Request, verify: string -> Option<Claims>): (r: Outcome)
    ensures r.Forward? ==> r.request.path == req.path && r.request.verb == req.verb
    ensures r.Unauthorized? ==> !IsPublicIntended(req.path)
    ensures r.Forward? && !IsPublicIntended(req.path) ==>
      Values(req.headers, "Authorization") != [] && |Values(r.request.headers, UserIdHeader)| == 1
  {
    if IsPublicIntended(req.path) then Forward(req)
    else
      var auth := Values(req.headers, "Authorization");
      if auth == [] then Unauthorized
      else if !StartsWith(auth[0], BearerPrefix) then Unauthorized
      else
        match verify(auth[0][|BearerPrefix|..])
        case None => Unauthorized
        case Some(claims) =>
          Forward(req.(headers := SetHeader(SetHeader(req.headers, UserIdHeader, claims.id),
                                            UserNameHeader, claims.name.GetOr(UnknownName))))
  }

  /** Corrected bypass: a path not under /api/users/auth is forwarded only with a
      verified Bearer token. */
  lemma CorrectedBypassOnlyUnderAuth(req: Request, verify: string -> Option<Claims>)
    requires !StartsWith(req.path, "/api/users/auth")
    requires ApplyCorrected(req, verify).Forward?
    ensures var auth := Values(req.headers, "Authorization");
      auth != [] && StartsWith(auth[0], BearerPrefix) && verify(auth[0][7..]).Some?
  {
  }

  /** Corrected identity: whatever headers the client sent, a forwarded verified
      request carries exactly one X-User-Id, the token's id, and one X-User-Name. */
  lemma CorrectedIdentityIsVerified(req: Request, verify: string -> Option<Claims>)
    requires !IsPublicIntended(req.path)
    requires ApplyCorrected(req, verify).Forward?
    ensures var auth := Values(req.headers, "Authorization");
      var claims := verify(auth[0][7..]).value;
      var out := ApplyCorrected(req, verify).request;
      && Values(out.headers, UserIdHeader) == [claims.id]
      && Values(out.headers, UserNameHeader) == [claims.name.GetOr(UnknownName)]
  {
  }
}
