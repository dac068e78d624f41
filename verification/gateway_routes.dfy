/** The gateway's route table
    (backend/api-gateway/src/main/java/org/projectbakso/apigateway/config/GatewayConfig.java):
    five routes, each a path pattern with an optional method condition, a target
    service and whether the authentication filter runs in front of it. */
module GatewayRoutes {
  import opened Wrappers
  import opened Text
  import GatewayFilter

  datatype RouteId = PublicUser | ProtectedUser | ProtectedCampaign | PublicCampaign | PublicNotification

  const UserService := "http://user-service:5001"
  const CampaignService := "http://campaign-service:8001"
  const NotificationService := "http://notification-service:8002"

  /** The path pattern made of `prefix` and a trailing `**` segment: the prefix
      itself or anything below it. */
  predicate Under(path: string, prefix: string) {
    path == prefix || StartsWith(path, prefix + "/")
  }

  predicate IsWrite(verb: string) {
    verb == "POST" || verb == "PUT" || verb == "DELETE"
  }

  /** The request predicate of each route. */
  predicate Matches(r: RouteId, path: string, verb: string): (b: bool)
    ensures b ==> Under(path, "/api/users") || Under(path, "/campaigns") || Under(path, "/notifications")
    ensures b && r != PublicUser && r != ProtectedUser ==> verb == "GET" || IsWrite(verb)
  {
    match r
    case PublicUser => Under(path, "/api/users/auth")
    case ProtectedUser => Under(path, "/api/users") && !Under(path, "/api/users/auth")
    case ProtectedCampaign => Under(path, "/campaigns") && IsWrite(verb)
    case PublicCampaign => Under(path, "/campaigns") && verb == "GET"
    case PublicNotification => Under(path, "/notifications") && (verb == "GET" || IsWrite(verb))
  }

  function Target(r: RouteId): string {
    match r
    case PublicUser | ProtectedUser => UserService
    case ProtectedCampaign | PublicCampaign => CampaignService
    case PublicNotification => NotificationService
  }

  /** Whether `.filter(authenticationFilter.apply())` is on the route. */
  predicate Filtered(r: RouteId) {
    r == ProtectedUser || r == ProtectedCampaign
  }

  /** The route a request takes, in declaration order; `None` is the gateway's 404. */
  function Select(path: string, verb: string): (r: Option<RouteId>)
    ensures r.Some? ==> Matches(r.value, path, verb)
    ensures r.None? ==> forall route :: !Matches(route, path, verb)
  {
    if Matches(PublicUser, path, verb) then Some(PublicUser)
    else if Matches(ProtectedUser, path, verb) then Some(ProtectedUser)
    else if Matches(ProtectedCampaign, path, verb) then Some(ProtectedCampaign)
    else if Matches(PublicCampaign, path, verb) then Some(PublicCampaign)
    else if Matches(PublicNotification, path, verb) then Some(PublicNotification)
    else None
  }

  /** A path under a prefix of two or more characters shares its second character. */
  lemma UnderSecondChar(path: string, prefix: string)
    requires Under(path, prefix) && |prefix| >= 2
    ensures |path| >= 2 && path[1] == prefix[1]
  {
    if path != prefix {
      assert (prefix + "/")[1] == prefix[1];
    }
  }

  /** The route predicates are mutually exclusive, so declaration order never
      decides between two routes. */
  lemma RoutesDisjoint(a: RouteId, b: RouteId, path: string, verb: string)
    requires Matches(a, path, verb) && Matches(b, path, verb)
    ensures a == b
  {
    var users := {PublicUser, ProtectedUser};
    var campaigns := {ProtectedCampaign, PublicCampaign};
    if !(a in users && b in users) && !(a in campaigns && b in campaigns) {
      UnderSecondChar(path, RoutePrefix(a));
      UnderSecondChar(path, RoutePrefix(b));
    }
  }

  /** The prefix of each route's path pattern. */
  function RoutePrefix(r: RouteId): (p: string)
    ensures forall path, verb :: Matches(r, path, verb) ==> Under(path, p)
  {
    match r
    case PublicUser => "/api/users/auth"
    case ProtectedUser => "/api/users"
    case ProtectedCampaign | PublicCampaign => "/campaigns"
    case PublicNotification => "/notifications"
  }

  /** `Select` returns exactly the route whose predicate holds, and `None` when no
      route matches. */
  lemma SelectSpec(path: string, verb: string, r: RouteId)
    ensures Select(path, verb) == Some(r) <==> Matches(r, path, verb)
  {
    var s := Select(path, verb);
    if Matches(r, path, verb) {
      assert s.Some? && Matches(s.value, path, verb);
      RoutesDisjoint(r, s.value, path, verb);
    }
  }

  /** Users: everything under /api/users reaches the user service, through the
      filter exactly when the path is not under /api/users/auth (GatewayConfig.java:28-51). */
  lemma UserRoutes(path: string, verb: string)
    requires Under(path, "/api/users")
    ensures Select(path, verb).Some? && Target(Select(path, verb).value) == UserService
    ensures Filtered(Select(path, verb).value) <==> !Under(path, "/api/users/auth")
  {
  }

  /** Campaigns: writes go through the filter, reads do not, and other methods
      have no route (GatewayConfig.java:59-91). */
  lemma CampaignRoutes(path: string, verb: string)
    requires Under(path, "/campaigns")
    ensures IsWrite(verb) ==> Select(path, verb) == Some(ProtectedCampaign) && Filtered(ProtectedCampaign)
    ensures verb == "GET" ==> Select(path, verb) == Some(PublicCampaign) && !Filtered(PublicCampaign)
    ensures Select(path, verb).Some? <==> verb == "GET" || IsWrite(verb)
    ensures Select(path, verb).Some? ==> Target(Select(path, verb).value) == CampaignService
  {
    var s := Select(path, verb);
    if s.Some? {
      UnderSecondChar(path, "/campaigns");
      UnderSecondChar(path, RoutePrefix(s.value));
    }
    SelectSpec(path, verb, ProtectedCampaign);
    SelectSpec(path, verb, PublicCampaign);
  }

  /** Notifications: GET, POST, PUT and DELETE reach the notification service,
      none of them through the filter (GatewayConfig.java:94-107). */
  lemma NotificationRoutes(path: string, verb: string)
    requires Under(path, "/notifications")
    requires verb == "GET" || IsWrite(verb)
    ensures Select(path, verb) == Some(PublicNotification)
    ensures !Filtered(PublicNotification) && Target(PublicNotification) == NotificationService
  {
    SelectSpec(path, verb, PublicNotification);
  }

  datatype Dispatch = Proxied(target: string, request: GatewayFilter.Request) | Unauthorized | NoRoute

  /** A request through the gateway: route selection, then `filter` on the
      filtered routes. The filter is the authentication filter's decision,
      `GatewayFilter.Apply` as written or `GatewayFilter.ApplyCorrected`. */
  function Handle(req: GatewayFilter.Request, filter: GatewayFilter.Request -> GatewayFilter.Outcome): (d: Dispatch)
    ensures Select(req.path, req.verb).None? <==> d.NoRoute?
    ensures d.Proxied? ==> d.target == Target(Select(req.path, req.verb).value)
    ensures Select(req.path, req.verb).Some? && !Filtered(Select(req.path, req.verb).value) ==> d.Proxied? && d.request == req
  {
    match Select(req.path, req.verb)
    case None => NoRoute
    case Some(r) =>
      if !Filtered(r) then Proxied(Target(r), req)
      else (match filter(req)
        case Unauthorized => Unauthorized
        case Forward(out) => Proxied(Target(r), out))
  }

  /** As written, a campaign write reaches the campaign service only with a
      verified Bearer token, or when its path contains a public endpoint (the
      filter's bypass). */
  lemma CampaignWriteNeedsToken(req: GatewayFilter.Request, verify: string -> Option<GatewayFilter.Claims>)
    requires Under(req.path, "/campaigns") && IsWrite(req.verb)
    requires Handle(req, r => GatewayFilter.Apply(r, verify)).Proxied?
    ensures Handle(req, r => GatewayFilter.Apply(r, verify)).target == CampaignService
    ensures var auth := GatewayFilter.Values(req.headers, "Authorization");
      GatewayFilter.IsPublic(req.path)
      || (auth != [] && StartsWith(auth[0], "Bearer ") && verify(auth[0][7..]).Some?)
  {
    CampaignRoutes(req.path, req.verb);
    if !GatewayFilter.IsPublic(req.path) {
      GatewayFilter.ForwardedIffVerified(req, verify);
    }
  }

  /** With the corrected filter no campaign path is public, so every campaign
      write that reaches the service carries a verified Bearer token, and the
      service sees exactly the token's identity. */
  lemma CorrectedCampaignWriteNeedsToken(req: GatewayFilter.Request, verify: string -> Option<GatewayFilter.Claims>)
    requires Under(req.path, "/campaigns") && IsWrite(req.verb)
    requires Handle(req, r => GatewayFilter.ApplyCorrected(r, verify)).Proxied?
    ensures var auth := GatewayFilter.Values(req.headers, "Authorization");
      && auth != [] && StartsWith(auth[0], "Bearer ") && verify(auth[0][7..]).Some?
      && var out := Handle(req, r => GatewayFilter.ApplyCorrected(r, verify)).request;
         GatewayFilter.Values(out.headers, GatewayFilter.UserIdHeader) == [verify(auth[0][7..]).value.id]
  {
    CampaignRoutes(req.path, req.verb);
    UnderSecondChar(req.path, "/campaigns");
    GatewayFilter.CorrectedIdentityIsVerified(req, verify);
  }
}
