/** The route table of `cmd/main.go`: which handlers are public, which sit behind the token
  * gate, and which of those also need the SuperAdmin role; and the middleware chain a request
  * runs through before its handler. */
module Routes {
  import opened Outcomes
  import opened Text
  import opened Dates
  import opened Models
  import opened Middleware
  import opened Auth

  /** Every registered route, named after its handler. The upload handler has none. */
  datatype Route =
    | PublicProducts | PublicWhatsAppLink
    | RegisterRoute | LoginRoute
    | ShopRead | ShopWhatsApp
    | ProductList | ProductRead | ProductCreate | ProductUpdate | ProductDelete
    | TransactionList | TransactionCreate
    | UserList | UserCreate | UserDelete
    | Dashboard

  /** The `/api` group: everything that passes `AuthRequired` first. */
  predicate NeedsToken(route: Route) {
    !(route.PublicProducts? || route.PublicWhatsAppLink? || route.RegisterRoute? || route.LoginRoute?)
  }

  /** The roles of the group's `CheckRole`, when it has one: `/shops`, `/users` and
    * `/reports` admit SuperAdmins only; products and transactions have no role check. */
  function RolesFor(route: Route): (roles: Option<seq<string>>)
    ensures roles.Some? ==> NeedsToken(route) && roles.value == [RoleName(SuperAdmin)]
    ensures (NeedsToken(route) && roles.None?) <==> (
      || route.ProductList? || route.ProductRead? || route.ProductCreate? || route.ProductUpdate?
      || route.ProductDelete? || route.TransactionList? || route.TransactionCreate?)
  {
    match route
    case ShopRead | ShopWhatsApp | UserList | UserCreate | UserDelete | Dashboard => Some(["SuperAdmin"])
    case _ => None
  }

  /** What the chain decides for a request with this Authorization header: public routes go
    * straight on; the others need an accepted token, and then the role the token names must
    * be one the group asks for. */
  function Pipeline(route: Route, header: string, decode: string -> Decoded, now: Instant): Gate {
    if !NeedsToken(route) then Next else RoleStage(route, Authenticate(header, decode, now))
  }

  /** What is left of the chain of a token route once `AuthRequired` has decided. */
  function RoleStage(route: Route, auth: Outcome<Identity>): Gate {
    match auth
    case Fail(f) => Abort(f)
    case Ok(id) =>
      match RolesFor(route)
      case None => Next
      case Some(roles) =>
        if id.role in roles then Next else Abort(Forbidden("Access denied. Required: " + Join(roles, " or ")))
  }

  /** The middleware of the route's group, run in order on a fresh request context; the
    * handler runs only when the result is `Next`. */
  method Admit(route: Route, ctx: Context, header: string, decode: string -> Decoded, now: Instant) returns (gate: Gate)
    modifies ctx
    ensures gate == Pipeline(route, header, decode, now)
    ensures gate.Next? && NeedsToken(route) ==> ctx.ShopId() == (Authenticate(header, decode, now).value.shopId, true)
  {
    if !NeedsToken(route) {
      return Next;
    }
    gate := AuthRequired(ctx, header, decode, now);
    if gate.Abort? {
      return;
    }
    var roles := RolesFor(route);
    if roles.Some? {
      gate := CheckRole(ctx, roles.value);
    }
  }

  /** After an accepted token, a group with a role check admits only a SuperAdmin. */
  lemma RoleStageAccepted(route: Route, id: Identity)
    ensures RoleStage(route, Ok(id)) ==
      if RolesFor(route).Some? && id.role != "SuperAdmin" then Abort(Forbidden("Access denied. Required: SuperAdmin"))
      else Next
  {
    if RolesFor(route).Some? {
      assert Join(["SuperAdmin"], " or ") == "SuperAdmin";
      assert "Access denied. Required: " + "SuperAdmin" == "Access denied. Required: SuperAdmin";
    }
  }

  /** Once the token is accepted, only the role check of the group is left. */
  lemma AcceptedCaller(route: Route, header: string, decode: string -> Decoded, now: Instant, id: Identity)
    requires Authenticate(header, decode, now) == Ok(id)
    ensures Pipeline(route, header, decode, now) ==
      if NeedsToken(route) && RolesFor(route).Some? && id.role != "SuperAdmin"
      then Abort(Forbidden("Access denied. Required: SuperAdmin"))
      else Next
  {
    RoleStageAccepted(route, id);
  }

  /** Before it expires, the token a login issues opens every route to a SuperAdmin, and to
    * an Admin exactly the routes without a role check. */
  lemma IssuedTokenAdmits(user: User, issued: Instant, token: string, decode: string -> Decoded, now: Instant, route: Route)
    requires decode(token) == Decoded(Hmac(256), TokenClaims(user, issued), true)
    requires now < (UnixSeconds(issued) + 86400) * Second
    ensures Pipeline(route, "Bearer " + token, decode, now).Next? <==> RolesFor(route).None? || user.role == SuperAdmin
    ensures user.role == Admin && RolesFor(route).Some? ==>
      Pipeline(route, "Bearer " + token, decode, now) == Abort(Forbidden("Access denied. Required: SuperAdmin"))
  {
    IssuedTokenAuthenticates(user, issued, token, decode, now);
    AcceptedCaller(route, "Bearer " + token, decode, now, Identity(user.id, user.shopId, RoleName(user.role), user.email));
  }

  /** Without a header no route of the `/api` group is reached. */
  lemma NoHeaderNoApi(route: Route, decode: string -> Decoded, now: Instant)
    requires NeedsToken(route)
    ensures Pipeline(route, "", decode, now) == Abort(Unauthorized("Authorization header is required"))
  {
  }
}
