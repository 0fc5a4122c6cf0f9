/** The request gate of `internal/middleware/auth.go`: the Bearer header, the token's claims,
  * the per-request context, and the role check. */
module Middleware {
  import opened Outcomes
  import opened Text
  import opened Uuids
  import opened Dates

  /** A JSON claim value as `MapClaims` holds it: a string, a number (a float64 in Go), or
    * anything else. */
  datatype Claim = Str(s: string) | Num(value: real) | OtherJson

  /** The `alg` a token names. Only the HMAC family passes the key function. */
  datatype SigningMethod = Hmac(bits: nat) | Rsa(bits: nat) | Ecdsa(bits: nat) | Unsecured

  /** What the JWT library makes of a token string: nothing (it is not three base64url parts
    * of JSON), or its signing method, its claims, and whether its signature checks out under
    * the HMAC key the server is configured with. The library stays abstract: a handler is
    * given its decoding as a function. */
  datatype Decoded = Malformed | Decoded(signing: SigningMethod, claims: map<string, Claim>, signatureValid: bool)

  /** `MapClaims.parseNumericDate` of jwt v5: a missing claim and the number 0 both mean no
    * date; any other number is that many seconds, cut down to a whole second; any other
    * value is an error. `None` is the error, `Some(None)` no date. */
  function NumericDate(claims: map<string, Claim>, key: string): (r: Option<Option<Instant>>)
    ensures r == None <==> key in claims && !claims[key].Num?
    ensures r == Some(None) <==> key !in claims || claims[key] == Num(0.0)
  {
    if key !in claims then Some(None)
    else match claims[key]
      case Num(x) => if x == 0.0 then Some(None) else Some(Some(x.Floor * Second))
      case _ => None
  }

  /** A date read from a number is a whole second, the last one not after that number. */
  lemma NumericDateSecond(claims: map<string, Claim>, key: string)
    requires NumericDate(claims, key).Some? && NumericDate(claims, key).value.Some?
    ensures var t := NumericDate(claims, key).value.value;
      && t % Second == 0
      && t as real <= claims[key].value * Second as real < (t + Second) as real
  {
  }

  /** `exp` (RFC 7519, section 4.1.4), when there is one, must be after `now`. */
  predicate ExpiryOk(claims: map<string, Claim>, now: Instant) {
    NumericDate(claims, "exp").Some? && (NumericDate(claims, "exp").value.Some? ==> now < NumericDate(claims, "exp").value.value)
  }

  /** `nbf` (RFC 7519, section 4.1.5), when there is one, must not be after `now`. */
  predicate NotBeforeOk(claims: map<string, Claim>, now: Instant) {
    NumericDate(claims, "nbf").Some? && (NumericDate(claims, "nbf").value.Some? ==> NumericDate(claims, "nbf").value.value <= now)
  }

  /** An `exp` of 0 is no expiry; any other number expires at its whole second. */
  lemma ExpiryReading(now: Instant, x: real)
    ensures ExpiryOk(map["exp" := Num(0.0)], now)
    ensures ExpiryOk(map["exp" := Num(x)], now) <==> x == 0.0 || now < x.Floor * Second
  {
  }

  /** `err == nil && token.Valid` for `jwt.Parse` with the handler's key function, which
    * refuses every signing method outside the HMAC family. */
  predicate TokenAccepted(d: Decoded, now: Instant) {
    d.Decoded? && d.signing.Hmac? && d.signatureValid && ExpiryOk(d.claims, now) && NotBeforeOk(d.claims, now)
  }

  /** `v, _ := claims[key].(string)`: the claim's text, or "" when it is missing or no string. */
  function ClaimText(claims: map<string, Claim>, key: string): string {
    if key in claims && claims[key].Str? then claims[key].s else ""
  }

  /** What the gate learns about the caller; everything comes from the verified claims. */
  datatype Identity = Identity(userId: Uuid, shopId: Uuid, role: string, email: string)

  /** The header split at its first space into a scheme, which must be `Bearer` in any
    * letter case, and the token, which is all the rest. */
  function ParseBearer(header: string): (r: Outcome<string>)
    ensures r.Fail? ==> r.failure == Unauthorized(
      if header == "" then "Authorization header is required" else "Format: Authorization: Bearer <token>")
    ensures r.Ok? <==> ' ' in header && (var w := SplitAtFirstSpace(header).value.0; EqualFoldAscii(w, "Bearer"))
    ensures r.Ok? ==> (
      && |r.value| < |header|
      && var w := header[..|header| - |r.value| - 1];
        header == w + " " + r.value && ' ' !in w && EqualFoldAscii(w, "Bearer"))
  {
    if header == "" then Fail(Unauthorized("Authorization header is required"))
    else match SplitAtFirstSpace(header)
      case None => Fail(Unauthorized("Format: Authorization: Bearer <token>"))
      case Some(parts) =>
        if EqualFoldAscii(parts.0, "Bearer") then
          assert header[..|header| - |parts.1| - 1] == parts.0;
          Ok(parts.1)
        else Fail(Unauthorized("Format: Authorization: Bearer <token>"))
  }

  /** The checks of `AuthRequired` in their order: header shape, token validity, then the two
    * identifier claims; `role` and `email` default to "". */
  function Authenticate(header: string, decode: string -> Decoded, now: Instant): (r: Outcome<Identity>)
    ensures r.Fail? ==> r.failure.Unauthorized?
    ensures r.Ok? <==> (
      && ParseBearer(header).Ok?
      && TokenAccepted(decode(ParseBearer(header).value), now)
      && Parse(ClaimText(decode(ParseBearer(header).value).claims, "user_id")).Some?
      && Parse(ClaimText(decode(ParseBearer(header).value).claims, "shop_id")).Some?)
    ensures r.Ok? ==> var claims := decode(ParseBearer(header).value).claims;
      && Parse(ClaimText(claims, "user_id")) == Some(r.value.userId)
      && Parse(ClaimText(claims, "shop_id")) == Some(r.value.shopId)
      && r.value.role == ClaimText(claims, "role")
      && r.value.email == ClaimText(claims, "email")
  {
    match ParseBearer(header)
    case Fail(f) => Fail(f)
    case Ok(token) =>
      var d := decode(token);
      if !TokenAccepted(d, now) then Fail(Unauthorized("Invalid or expired token"))
      else match Parse(ClaimText(d.claims, "user_id"))
        case None => Fail(Unauthorized("Invalid user ID in token"))
        case Some(userId) =>
          match Parse(ClaimText(d.claims, "shop_id"))
          case None => Fail(Unauthorized("Invalid shop ID in token"))
          case Some(shopId) => Ok(Identity(userId, shopId, ClaimText(d.claims, "role"), ClaimText(d.claims, "email")))
  }

  /** A value stored in the request context. */
  datatype CtxValue = UuidValue(id: Uuid) | TextValue(text: string)

  /** Gin's per-request key/value bag. */
  class Context {
    var keys: map<string, CtxValue>

    constructor ()
      ensures keys == map[]
    {
      keys := map[];
    }

    /** `c.Set(key, value)`. */
    method Set(key: string, value: CtxValue)
      modifies this
      ensures keys == old(keys)[key := value]
    {
      keys := keys[key := value];
    }

    /** `GetShopIDFromContext`: the stored identifier and true, or the zero identifier and
      * false when the key is missing or holds something else. */
    function ShopId(): (r: (Uuid, bool))
      reads this
      ensures r.1 <==> "shopID" in keys && keys["shopID"].UuidValue?
      ensures r.1 ==> r.0 == keys["shopID"].id
      ensures !r.1 ==> r.0 == Nil
    {
      if "shopID" in keys && keys["shopID"].UuidValue? then (keys["shopID"].id, true) else (Nil, false)
    }

    /** `GetUserIDFromContext`, with the same fall-backs. */
    function UserId(): (r: (Uuid, bool))
      reads this
      ensures r.1 <==> "userID" in keys && keys["userID"].UuidValue?
      ensures r.1 ==> r.0 == keys["userID"].id
      ensures !r.1 ==> r.0 == Nil
    {
      if "userID" in keys && keys["userID"].UuidValue? then (keys["userID"].id, true) else (Nil, false)
    }

    /** `GetRoleFromContext`: the stored role, or "" when it is missing or not a string. */
    function Role(): (r: string)
      reads this
      ensures "role" in keys && keys["role"].TextValue? ==> r == keys["role"].text
      ensures !("role" in keys && keys["role"].TextValue?) ==> r == ""
    {
      if "role" in keys && keys["role"].TextValue? then keys["role"].text else ""
    }
  }

  /** `AuthRequired()`: on success the context holds the caller's identity and the request
    * goes on; otherwise it is aborted and the context is untouched. */
  method AuthRequired(ctx: Context, header: string, decode: string -> Decoded, now: Instant) returns (gate: Gate)
    modifies ctx
    ensures gate.Next? <==> Authenticate(header, decode, now).Ok?
    ensures gate.Abort? ==> gate.failure == Authenticate(header, decode, now).failure && ctx.keys == old(ctx.keys)
    ensures gate.Next? ==> var id := Authenticate(header, decode, now).value;
      ctx.keys == old(ctx.keys)["userID" := UuidValue(id.userId)]["shopID" := UuidValue(id.shopId)]
                               ["role" := TextValue(id.role)]["email" := TextValue(id.email)]
    ensures gate.Next? ==> var id := Authenticate(header, decode, now).value;
      ctx.ShopId() == (id.shopId, true) && ctx.UserId() == (id.userId, true) && ctx.Role() == id.role
  {
    var auth := Authenticate(header, decode, now);
    if auth.Fail? {
      return Abort(auth.failure);
    }
    var id := auth.value;
    ctx.Set("userID", UuidValue(id.userId));
    ctx.Set("shopID", UuidValue(id.shopId));
    ctx.Set("role", TextValue(id.role));
    ctx.Set("email", TextValue(id.email));
    assert ctx.keys["shopID"] == UuidValue(id.shopId);
    assert ctx.keys["userID"] == UuidValue(id.userId);
    assert ctx.keys["role"] == TextValue(id.role);
    return Next;
  }

  /** What `CheckRole(roles...)` decides: no role in the context is Forbidden, a role that is
    * not a string makes the type assertion panic (a 500 from the recovery middleware), and
    * otherwise the request goes on exactly when the role is one of `roles`. */
  function RoleGate(keys: map<string, CtxValue>, roles: seq<string>): (g: Gate)
    ensures g.Next? <==> "role" in keys && keys["role"].TextValue? && keys["role"].text in roles
    ensures "role" !in keys ==> g == Abort(Forbidden("Role not found"))
    ensures "role" in keys && keys["role"].TextValue? && keys["role"].text !in roles ==>
      g == Abort(Forbidden("Access denied. Required: " + Join(roles, " or ")))
  {
    if "role" !in keys then Abort(Forbidden("Role not found"))
    else if !keys["role"].TextValue? then Abort(Internal(""))
    else if keys["role"].text in roles then Next
    else Abort(Forbidden("Access denied. Required: " + Join(roles, " or ")))
  }

  /** `CheckRole(roles...)`, scanning the list and stopping at the first match. */
  method CheckRole(ctx: Context, roles: seq<string>) returns (gate: Gate)
    ensures gate == RoleGate(ctx.keys, roles)
  {
    if "role" !in ctx.keys {
      return Abort(Forbidden("Role not found"));
    }
    var value := ctx.keys["role"];
    if !value.TextValue? {
      return Abort(Internal(""));
    }
    var i := 0;
    while i < |roles|
      invariant 0 <= i <= |roles|
      invariant value.text !in roles[..i]
    {
      if value.text == roles[i] {
        return Next;
      }
      i := i + 1;
    }
    assert roles[..i] == roles;
    return Abort(Forbidden("Access denied. Required: " + Join(roles, " or ")));
  }
}
