/** Registration and login (`internal/handlers/auth.go`), and the claims of the token a login
  * hands out, which the gate of the `Middleware` module reads back. */
module Auth {
  import opened Outcomes
  import opened Seqs
  import opened Text
  import opened Utf8
  import opened Uuids
  import opened Dates
  import opened Models
  import opened Dto
  import opened Database
  import opened Middleware

  // ---------------------------------------------------------------- registration

  datatype RegisterResponse = RegisterResponse(message: string, user: UserResponse)

  /** The shop a registration lands in: an existing one named by `shop_id`, or a new one. */
  datatype ShopChoice = JoinShop(id: Uuid) | NewShop(name: string, whatsAppNumber: string)

  /** The checks on the shop part of a registration, in the order the code makes them. */
  function ChooseShop(shops: seq<Shop>, req: RegisterRequest): (r: Outcome<ShopChoice>)
    ensures req.shopId != "" && Parse(req.shopId).None? ==> r == Fail(BadRequest("Invalid shop_id format"))
    ensures req.shopId != "" && Parse(req.shopId).Some? ==>
      r == if ShopById(shops, Parse(req.shopId).value).Some? then Ok(JoinShop(Parse(req.shopId).value))
           else Fail(NotFound("Shop not found"))
    ensures req.shopId == "" ==> (r.Ok? <==> req.shopName != "" && req.whatsAppNumber != "" && req.role == RoleName(SuperAdmin))
    ensures req.shopId == "" && r.Ok? ==> r.value == NewShop(req.shopName, req.whatsAppNumber)
    ensures req.shopId == "" && (req.shopName == "" || req.whatsAppNumber == "") ==>
      r == Fail(BadRequest("shop_name and whatsapp_number are required when creating a new shop"))
    ensures req.shopId == "" && req.shopName != "" && req.whatsAppNumber != "" && req.role != RoleName(SuperAdmin) ==>
      r == Fail(BadRequest("Only SuperAdmin can create a new shop"))
    ensures r.Ok? && r.value.JoinShop? ==> r.value.id in ShopIds(shops)
  {
    if req.shopId != "" then
      match Parse(req.shopId)
      case None => Fail(BadRequest("Invalid shop_id format"))
      case Some(id) =>
        var found := ShopById(shops, id);
        if found.None? then Fail(NotFound("Shop not found"))
        else
          assert ShopIds(shops)[found.value] == id;
          Ok(JoinShop(id))
    else if req.shopName == "" || req.whatsAppNumber == "" then
      Fail(BadRequest("shop_name and whatsapp_number are required when creating a new shop"))
    else if req.role != RoleName(SuperAdmin) then Fail(BadRequest("Only SuperAdmin can create a new shop"))
    else Ok(NewShop(req.shopName, req.whatsAppNumber))
  }

  /** Naming an existing shop is enough to join it, in either role: the registration route
    * asks for no token. */
  lemma JoiningNeedsOnlyAShopId(shops: seq<Shop>, req: RegisterRequest, k: nat)
    requires k < |shops| && req.shopId == Format(shops[k].id)
    ensures ChooseShop(shops, req) == Ok(JoinShop(shops[k].id))
  {
    ParseFormat(shops[k].id);
    assert ShopById(shops, shops[k].id).Some?;
  }

  /** The new user's row. */
  function NewUser(req: RegisterRequest, digest: Digest, role: Role, shop: Uuid, now: Instant): User {
    User(Nil, req.name, req.email, digest, role, shop, now)
  }

  /** The shop row a registration without `shop_id` creates: active, with the given name and
    * number. */
  function NewShopRow(req: RegisterRequest, newShopId: Uuid, now: Instant): Shop {
    Shop(Nil, req.shopName, true, req.whatsAppNumber, now).BeforeCreate(newShopId)
  }

  /** What a registration must pass before anything is written: the body binds, the email is
    * not registered yet, and the shop part is acceptable. */
  predicate Admissible(users: seq<User>, shops: seq<Shop>, body: Option<RegisterRequest>) {
    && Bind(body, RegisterBinds).Ok? && UserByEmail(users, body.value.email).None?
    && ChooseShop(shops, body.value).Ok?
  }

  /** The shop the new user belongs to, once the checks have passed. */
  function ChosenShop(shops: seq<Shop>, req: RegisterRequest, newShopId: Uuid): Uuid
    requires ChooseShop(shops, req).Ok?
  {
    if ChooseShop(shops, req).value.JoinShop? then ChooseShop(shops, req).value.id else newShopId
  }

  /** `Register`. The steps are not one unit of work: a shop created for the registration
    * stays when hashing the password or inserting the user fails afterwards. */
  method Register(db: Db, body: Option<RegisterRequest>, newShopId: Uuid, newUserId: Uuid, now: Instant)
    returns (r: Outcome<RegisterResponse>)
    requires db.Valid()
    modifies db
    ensures db.Valid()
    ensures db.products == old(db.products) && db.transactions == old(db.transactions)
    ensures Bind(body, RegisterBinds).Fail? ==> r == Fail(Bind(body, RegisterBinds).failure)
    ensures Bind(body, RegisterBinds).Ok? && UserByEmail(old(db.users), body.value.email).Some? ==>
      r == Fail(Conflict("Email already registered"))
    ensures Bind(body, RegisterBinds).Ok? && UserByEmail(old(db.users), body.value.email).None?
            && ChooseShop(old(db.shops), body.value).Fail? ==>
      r == Fail(ChooseShop(old(db.shops), body.value).failure)
    ensures r.Fail? ==> db.users == old(db.users)
    ensures db.shops ==
      if Admissible(old(db.users), old(db.shops), body) && ChooseShop(old(db.shops), body.value).value.NewShop?
         && newShopId !in ShopIds(old(db.shops))
      then old(db.shops) + [NewShopRow(body.value, newShopId, now)]
      else old(db.shops)
    ensures Admissible(old(db.users), old(db.shops), body) && ChooseShop(old(db.shops), body.value).value.NewShop?
            && newShopId in ShopIds(old(db.shops)) ==>
      r == Fail(Internal("Failed to create shop"))
    ensures Admissible(old(db.users), old(db.shops), body)
            && (ChooseShop(old(db.shops), body.value).value.NewShop? ==> newShopId !in ShopIds(old(db.shops)))
            && HashPassword(body.value.password).None? ==>
      r == Fail(Internal("Failed to process password"))
    ensures Admissible(old(db.users), old(db.shops), body)
            && (ChooseShop(old(db.shops), body.value).value.NewShop? ==> newShopId !in ShopIds(old(db.shops)))
            && HashPassword(body.value.password).Some? && newUserId in UserIds(old(db.users)) ==>
      r == Fail(Internal("Failed to create user"))
    ensures r.Ok? <==>
      && Admissible(old(db.users), old(db.shops), body)
      && (ChooseShop(old(db.shops), body.value).value.NewShop? ==> newShopId !in ShopIds(old(db.shops)))
      && HashPassword(body.value.password).Some? && newUserId !in UserIds(old(db.users))
    ensures r.Ok? ==>
      var shop := ChosenShop(old(db.shops), body.value, newShopId);
      var user := NewUser(body.value, HashPassword(body.value.password).value, ParseRole(body.value.role).value, shop, now).BeforeCreate(newUserId);
      && db.users == old(db.users) + [user]
      && r.value == RegisterResponse("User registered successfully", ToUserResponse(user))
  {
    var bound := Bind(body, RegisterBinds);
    if bound.Fail? {
      return Fail(bound.failure);
    }
    var req := bound.value;
    if UserByEmail(db.users, req.email).Some? {
      return Fail(Conflict("Email already registered"));
    }
    assert req.email !in Emails(db.users) by {
      assert forall i :: 0 <= i < |db.users| ==> Emails(db.users)[i] == db.users[i].email;
    }
    var choice := ChooseShop(db.shops, req);
    if choice.Fail? {
      return Fail(choice.failure);
    }
    var shopId: Uuid;
    match choice.value {
      case JoinShop(id) =>
        shopId := id;
      case NewShop(name, number) =>
        var created := db.InsertShop(NewShopRow(req, newShopId, now));
        if !created {
          return Fail(Internal("Failed to create shop"));
        }
        shopId := newShopId;
        assert ShopIds(db.shops)[|db.shops| - 1] == newShopId;
    }
    assert shopId in ShopIds(db.shops);
    var digest := HashPassword(req.password);
    if digest.None? {
      return Fail(Internal("Failed to process password"));
    }
    var user := NewUser(req, digest.value, ParseRole(req.role).value, shopId, now).BeforeCreate(newUserId);
    var inserted := db.InsertUser(user);
    if !inserted {
      return Fail(Internal("Failed to create user"));
    }
    return Ok(RegisterResponse("User registered successfully", ToUserResponse(user)));
  }

  // ---------------------------------------------------------------- login

  /** The lookup by email and the password comparison. Both failures give the same answer,
    * so the reply does not tell whether the email is registered. */
  function CheckCredentials(users: seq<User>, email: string, password: string): (r: Outcome<nat>)
    ensures r.Fail? ==> r.failure == Unauthorized("Invalid credentials")
    ensures r.Ok? <==> UserByEmail(users, email).Some? && Matches(users[UserByEmail(users, email).value].password, password)
    ensures r.Ok? ==> r.value < |users| && users[r.value].email == email
  {
    var found := UserByEmail(users, email);
    if found.None? || !Matches(users[found.value].password, password) then Fail(Unauthorized("Invalid credentials"))
    else Ok(found.value)
  }

  /** A user who has just registered can log in with their password, and, the digest being
    * symbolic, with no other; real bcrypt ignores password bytes after the 72nd. */
  lemma RegisteredUserLogsIn(users: seq<User>, user: User, password: string, attempt: string)
    requires user.email !in Emails(users)
    requires HashPassword(password) == Some(user.password)
    ensures CheckCredentials(users + [user], user.email, attempt).Ok? <==> attempt == password
    ensures CheckCredentials(users + [user], user.email, password) == Ok(|users|)
  {
    var all := users + [user];
    forall i | 0 <= i < |users|
      ensures all[i].email != user.email
    {
      assert Emails(users)[i] == users[i].email;
    }
    assert all[|users|] == user;
    var found := UserByEmail(all, user.email);
    assert found == Some(|users|);
  }

  /** The seconds of Unix time at an instant, as `time.Now().Unix()` gives them. */
  function UnixSeconds(now: Instant): int {
    now / Second
  }

  /** The claims `generateToken` signs: both identifiers in their printed form, the role
    * name, the email, expiry 24 hours on, and the time of issue. */
  function TokenClaims(user: User, now: Instant): (claims: map<string, Claim>)
    ensures claims.Keys == {"user_id", "shop_id", "role", "email", "exp", "iat"}
  {
    map["user_id" := Str(Format(user.id)), "shop_id" := Str(Format(user.shopId)),
        "role" := Str(RoleName(user.role)), "email" := Str(user.email),
        "exp" := Num((UnixSeconds(now) + 86400) as real), "iat" := Num(UnixSeconds(now) as real)]
  }

  /** A header made of the scheme, one space and a token yields that token. */
  lemma BearerYieldsToken(token: string)
    ensures ParseBearer("Bearer " + token) == Ok(token)
  {
    SplitAfterWord("Bearer", token);
    assert "Bearer " + token == "Bearer" + " " + token;
  }

  /** What the gate reads out of the claims of an issued token. */
  lemma ClaimsReadBack(user: User, issued: Instant)
    ensures var claims := TokenClaims(user, issued);
      && ClaimText(claims, "user_id") == Format(user.id)
      && ClaimText(claims, "shop_id") == Format(user.shopId)
      && ClaimText(claims, "role") == RoleName(user.role)
      && ClaimText(claims, "email") == user.email
      && claims["exp"] == Num((UnixSeconds(issued) + 86400) as real)
      && "nbf" !in claims
  {
  }

  /** A token carrying these claims, HMAC-signed and presented as `Bearer <token>` before it
    * expires, lets its holder through the gate as the user who logged in. An `exp` of 0, which
    * an issue 24 hours before the Unix epoch gives, counts as no expiry at all. */
  lemma IssuedTokenAuthenticates(user: User, issued: Instant, token: string, decode: string -> Decoded, now: Instant)
    requires decode(token) == Decoded(Hmac(256), TokenClaims(user, issued), true)
    requires now < (UnixSeconds(issued) + 86400) * Second || UnixSeconds(issued) + 86400 == 0
    ensures Authenticate("Bearer " + token, decode, now) == Ok(Identity(user.id, user.shopId, RoleName(user.role), user.email))
  {
    BearerYieldsToken(token);
    ClaimsReadBack(user, issued);
    ParseFormat(user.id);
    ParseFormat(user.shopId);
    assert ((UnixSeconds(issued) + 86400) as real).Floor == UnixSeconds(issued) + 86400;
    assert TokenAccepted(decode(token), now);
  }

  /** From 24 hours after issue on (to the second), the same token is refused, unless its
    * `exp` is 0 and so no expiry. */
  lemma IssuedTokenExpires(user: User, issued: Instant, token: string, decode: string -> Decoded, now: Instant)
    requires decode(token) == Decoded(Hmac(256), TokenClaims(user, issued), true)
    requires now >= (UnixSeconds(issued) + 86400) * Second
    ensures UnixSeconds(issued) + 86400 != 0 ==>
      Authenticate("Bearer " + token, decode, now) == Fail(Unauthorized("Invalid or expired token"))
    ensures UnixSeconds(issued) + 86400 == 0 ==>
      Authenticate("Bearer " + token, decode, now) == Ok(Identity(user.id, user.shopId, RoleName(user.role), user.email))
  {
    BearerYieldsToken(token);
    ClaimsReadBack(user, issued);
    if UnixSeconds(issued) + 86400 == 0 {
      IssuedTokenAuthenticates(user, issued, token, decode, now);
    } else {
      assert ((UnixSeconds(issued) + 86400) as real).Floor == UnixSeconds(issued) + 86400;
      assert !ExpiryOk(decode(token).claims, now);
    }
  }

  /** `Login`. `sign` is the HS256 signing with the server's secret; it yields nothing when
    * signing fails. */
  method Login(db: Db, body: Option<LoginRequest>, sign: map<string, Claim> -> Option<string>, now: Instant)
    returns (r: Outcome<LoginResponse>)
    ensures Bind(body, LoginBinds).Fail? ==> r == Fail(Bind(body, LoginBinds).failure)
    ensures Bind(body, LoginBinds).Ok? ==>
      var checked := CheckCredentials(db.users, body.value.email, body.value.password);
      && (checked.Fail? ==> r == Fail(checked.failure))
      && (checked.Ok? ==>
            var user := db.users[checked.value];
            r == match sign(TokenClaims(user, now))
                 case None => Fail(Internal("Failed to generate token"))
                 case Some(token) => Ok(LoginResponse(token, ToUserResponse(user))))
  {
    var bound := Bind(body, LoginBinds);
    if bound.Fail? {
      return Fail(bound.failure);
    }
    var checked := CheckCredentials(db.users, bound.value.email, bound.value.password);
    if checked.Fail? {
      return Fail(checked.failure);
    }
    var user := db.users[checked.value];
    var token := sign(TokenClaims(user, now));
    if token.None? {
      return Fail(Internal("Failed to generate token"));
    }
    return Ok(LoginResponse(token.value, ToUserResponse(user)));
  }
}
