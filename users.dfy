/** The staff handlers of `internal/handlers/user.go`: listing, adding and removing the users
  * of the caller's shop. */
module Users {
  import opened Outcomes
  import opened Seqs
  import opened Uuids
  import opened Dates
  import opened Models
  import opened Dto
  import opened Database
  import opened Middleware

  function ShopOf(shop: Uuid): User -> bool {
    (u: User) => u.shopId == shop
  }

  datatype UserList = UserList(users: seq<UserResponse>, total: nat)

  /** `GetUsers`: the users of the caller's shop in table order, without their passwords. */
  method GetUsers(db: Db, ctx: Context) returns (r: Outcome<UserList>)
    ensures !ctx.ShopId().1 ==> r == Fail(Unauthorized("Unauthorized"))
    ensures ctx.ShopId().1 ==> r.Ok?
    ensures r.Ok? ==>
      && r.value.users == Map(Filter(db.users, ShopOf(ctx.ShopId().0)), ToUserResponse)
      && r.value.total == |r.value.users|
  {
    var (shop, ok) := ctx.ShopId();
    if !ok {
      return Fail(Unauthorized("Unauthorized"));
    }
    var rows := Filter(db.users, ShopOf(shop));
    var responses: seq<UserResponse> := [];
    var i := 0;
    while i < |rows|
      invariant 0 <= i <= |rows|
      invariant |responses| == i
      invariant forall j :: 0 <= j < i ==> responses[j] == ToUserResponse(rows[j])
    {
      responses := responses + [ToUserResponse(rows[i])];
      i := i + 1;
    }
    assert responses == Map(rows, ToUserResponse);
    return Ok(UserList(responses, |responses|));
  }

  /** The staff list holds every user of the shop and only those. */
  lemma StaffListIsTheShop(users: seq<User>, shop: Uuid)
    ensures forall q :: q in Map(Filter(users, ShopOf(shop)), ToUserResponse) ==> q.shopId == shop
    ensures forall u :: u in users && u.shopId == shop ==> ToUserResponse(u) in Map(Filter(users, ShopOf(shop)), ToUserResponse)
  {
    var rows := Filter(users, ShopOf(shop));
    var listed := Map(rows, ToUserResponse);
    forall q | q in listed
      ensures q.shopId == shop
    {
      var i :| 0 <= i < |listed| && listed[i] == q;
      assert rows[i] in rows;
    }
    forall u | u in users && u.shopId == shop
      ensures ToUserResponse(u) in listed
    {
      assert u in rows;
      var i :| 0 <= i < |rows| && rows[i] == u;
      assert listed[i] == ToUserResponse(u);
    }
  }

  /** The row of a user created by a SuperAdmin: always in the SuperAdmin's own shop. */
  function StaffMember(req: CreateUserRequest, digest: Digest, role: Role, shop: Uuid, now: Instant): User {
    User(Nil, req.name, req.email, digest, role, shop, now)
  }

  /** `CreateUser`. */
  method CreateUser(db: Db, ctx: Context, body: Option<CreateUserRequest>, newId: Uuid, now: Instant)
    returns (r: Outcome<UserResponse>)
    requires db.Valid()
    modifies db
    ensures db.Valid()
    ensures db.shops == old(db.shops) && db.products == old(db.products) && db.transactions == old(db.transactions)
    ensures r.Fail? ==> db.users == old(db.users)
    ensures !ctx.ShopId().1 ==> r == Fail(Unauthorized("Unauthorized"))
    ensures ctx.ShopId().1 && Bind(body, CreateUserBinds).Fail? ==> r == Fail(Bind(body, CreateUserBinds).failure)
    ensures ctx.ShopId().1 && Bind(body, CreateUserBinds).Ok? ==>
      var req := body.value;
      if UserByEmail(old(db.users), req.email).Some? then r == Fail(Conflict("Email already exists"))
      else if HashPassword(req.password).None? then r == Fail(Internal("Failed to process password"))
      else
        var user := StaffMember(req, HashPassword(req.password).value, ParseRole(req.role).value, ctx.ShopId().0, now).BeforeCreate(newId);
        if newId !in UserIds(old(db.users)) && ctx.ShopId().0 in ShopIds(old(db.shops)) then
          r == Ok(ToUserResponse(user)) && db.users == old(db.users) + [user]
        else
          r == Fail(Internal("Failed to create user"))
  {
    var (shop, ok) := ctx.ShopId();
    if !ok {
      return Fail(Unauthorized("Unauthorized"));
    }
    var bound := Bind(body, CreateUserBinds);
    if bound.Fail? {
      return Fail(bound.failure);
    }
    var req := bound.value;
    var existing := UserByEmail(db.users, req.email);
    if existing.Some? {
      return Fail(Conflict("Email already exists"));
    }
    var digest := HashPassword(req.password);
    if digest.None? {
      return Fail(Internal("Failed to process password"));
    }
    var user := StaffMember(req, digest.value, ParseRole(req.role).value, shop, now).BeforeCreate(newId);
    // The email is known to be free: no row carries it.
    assert req.email !in Emails(db.users);
    var inserted := db.InsertUser(user);
    if !inserted {
      return Fail(Internal("Failed to create user"));
    }
    return Ok(ToUserResponse(user));
  }

  /** `Where("id = ? AND shop_id = ?", id, shop)` on users. */
  function ShopUser(users: seq<User>, id: Uuid, shop: Uuid): Option<nat> {
    Find(users, (u: User) => u.id == id && u.shopId == shop)
  }

  /** Removing a row by its unique id takes away exactly that user and keeps every other one. */
  lemma RemovalTakesOnlyThatUser(users: seq<User>, k: nat)
    requires Distinct(UserIds(users)) && k < |users|
    ensures users[k].id !in UserIds(users[..k] + users[k + 1..])
    ensures forall j :: 0 <= j < |users| && j != k ==> users[j] in users[..k] + users[k + 1..]
  {
    var rest := users[..k] + users[k + 1..];
    MapRemove(users, k, UserKey);
    forall j | 0 <= j < |users| && j != k
      ensures users[j] in rest
    {
      if j < k {
        assert rest[j] == users[j];
      } else {
        assert rest[j - 1] == users[j];
      }
    }
  }

  /** `DeleteUser`: the caller cannot remove themself; otherwise the user with this id in the
    * caller's shop is deleted for good. A context without a user id compares as the zero id. */
  method DeleteUser(db: Db, ctx: Context, idText: string) returns (r: Outcome<string>)
    requires db.Valid()
    modifies db
    ensures db.Valid()
    ensures db.shops == old(db.shops) && db.products == old(db.products) && db.transactions == old(db.transactions)
    ensures r.Fail? ==> db.users == old(db.users)
    ensures !ctx.ShopId().1 ==> r == Fail(Unauthorized("Unauthorized"))
    ensures ctx.ShopId().1 && Parse(idText).None? ==> r == Fail(BadRequest("Invalid user ID"))
    ensures ctx.ShopId().1 && Parse(idText).Some? && Parse(idText).value == ctx.UserId().0 ==>
      r == Fail(BadRequest("Cannot delete your own account"))
    ensures ctx.ShopId().1 && Parse(idText).Some? && Parse(idText).value != ctx.UserId().0 ==>
      var found := ShopUser(old(db.users), Parse(idText).value, ctx.ShopId().0);
      && (found.None? ==> r == Fail(NotFound("User not found in your shop")))
      && (found.Some? ==> (
            && r == Ok("User deleted successfully")
            && db.users == old(db.users)[..found.value] + old(db.users)[found.value + 1..]))
  {
    var (shop, ok) := ctx.ShopId();
    if !ok {
      return Fail(Unauthorized("Unauthorized"));
    }
    var id := Parse(idText);
    if id.None? {
      return Fail(BadRequest("Invalid user ID"));
    }
    var (current, _) := ctx.UserId();
    if id.value == current {
      return Fail(BadRequest("Cannot delete your own account"));
    }
    var found := ShopUser(db.users, id.value, shop);
    if found.None? {
      return Fail(NotFound("User not found in your shop"));
    }
    db.RemoveUser(found.value);
    return Ok("User deleted successfully");
  }
}
