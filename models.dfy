/** The four tables of the shop back end (`internal/models/models.go`) and their enumerations. */
module Models {
  import opened Outcomes
  import opened Utf8
  import opened Uuids
  import opened Dates

  /** `UserRole`: a user is either the shop's super administrator or an administrator. */
  datatype Role = SuperAdmin | Admin

  /** The text a role is stored and sent as. */
  function RoleName(r: Role): (s: string)
    ensures ParseRole(s) == Some(r)
  {
    match r
    case SuperAdmin => "SuperAdmin"
    case Admin => "Admin"
  }

  /** The `oneof=SuperAdmin Admin` check: exactly the two role names are roles. */
  function ParseRole(s: string): (r: Option<Role>)
    ensures r.Some? <==> s == "SuperAdmin" || s == "Admin"
  {
    if s == "SuperAdmin" then Some(SuperAdmin)
    else if s == "Admin" then Some(Admin)
    else None
  }

  /** `TransactionType`. */
  datatype TransactionType = Sale | Expense | Withdrawal

  function TypeName(k: TransactionType): (s: string)
    ensures ParseType(s) == Some(k)
  {
    match k
    case Sale => "Sale"
    case Expense => "Expense"
    case Withdrawal => "Withdrawal"
  }

  /** The `oneof=Sale Expense Withdrawal` check. */
  function ParseType(s: string): (r: Option<TransactionType>)
    ensures r.Some? <==> s == "Sale" || s == "Expense" || s == "Withdrawal"
  {
    if s == "Sale" then Some(Sale)
    else if s == "Expense" then Some(Expense)
    else if s == "Withdrawal" then Some(Withdrawal)
    else None
  }

  /** A bcrypt digest, kept symbolic: the cost it was made with and the password it was made
    * from. Only `Matches` looks inside it; the stored column never holds the password text. */
  datatype Digest = Bcrypt(cost: nat, preimage: string)

  const BcryptCost: nat := 12

  /** `bcrypt.GenerateFromPassword(password, 12)`, which refuses passwords longer than
    * 72 bytes. */
  function HashPassword(password: string): (r: Option<Digest>)
    ensures r.Some? <==> |Encode(password)| <= 72
    ensures r.Some? ==> r.value.cost == BcryptCost && Matches(r.value, password)
  {
    if |Encode(password)| <= 72 then Some(Bcrypt(BcryptCost, password)) else None
  }

  /** `bcrypt.CompareHashAndPassword(digest, attempt) == nil`. */
  predicate Matches(d: Digest, attempt: string) {
    d.preimage == attempt
  }

  /** The symbolic digest accepts the password it was made from and no other (real bcrypt
    * compares only the first 72 bytes of the attempt). */
  lemma MatchesOnlyOriginal(password: string, attempt: string)
    requires HashPassword(password).Some?
    ensures Matches(HashPassword(password).value, attempt) <==> attempt == password
  {
  }

  datatype Shop = Shop(id: Uuid, name: string, active: bool, whatsAppNumber: string, createdAt: Instant)
  {
    /** `BeforeCreate`: the row gets a freshly generated identifier and nothing else changes. */
    function BeforeCreate(newId: Uuid): (s: Shop)
      ensures s.id == newId && s.(id := id) == this
    {
      this.(id := newId)
    }
  }

  datatype User = User(id: Uuid, name: string, email: string, password: Digest, role: Role, shopId: Uuid, createdAt: Instant)
  {
    function BeforeCreate(newId: Uuid): (u: User)
      ensures u.id == newId && u.(id := id) == this
    {
      this.(id := newId)
    }
  }

  /** A product row; `deletedAt` is GORM's soft-delete column, and a row with a deletion
    * time is invisible to every product query. */
  datatype Product = Product(
    id: Uuid, name: string, description: string, category: string,
    purchasePrice: real, sellingPrice: real, stock: int, imageUrl: string,
    shopId: Uuid, createdAt: Instant, deletedAt: Option<Instant>)
  {
    predicate Live() { deletedAt.None? }

    function BeforeCreate(newId: Uuid): (p: Product)
      ensures p.id == newId && p.(id := id) == this
    {
      this.(id := newId)
    }
  }

  /** A ledger row; `productId` is optional (the column is nullable). */
  datatype Transaction = Transaction(
    id: Uuid, kind: TransactionType, productId: Option<Uuid>, quantity: int, amount: real,
    comment: string, shopId: Uuid, createdAt: Instant)
  {
    function BeforeCreate(newId: Uuid): (t: Transaction)
      ensures t.id == newId && t.(id := id) == this
    {
      this.(id := newId)
    }
  }
}
