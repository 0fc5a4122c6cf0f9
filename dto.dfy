/** Request bodies with the constraints of their `binding` tags, and the response records
  * (`internal/dto/dto.go`). */
module Dto {
  import opened Outcomes
  import opened Uuids
  import opened Models

  datatype RegisterRequest = RegisterRequest(
    name: string, email: string, password: string, role: string,
    shopName: string, whatsAppNumber: string, shopId: string)

  datatype LoginRequest = LoginRequest(email: string, password: string)

  datatype UpdateWhatsAppRequest = UpdateWhatsAppRequest(whatsAppNumber: string)

  datatype CreateProductRequest = CreateProductRequest(
    name: string, description: string, category: string,
    purchasePrice: real, sellingPrice: real, stock: int, imageUrl: string)

  /** Every field is optional: a zero value stands for a field the client left out. */
  datatype UpdateProductRequest = UpdateProductRequest(
    name: string, description: string, category: string,
    purchasePrice: real, sellingPrice: real, stock: int, imageUrl: string)

  datatype CreateTransactionRequest = CreateTransactionRequest(
    kind: string, productId: Option<Uuid>, quantity: int, amount: real)

  datatype CreateUserRequest = CreateUserRequest(name: string, email: string, password: string, role: string)

  /** `required,email`: only the non-empty part of the check is modelled. */
  predicate EmailGiven(email: string) { email != "" }

  /** `name: required,min=2`, `email: required,email`, `password: required,min=6`,
    * `role: required,oneof=SuperAdmin Admin`; the shop fields are free. */
  predicate RegisterBinds(r: RegisterRequest) {
    |r.name| >= 2 && EmailGiven(r.email) && |r.password| >= 6 && ParseRole(r.role).Some?
  }

  predicate LoginBinds(r: LoginRequest) {
    EmailGiven(r.email) && r.password != ""
  }

  predicate UpdateWhatsAppBinds(r: UpdateWhatsAppRequest) {
    r.whatsAppNumber != ""
  }

  /** `name: required,min=1`, both prices `required,gt=0`, `stock: min=0`. */
  predicate CreateProductBinds(r: CreateProductRequest) {
    |r.name| >= 1 && r.purchasePrice > 0.0 && r.sellingPrice > 0.0 && r.stock >= 0
  }

  /** `type: required,oneof=Sale Expense Withdrawal`, `quantity: min=0`, `amount: required,gt=0`;
    * `product_id` may be absent. */
  predicate CreateTransactionBinds(r: CreateTransactionRequest) {
    ParseType(r.kind).Some? && r.quantity >= 0 && r.amount > 0.0
  }

  predicate CreateUserBinds(r: CreateUserRequest) {
    |r.name| >= 2 && EmailGiven(r.email) && |r.password| >= 6 && ParseRole(r.role).Some?
  }

  /** `c.ShouldBindJSON(&req)`: a body is None when it is not JSON of the request's shape;
    * a decoded body must also meet its constraints. Both failures are a 400. */
  function Bind<T>(body: Option<T>, binds: T -> bool): (r: Outcome<T>)
    ensures r.Ok? <==> body.Some? && binds(body.value)
    ensures r.Ok? ==> r.value == body.value
    ensures r.Fail? ==> r.failure.BadRequest?
  {
    if body.Some? && binds(body.value) then Ok(body.value) else Fail(BadRequest("invalid request body"))
  }

  /** `UserResponse`: the user's public fields; there is no field for the password. */
  datatype UserResponse = UserResponse(id: Uuid, name: string, email: string, role: string, shopId: Uuid)

  function ToUserResponse(u: User): UserResponse {
    UserResponse(u.id, u.name, u.email, RoleName(u.role), u.shopId)
  }

  datatype LoginResponse = LoginResponse(token: string, user: UserResponse)

  datatype PrivateProductResponse = PrivateProductResponse(
    id: Uuid, name: string, description: string, category: string,
    purchasePrice: real, sellingPrice: real, stock: int, imageUrl: string, shopId: Uuid)

  /** `PublicProductResponse` has no purchase price field at all. */
  datatype PublicProductResponse = PublicProductResponse(
    id: Uuid, name: string, description: string, category: string,
    sellingPrice: real, stock: int, stockStatus: string, imageUrl: string, whatsAppLink: string)

  datatype LowStockItem = LowStockItem(id: Uuid, name: string, stock: int, category: string)

  datatype DashboardResponse = DashboardResponse(
    totalSales: real, totalExpenses: real, netProfit: real,
    lowStockProducts: seq<LowStockItem>, totalProducts: nat, totalTransactions: nat)
}
