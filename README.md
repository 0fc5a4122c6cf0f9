# Electronic shop back end, modelled in Dafny

The system is a multi-tenant shop back end built on Go, Gin and GORM. Each shop has users in two roles, SuperAdmin and Admin. It keeps a product catalogue with soft deletion, and a ledger of Sale, Expense and Withdrawal transactions. Every authenticated request carries a JWT. Every query is confined to the shop named in that token. A public storefront shows an active shop's products without purchase prices and with WhatsApp contact links.

This project models that core as Dafny code and proves properties about it:

- **Store.** The PostgreSQL store is the class `Database.Db`, holding four tables as sequences.
  - Its `Valid()` invariant covers unique keys, a unique email, the foreign keys, non-negative stock and well-formed ledger rows.
  - Its insert methods fail exactly where the schema's constraints would.
- **Handlers.** Each HTTP handler is a method over the store and the request context (class `Middleware.Context`). It returns an `Outcome`: `Ok`, or a failure with the status kind and the message the handler sends.
- **Request chain.** The request gate, the role check and the route table make up the chain a request passes before its handler.
- **Library behaviour.** Four library behaviours are modelled concretely:
  - `uuid.Parse` and `String()`;
  - `url.QueryEscape`;
  - `time.Parse("2006-01-02", …)`;
  - `filepath.Ext`.

  Properties are proved about them (round trips and injectivity).
- **Left abstract.** The JWT library and bcrypt stay abstract:
  - The JWT library is a decoding function parameter and a signing function parameter.
  - bcrypt is a symbolic digest that refuses passwords longer than 72 bytes.
- **Inputs.** The clock, generated ids, the JWT signing and decoding functions and the success of a file write are passed in as parameters.

`Outcomes` holds the result types. `Utf8`, `Text` and `Seqs` are helpers: UTF-8 encoding, ASCII case folding, decimal printing, `strings.Join`, and map/filter/find/sum over sequences with their lemmas.

Where the documentation and the code disagree, the model follows the code:

- Every failure of a Sale is a 400 carrying the error text: a missing product id, a non-positive quantity, a product not found and insufficient stock alike.
- The transaction comment is always empty. `internal/handlers/transaction.go:120` reads `req.Comment`, but `CreateTransactionRequest` (`internal/dto/dto.go:99-104`) declares no such field, so the file as given does not compile; the model takes the comment as empty.

## Model

| member | source | states |
|---|---|---|
| Models.ParseRole | internal/models/models.go:33-38 | a text is a role exactly when it is "SuperAdmin" or "Admin" |
| Models.RoleName | internal/models/models.go:35-38 | the stored name of each role parses back to that role |
| Models.ParseType | internal/models/models.go:84-90 | a text is a transaction type exactly when it is Sale, Expense or Withdrawal |
| Models.TypeName | internal/models/models.go:86-90 | the stored name of each type parses back to that type |
| Models.HashPassword | internal/handlers/auth.go:86-90 | hashing succeeds exactly for passwords of at most 72 UTF-8 bytes; the digest has cost 12 and matches the password it was made from |
| Models.MatchesOnlyOriginal | internal/handlers/auth.go:133 | the symbolic digest accepts its own password and no other (real bcrypt also accepts any extension past byte 72, see Left out) |
| Models.Shop.BeforeCreate | internal/models/models.go:24-27 | the row gets the fresh id and nothing else changes |
| Models.User.BeforeCreate | internal/models/models.go:51-54 | the row gets the fresh id and nothing else changes |
| Models.Product.BeforeCreate | internal/models/models.go:75-78 | the row gets the fresh id and nothing else changes |
| Models.Transaction.BeforeCreate | internal/models/models.go:104-107 | the row gets the fresh id and nothing else changes |
| Dto.Bind | internal/dto/dto.go:9-135 | a body binds exactly when it decodes and meets its request type's binding constraints; a bound body is returned unchanged and a failure is a 400 |
| Database.Db.constructor | internal/models/models.go:14-107 | an empty database satisfies the schema invariant |
| Database.Db.InsertShop | internal/handlers/auth.go:78-81 | the insert succeeds exactly when the id is new, appends exactly that row, and keeps the invariant |
| Database.Db.InsertUser | internal/models/models.go:40-47 | the insert succeeds exactly when the id and the email are new and the shop exists; it appends exactly that row |
| Database.Db.InsertProduct | internal/models/models.go:60-70 | the insert succeeds exactly when the id is new and the shop exists; it appends exactly that row |
| Database.Db.InsertTransaction | internal/models/models.go:92-100 | the insert succeeds exactly when the id is new and any named product row exists; it appends exactly that row |
| Database.Db.WriteProduct | internal/handlers/product.go:195 | only row k changes, to the given row, and the invariant holds |
| Database.Db.WriteShop | internal/handlers/shop.go:53-55 | only row k changes, to the given row, and the invariant holds |
| Database.Db.RemoveUser | internal/handlers/user.go:127 | exactly row k leaves the user table, and the invariant holds |
| Database.KeyedRowUnique | internal/models/models.go:61 | two product rows with the same primary key are the same row |
| Middleware.ParseBearer | internal/middleware/auth.go:17-33 | empty header and malformed header failures with their messages; succeeds exactly when the text before the first space is "Bearer" in any case; the token is everything after that space |
| Middleware.NumericDate | internal/middleware/auth.go:40-51 | jwt v5's reading of `exp`/`nbf`: missing or 0 is no date, another number is its whole second (rounded down), anything else is an error |
| Middleware.NumericDateSecond | internal/middleware/auth.go:40-51 | a date read from a number is the whole second at or just below it |
| Middleware.ExpiryReading | internal/middleware/auth.go:40-51 | an `exp` of 0 never expires; any other number expires at its whole second |
| Middleware.Authenticate | internal/middleware/auth.go:17-75 | every failure is Unauthorized; succeeds exactly when the header parses, the token is HMAC-signed, valid and unexpired, and both id claims parse; the identity is read from those claims, with role and email "" when absent |
| Middleware.Context.ShopId | internal/middleware/auth.go:110-118 | the stored shop id and true, or the zero id and false when it is missing or of another type |
| Middleware.Context.UserId | internal/middleware/auth.go:120-128 | the stored user id and true, or the zero id and false when it is missing or of another type |
| Middleware.Context.Role | internal/middleware/auth.go:130-137 | the stored role, or "" when it is missing or not a string |
| Middleware.Context.Set | internal/middleware/auth.go:78-81 | the context bag maps the key to the value and keeps every other key |
| Middleware.AuthRequired | internal/middleware/auth.go:15-85 | the request goes on exactly when authentication succeeds; an aborted request leaves the context untouched; otherwise the context holds exactly the verified identity |
| Middleware.RoleGate | internal/middleware/auth.go:88-107 | a missing role is Forbidden "Role not found"; the request goes on exactly when the role is a string in the list; otherwise Forbidden naming the roles |
| Middleware.CheckRole | internal/middleware/auth.go:96-106 | the scan with early exit decides what RoleGate decides |
| Routes.RolesFor | cmd/main.go:76-115 | shops, users and reports need the SuperAdmin role; products and transactions need no role |
| Routes.Admit | cmd/main.go:73-115 | the chain of AuthRequired then CheckRole decides what the pipeline decides; a request let through carries the token's shop id |
| Routes.RoleStageAccepted | cmd/main.go:76-115 | after an accepted token, a role-checked group admits only a SuperAdmin and answers others with Forbidden "Access denied. Required: SuperAdmin" |
| Routes.AcceptedCaller | cmd/main.go:76-115 | with an accepted token the only remaining check is SuperAdmin on the role-checked groups |
| Routes.IssuedTokenAdmits | cmd/main.go:76-115 | before expiry, a login token opens every route to a SuperAdmin, but only the routes without a role check to an Admin; an Admin gets Forbidden on the others |
| Routes.NoHeaderNoApi | cmd/main.go:73-74 | no route of the authenticated group is reached without an Authorization header |
| Auth.ChooseShop | internal/handlers/auth.go:45-71 | a malformed shop_id is 400 and an unknown one 404; otherwise the user joins that shop; without shop_id, a new shop needs a name and a number (400 otherwise) and then the SuperAdmin role (400 "Only SuperAdmin can create a new shop" otherwise) |
| Auth.JoiningNeedsOnlyAShopId | internal/handlers/auth.go:45-57 | naming an existing shop's id is enough to join it, in either role |
| Auth.Register | internal/handlers/auth.go:29-115 | bind failure; 409 for a used email and shop-choice failures, with no shop and no user created; the shop table gains exactly the new active shop whenever the checks pass and its id is free, and keeps it when hashing or the user insert fails later; success exactly when the checks pass, the new shop (if any) and the user insert succeed; then the user is created in the resolved shop with a hashed password; 500 "Failed to create shop", "Failed to process password" or "Failed to create user" otherwise |
| Auth.CheckCredentials | internal/handlers/auth.go:125-136 | unknown email and wrong password give the identical Unauthorized "Invalid credentials"; success exactly when the stored digest matches |
| Auth.RegisteredUserLogsIn | internal/handlers/auth.go:92-136 | a freshly registered user logs in with their password, and over the symbolic digest with no other (see Left out for bcrypt's 72-byte truncation) |
| Auth.TokenClaims | internal/handlers/auth.go:164-171 | the claim set is exactly user_id, shop_id, role, email, exp and iat |
| Auth.BearerYieldsToken | internal/middleware/auth.go:25-33 | "Bearer " followed by a token yields that token |
| Auth.ClaimsReadBack | internal/handlers/auth.go:164-171 | the gate reads the user's printed ids, role name and email out of the issued claims; exp is 24 h after issue and there is no nbf |
| Auth.IssuedTokenAuthenticates | internal/handlers/auth.go:158-175 | a token issued by login passes the gate before expiry (or always, when its `exp` is 0), as the identity of that user |
| Auth.IssuedTokenExpires | internal/handlers/auth.go:169 | the same token is refused from 24 hours after issue, unless its `exp` is 0, which the library reads as no expiry |
| Auth.Login | internal/handlers/auth.go:118-155 | bind failure; credentials failure passed through; a signing failure is 500; otherwise the token and the user without password |
| Products.ToPrivateResponse | internal/handlers/product.go:25-41 | every field is copied; the purchase price only when the role is exactly SuperAdmin, 0 otherwise |
| Products.PurchasePriceHidden | internal/handlers/product.go:36-39 | to a non-SuperAdmin, two products differing only in purchase price look the same |
| Products.GetProducts | internal/handlers/product.go:44-83 | the result is the shop's live products in the category, with the name containing the search text in any ASCII case, converted for the role; total is the length |
| Products.CatalogueIsolated | internal/handlers/product.go:55-62 | every listed entry belongs to the caller's shop, is the view of a live row, and carries no purchase price unless the caller is SuperAdmin |
| Products.GetProduct | internal/handlers/product.go:86-108 | a malformed id is 400 before any lookup; a product of another shop or a missing one is 404; success exactly for a live row of the shop |
| Products.CreateProduct | internal/handlers/product.go:111-142 | bind failure; the row takes the token's shop and the request's fields and is appended; a failed insert is 500 with nothing changed |
| Products.UpdateSet | internal/handlers/product.go:171-193 | the update map names only the seven product columns |
| Products.ApplyUpdates | internal/handlers/product.go:195 | an update keeps the id, shop, creation time and deletion state |
| Products.UpdateMeaning | internal/handlers/product.go:172-193 | texts change only when non-empty and prices only when positive; stock is overwritten whenever the request's stock is >= 0, including an omitted stock (0) |
| Products.UpdateIdempotent | internal/handlers/product.go:172-195 | sending the same update twice equals sending it once |
| Products.UpdateKeepsStockNonNegative | internal/handlers/product.go:188-190 | an update never makes stock negative |
| Products.UpdateProduct | internal/handlers/product.go:145-204 | a malformed id is 400; another shop's or a missing product is 404 and nothing changes; otherwise only that row is updated and the reloaded row returned |
| Products.SoftDelete | internal/handlers/product.go:221 | only row k changes, to gain the deletion time; every id stays |
| Products.SoftDeleteHides | internal/handlers/product.go:221 | after the soft delete no product query finds the row |
| Products.DeleteProduct | internal/handlers/product.go:207-232 | a malformed id is 400; no matching live row of the shop is 404 with nothing changed; otherwise exactly that row is soft-deleted |
| Public.WhatsAppLinkDecodes | internal/handlers/public.go:25-29 | the link is the wa.me address and number, then `?text=` and an escaped parameter of safe characters that decodes to the French message naming the product |
| Public.StockStatus | internal/handlers/public.go:69-74 | "Rupture de stock" exactly at 0, "Stock limité" exactly for other values below 5, "En stock" exactly from 5 |
| Public.PublicView | internal/handlers/public.go:76-86 | the public entry copies id, name, description, category, selling price, stock and image URL, carries the stock label and the shop's link |
| Public.PublicViewIgnoresPurchasePrice | internal/handlers/public.go:66-86 | nothing in a public entry depends on the purchase price |
| Public.RenderShelf | internal/handlers/public.go:67-87 | one public entry per row, in row order |
| Public.GetPublicProducts | internal/handlers/public.go:33-101 | a malformed shop id is 400; a missing or inactive shop is 404 with no products; otherwise the shop's live rows, by category equality, with stock > 0 when in_stock_only is "true"; total is the length |
| Public.StorefrontShows | internal/handlers/public.go:52-58 | every entry is the view of a live row of that shop, and none is out of stock when in_stock_only holds |
| Public.GetWhatsAppLink | internal/handlers/public.go:104-142 | id checks in order; 404 unless the shop is active and the live product is its own; otherwise the link for that product |
| Transactions.Preload | internal/handlers/transaction.go:133 | the preloaded product is the live row the transaction names, when there is one |
| Transactions.RuneText | internal/handlers/transaction.go:105 | `string(rune(n))` is one character |
| Transactions.SaleTarget | internal/handlers/transaction.go:88-106 | missing product id, non-positive quantity and missing or foreign product each give their 400; success exactly when the shop's live product has stock >= quantity |
| Transactions.SaleTargetIsTenantStock | internal/handlers/transaction.go:97-106 | a Sale draws only on a live product of the caller's shop with enough stock |
| Transactions.DrawStock | internal/handlers/transaction.go:89-111 | fails exactly when SaleTarget does, with its failure and no change; otherwise lowers exactly that tenant row's stock by the quantity, keeping every product id |
| Transactions.RecordUnit | internal/handlers/transaction.go:87-125 | the unit of work: a Sale's failures as SaleTarget gives them; on success exactly that product's stock drops by the quantity and one row is appended; once the Sale checks pass, success exactly when the row's id is free and its product id names a product row, else 400 "failed to create transaction" with nothing changed |
| Transactions.CreateTransaction | internal/handlers/transaction.go:71-136 | any failure leaves products and ledger unchanged; a Sale lowers exactly that product's stock by the quantity; Expense and Withdrawal touch no stock; exactly one row is appended, with the token's shop and the request's fields; a bound request that passes the Sale checks succeeds exactly when the insert's key constraints hold |
| Transactions.StepsGiveOrder | internal/handlers/transaction.go:59 | adjacent newest-first order gives pairwise newest-first order |
| Transactions.InsertNewestCounts | internal/handlers/transaction.go:59 | inserting one row adds exactly that row |
| Transactions.InsertNewestSteps | internal/handlers/transaction.go:59 | inserting into a newest-first list keeps it newest first |
| Transactions.NewestFirstSteps | internal/handlers/transaction.go:59 | the sort yields adjacent newest-first order |
| Transactions.NewestFirstCounts | internal/handlers/transaction.go:59 | the sort is a permutation |
| Transactions.NewestFirstSorts | internal/handlers/transaction.go:59 | `created_at DESC` ordering is newest first and a permutation of the rows |
| Transactions.Views | internal/handlers/transaction.go:58-67 | one entry per row with its preloaded product |
| Transactions.HoldsAllAppend | internal/handlers/transaction.go:36-56 | chaining Where conditions is conjunction |
| Transactions.HoldsAllSingle | internal/handlers/transaction.go:36-56 | a single Where holds exactly when its condition does |
| Transactions.ConditionsMeanListed | internal/handlers/transaction.go:36-56 | the conditions the handler chains filter by shop, optional type and the day bounds of the parseable dates, and only those |
| Transactions.GetTransactions | internal/handlers/transaction.go:25-68 | the result is the shop's rows meeting the filters, newest first, with products preloaded; total is the length |
| Transactions.ListingIsFilteredAndOrdered | internal/handlers/transaction.go:36-59 | the listing holds exactly the caller's matching rows, as a newest-first permutation |
| Transactions.SameDayBounds | internal/handlers/transaction.go:42-56 | with both dates set to one day, a row is listed exactly when it lies between that day's 00:00:00 and 23:59:59 |
| Transactions.ListingAfterAppend | internal/handlers/transaction.go:115-124 | a new row joins exactly the listings whose filters it meets |
| Users.GetUsers | internal/handlers/user.go:25-54 | the users of the caller's shop as responses without passwords; total is the length |
| Users.StaffListIsTheShop | internal/handlers/user.go:33-47 | every listed user is of the caller's shop, and every user of it is listed |
| Users.CreateUser | internal/handlers/user.go:57-103 | bind failure; 409 for a used email with no user added; hashing failure 500; the user is added to the token's shop |
| Users.RemovalTakesOnlyThatUser | internal/handlers/user.go:127-135 | removing row k takes away exactly that id and keeps every other user |
| Users.DeleteUser | internal/handlers/user.go:106-138 | a malformed id is 400; one's own id is 400 and nothing is deleted; no user of that id in the shop is 404 with nothing changed; otherwise exactly that user is removed |
| Shops.GetShop | internal/handlers/shop.go:23-37 | the caller's own shop row when it exists, else 404 |
| Shops.NumberChangeSeen | internal/handlers/shop.go:53-55 | after the update every lookup of that shop sees the new number and its active state is unchanged |
| Shops.UpdateWhatsApp | internal/handlers/shop.go:40-71 | only the number of the token's shop changes; no matching row is 404; success echoes the requested number |
| Reports.LedgerSplits | internal/handlers/report.go:31-45 | sales plus expenses is the sum over all the shop's ledger rows |
| Reports.RecordingMovesOneTotal | internal/handlers/report.go:31-45 | recording a transaction moves exactly one total of its own shop by its amount |
| Reports.TotalsNonNegative | internal/handlers/report.go:31-45 | with positive amounts neither total is negative, and sales are 0 exactly when the shop has no Sale |
| Reports.LowStockListIsComplete | internal/handlers/report.go:48-63 | the low-stock list has only stock < 5 and includes every live product of the shop below 5 |
| Reports.GetDashboard | internal/handlers/report.go:23-82 | the totals are the filtered sums; net profit is their difference; the low-stock list and both counts are of the caller's shop |
| Uploads.Ext | internal/handlers/upload.go:39 | the extension is a suffix of the name, starting with its only `.` and holding no `/` |
| Uploads.SlashEndsElement | internal/handlers/upload.go:39 | a name ending in `/` has no extension dot |
| Uploads.PlainCharKeepsDot | internal/handlers/upload.go:39 | a character that is neither `.` nor `/` does not change whether the last element has a dot |
| Uploads.ExtEmptyIffNoDot | internal/handlers/upload.go:39 | the extension is empty exactly when the last path element has no `.` |
| Uploads.StoredNameInjective | internal/handlers/upload.go:53 | two stored names are equal exactly for the same nanosecond and file name |
| Uploads.UploadImage | internal/handlers/upload.go:24-63 | no file is 400; the lowercased extension must be allowed, checked before the size; over 5 MiB is 400 "File too large. Maximum size is 5MB" and exactly 5 MiB accepted; a failed write is 500 "Failed to save file"; the URL is /uploads/ plus nanos_filename |
| Uuids.ParseFormat | internal/handlers/auth.go:165-166 | printing an id and parsing it back gives the same id |
| Uuids.FormatInjective | internal/handlers/auth.go:165-166 | different ids print differently |
| Dates.ParseDate | internal/handlers/transaction.go:44 | a date parses exactly when it has the form DDDD-DD-DD and names an existing day |
| Dates.ParseFormatDate | internal/handlers/transaction.go:44-52 | a printed date parses back to that day's midnight |
| Dates.NextDateStart | internal/handlers/transaction.go:54 | the next day starts exactly 24 hours later |
| UrlEscape.QueryRoundTrip | internal/handlers/public.go:27 | unescaping the escaped message gives its UTF-8 bytes back |
| UrlEscape.EscapedIsSafe | internal/handlers/public.go:27-28 | the escaped text uses only characters that cannot end the query parameter |
| Text.IntToDecimalInjective | internal/handlers/upload.go:53 | `%d` prints different integers differently |

## Left out

- HTTP and Gin plumbing are out: status codes become failure kinds, and JSON decoding of a body is a present or absent value.
- Dto.Bind: binding failures carry one fixed message rather than the validator's error text. The `email` format rule is reduced to a non-empty check.
- Middleware.Authenticate: the JWT library is a decoding function parameter. Signature checking and base64/JSON parsing are outside the model, as is the `JWT_SECRET` lookup with its default. The "Invalid token claims" branch cannot be reached with map claims and is not modelled. Claim numbers are exact reals: float64 rounding of large `exp`/`nbf` values and their int64 overflow are not modelled.
- Auth.Login: signing is a function parameter. The `iat` and `exp` claims are computed from one given instant, where the code reads the clock twice.
- Middleware.RoleGate: a role value that is not a string makes the code panic, and the recovery middleware turns that into a 500. The model gives an Internal failure with an empty message instead of the panic.
- bcrypt is a symbolic digest, not the real hash. Only its 72-byte limit is modelled, as a hashing failure.
- Models.MatchesOnlyOriginal: holds of the symbolic digest only. The real `bcrypt.CompareHashAndPassword` ignores key bytes after the 72nd, so for a stored password of exactly 72 bytes, that password followed by any suffix also matches.
- Auth.RegisteredUserLogsIn: "and no other" holds over the symbolic digest only; with real bcrypt, a registered 72-byte password followed by any suffix also logs in.
- Generated ids (`uuid.New`) and the current time are parameters.
- Read errors of the database ("Failed to fetch …", "Failed to delete …", "Failed to update …") are not modelled. Reads, updates and deletes always succeed; inserts fail only on their primary-key, unique-email and foreign-key constraints.
- The Updates call's own error path is not modelled. An empty update map issues no statement, and the model leaves the row unchanged in that case.
- The result order of queries without ORDER BY is taken as table (insertion) order; the database does not promise one.
- Transactions.GetTransactions: rows with equal `created_at` keep their table order. `ORDER BY created_at DESC` leaves ties in no particular order, so the ensures pin an order the database does not promise; Transactions.ListingIsFilteredAndOrdered states only what it does promise.
- Products.GetProducts: `ILIKE` is modelled as an ASCII case-insensitive substring test. Its wildcards `%` and `_` and its escape character `\` inside the search text, and Unicode case folding, are not modelled.
- Uploads.UploadImage: `strings.ToLower` is ASCII-only here. The file write under `uploads/` is a boolean parameter.
- The upload handler is not registered on any route in the main program, so the route table has no entry for it.
- Transactions.CreateTransaction: a failing insert inside the unit of work reports a fixed text, not the driver's error. The text of the insufficient-stock error is modelled as written but not proved about.
- Concurrent Sales are not modelled; the model is sequential. The code reads stock and writes the absolute difference without a row lock, so it makes no claim about races.
- Prices and amounts are `real`, so float64 rounding in the dashboard sums is not modelled.
- Time zones other than UTC are not modelled. Instants are UTC microseconds.
- Environment loading, database connection, seeding, CORS and server start-up are not part of this model.
