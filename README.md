# Café back end: orders and accounts in Dafny

This project models the order-and-account core of a café's administrative back
end, written in Go. The model has three layers, one per Go file:

- **`Database`** (`database.dfy`, from `backend/database.go`) is the PostgreSQL store.
  - A `Provider` class holds the users, menu, orders and order_items tables as fields.
  - Its methods change those fields the way the back end's SQL statements change the tables.
  - The centre is `Provider.AddOrder`, the order-placement transaction. It inserts a header with total 0 and status "В работе", then works through the requested lines. For each line it reads the price, adds price · quantity to a running total and inserts an order_items row. Finally it writes the total back.
  - Each failure restores the snapshot taken when the transaction began.
  - Its contract is the two-state predicate `Provider.Placed`. That predicate ties the result and the new tables to the reference outcome `Placement`, built from the head-recursive sum `Total`.
- **`Usecases`** (`usecases.dfy`, from `backend/usecase.go`) is registration and authentication.
  - bcrypt and JWT signing are given to a `Usecase` as functions `hash`, `verify` and `issue`.
  - The only assumption made about them is `SoundHasher`: every hash verifies against its own password. The constructor requires it; it is not an axiom.
- **`Api`** (`api.dfy`, from `backend/api.go`) is the request checks of the HTTP handlers, placed in front of those operations.
  - `BuildOrderItems` fills a fresh array index by index, as the order handler does.
  - Each handler returns the HTTP status and a reason, or the body of its 200 answer.

The common values are in `domain.dfy` (module `Domain`).

Choices the model makes:

- **Database failures.** A failure the driver could report is an explicit input: `dbFails`, `TxFault`, `UpdateFault`, `AuthFaults` and `RegisterFaults`.
- **Money.** Prices and totals are whole kopecks (`int`), so that total = Σ price · quantity holds exactly. Go keeps them as `float64` roubles.
- **Ids.** Ids come from the sequences `menuSeq` and `orderSeq`. As in PostgreSQL, they do not roll back with a transaction: a placement that fails after its header insert has used up an id.
- **Byte lengths.** Go's `len` of a string counts UTF-8 bytes. `Utf8Length` models that.
- **Duplicate emails.** A single-row query `WHERE email = $1` is modelled as returning the first matching row (`FindByEmail`). The table has no unique constraint on email in this model. Uniqueness is the invariant `UniqueEmails`, which `Register` preserves.

Where the code departs from what the system is meant to do, the model follows the code:

- `UpdateOrderStatus` writes any status, in any order: completed back to canceled and the reverse. Completed and canceled are not terminal.
- Updating an unknown order id is not an error; it changes nothing.

## Model

| member | source | states |
|---|---|---|
| Database.FindByEmail | backend/database.go:44-65 | The single-row lookup by email finds nothing exactly when no user has that email; otherwise it returns the first user with it. |
| Database.FindAfterAppend | backend/database.go:36-42 | Storing a user under an email nobody has makes that user the lookup's answer, and keeps emails unique. |
| Database.FirstOffMenu | backend/database.go:166-175 | The first requested line whose menu item is missing, which is where the price loop stops; every earlier line is on the menu. |
| Database.TotalAppend | backend/database.go:166-177 | The order value over a concatenation is the sum of the values of the parts; this ties the loop's running total to the sum over all lines. |
| Database.TotalNonNegative | backend/database.go:166-177 | With non-negative prices and positive quantities, the order value is non-negative. |
| Database.PlacementSucceeds | backend/database.go:128-205 | A missing menu item always fails the placement. With no injected fault, placement succeeds exactly when every item is on the menu. A successful placement carries the next id, status "В работе", the lines as requested and their Σ price · quantity, which is non-negative. |
| Database.PlacementExample | backend/database.go:128-205 | Items at 100.00 and 50.00, ordered two and one, give an order of 250.00 with two lines; completing it keeps that total. |
| Database.PriceLookupOutcome | backend/database.go:168-174 | A failed price query, or a missing item, at line i fails the whole placement with that line's menu item id. |
| Database.LineInsertOutcome | backend/database.go:179-189 | A failed order_items insert at line i, after that line's price was read, fails the placement with the insert error. |
| Database.LinesDoneOutcome | backend/database.go:192-204 | Once all lines are priced and inserted, only the total update decides: failure gives the update error, success gives the order with the full total. |
| Database.SetStatus | backend/database.go:229-232 | Only the named order's status changes; its total and every other order stay the same, and an unknown id changes nothing. |
| Database.SetStatusIdempotent | backend/database.go:229-232 | Writing the same status twice is the same as writing it once. |
| Database.AnalyticsAgree | backend/database.go:234-351 | Revenue and order counts accept the same periods and group them the same way. |
| Database.Provider.constructor | backend/database.go:13-15 | The store starts with empty tables and consistent sequences. |
| Database.Provider.CreateUser | backend/database.go:36-42 | A failed insert leaves the users table unchanged; otherwise exactly one row with the given name, email and hash is appended. |
| Database.Provider.CheckUserByEmail | backend/database.go:44-54 | A query error gives (false, error); otherwise true exactly when some user has the email. |
| Database.Provider.GetUsernameAndHashedPassword | backend/database.go:56-65 | A query error or no matching user is an error; on success, the name and hash are those of the first user with the email. |
| Database.Provider.FetchMenuItems | backend/database.go:66-90 | Every menu row appears exactly once, unchanged, in strictly ascending id order. |
| Database.Provider.AddMenuItem | backend/database.go:115-127 | The new row gets the next id, which was unused, and the database's creation time; name, description and price are as given; nothing else changes. A failure changes nothing. |
| Database.Provider.UpdateMenuItem | backend/database.go:96-114 | On an existing id, name, description and price are replaced, id and created_at are kept, and the re-read row is returned. An unknown id changes nothing and gives "no rows". A failed re-read leaves the update in place and reports an error. |
| Database.Provider.DeleteMenuItem | backend/database.go:91-94 | Removes only the row with that id. A failure changes nothing. |
| Database.Provider.AddOrder | backend/database.go:128-205 | Meets `Placed`, stated below, and keeps the tables consistent. |
| Database.Provider.FetchOrders | backend/database.go:206-228 | Every order header appears exactly once, without lines, in strictly ascending id order. |
| Database.Provider.UpdateOrderStatus | backend/database.go:229-232 | The orders table becomes `SetStatus` of the old one, for any status string; a failure changes nothing. |
| Database.Provider.FetchRevenue | backend/database.go:234-291 | Any period other than day, week, month or year gives "invalid period" before any query runs. For a known period the query succeeds exactly when the database does not fail, and it sums order totals. |
| Database.Provider.FetchOrderCounts | backend/database.go:294-351 | The same period guard as revenue. For a known period the query succeeds exactly when the database does not fail, and it counts orders. |
| Usecases.Usecase.constructor | backend/usecase.go:57-63 | A use-case layer over a consistent store and a sound hasher. |
| Usecases.Usecase.Authenticate | backend/usecase.go:10-29 | An unknown email, and also a lookup error, gives "user not found". A failed fetch gives the storage error. A hash that does not verify gives "invalid credentials". Success happens exactly when the first user with the email has a hash that verifies, and the token is issued for that user's name, not the email. |
| Usecases.Usecase.Register | backend/usecase.go:35-48 | A lookup error, a taken email, a refused hash and a failed insert each give their own error, and the users table is then unchanged. Success happens exactly when none of these occurs; it appends exactly one user with the given name, the email and hash(password). Afterwards, authenticating with that email and password yields the token for that name. Unique emails stay unique. |
| Usecases.Usecase.RegisterTwice | backend/usecase.go:35-48 | After a successful registration, a second registration under the same email is refused with "user already exists". |
| Usecases.Usecase.AddOrder | backend/usecase.go:100-102 | Delegates unchanged: meets the store's `Placed`. |
| Usecases.Usecase.UpdateOrderStatus | backend/usecase.go:106-108 | Delegates unchanged: the store's status update and error. |
| Usecases.Usecase.GetRevenue | backend/usecase.go:115-117 | Delegates unchanged: an unknown period gives "invalid period". |
| Usecases.Usecase.GetOrderCounts | backend/usecase.go:125-127 | Delegates unchanged: an unknown period gives "invalid period". |
| Api.Utf8Length | backend/api.go:99-105 | The byte length Go's `len` gives: between one and four bytes per character, and one per ASCII character. |
| Api.BuildOrderItems | backend/api.go:247-260 | An empty order is refused. The request is accepted exactly when every line has a positive id and a positive quantity; otherwise it is refused as an invalid line. Accepted lines keep length, order and values. |
| Api.PeriodWhitelistsAgree | backend/api.go:306-308 | The handlers' period whitelist admits exactly the periods the store knows. |
| Api.Server.constructor | backend/api.go:29-36 | The server keeps the configured length bounds and the use-case layer. |
| Api.Server.CheckRegistration | backend/api.go:95-105 | An empty name, email or password is refused first. Next, a name whose byte length is outside [minUsername, maxUsername]. Then a password outside [minPassword, maxPassword]. Email length is never checked. Otherwise the request passes. |
| Api.Server.Register | backend/api.go:82-114 | A request refused by the checks gets 401 and leaves the users untouched. Otherwise the answer is 200 "OK!" exactly when registration succeeds, with exactly that user added; 500 otherwise. |
| Api.Server.Login | backend/api.go:116-137 | An empty email or password gets 401 before authenticating. Otherwise the answer is 200 with the token exactly when authentication succeeds, and 500 carrying its error otherwise. |
| Api.Server.AddOrder | backend/api.go:232-269 | An empty order, or a line with a non-positive id or quantity, gets 400 and the store is untouched. Otherwise the store meets `Placed` for those lines, and the answer is the placed order with 200, or 500. |
| Api.Server.UpdateOrderStatus | backend/api.go:279-303 | Only "Выполнен" or "Отменен" reaches the store; any other value gets 400 and leaves the orders untouched. A store failure gives 500; success applies `SetStatus`. |
| Api.Server.GetRevenue | backend/api.go:304-316 | Only day, week, month or year is accepted, else 400. A query failure gives 500. On success the body is a revenue query. |
| Api.Server.GetOrderCounts | backend/api.go:317-332 | An absent period means "day". Then the same whitelist applies: 400 outside it, 500 on query failure, and an order-count query on success. |

`Database.Provider.Placed` (backend/database.go:128-205) is the contract of order placement. It is a two-state predicate:

- The result is `Placement` of the requested lines against the menu as it was, with the next order id.
- The menu, the users and the menu sequence are unchanged.
- The order sequence advances once a header insert has been attempted.
- On success the id was unused, exactly one new header exists, with status "В работе" and the returned total, and one order_items row per requested line was appended, in order.
- On failure the orders and order_items tables are exactly as before.

## Left out

- HTTP binding, Echo routing, middleware and CORS, and JSON encoding are not modelled. A bind or `strconv.Atoi` failure is a transport error; handlers start from already-parsed values.
- `AuthMiddleware` and `Usecase.ValidateJWT` are not modelled: JWT signing, validation and expiry belong to an external library. A token is `issue(name, now)`. A failure of the token signer is not modelled.
- bcrypt internals (salt, cost, constant-time comparison) are not modelled. Hashing is the function `hash`, verification is `verify`, and the salt is a parameter.
- Configuration loading, `main`, `NewServer`'s server construction and `NewProvider`'s connection set-up are not modelled.
- Logging is not modelled.
- Analytics aggregation (`to_char`, `NOW()`, `GROUP BY`) is not modelled. An analytics call returns the query it would run (aggregate, grouping unit, window), not the rows.
- `created_at` values are opaque `Timestamp` strings supplied by the caller, and their formatting is not modelled.
- Floating-point roubles are not modelled; money is whole kopecks.
- Database.Provider.AddOrder: a failing `COMMIT` is not modelled; commit always succeeds. In the Go code a commit error changes only a local variable after the result is fixed, so the caller never sees it.
- A failed `ROLLBACK` is not modelled.
- Database.Provider.AddOrder: when the header insert itself fails, the order sequence is taken as not advanced. PostgreSQL may or may not have used an id by then; only the freshness of ids matters to the model.
- Concurrent requests and price changes during a placement are not modelled; each operation runs alone.
- Foreign keys between order_items and menu are not modelled: deleting a menu item that orders refer to succeeds.
- The pass-throughs `GetMenuItems`, `DeleteMenuItem`, `UpdateMenuItem`, `AddMenuItem` and `GetOrders` (backend/usecase.go:64-105) are not modelled separately. Each calls the `Provider` method of the same name unchanged, and those methods are modelled. The handlers `GetMenu`, `DeleteMenuItem`, `UpdateMenuItem`, `AddMenuItem` and `GetOrders` in backend/api.go do no checks beyond parsing.
- Api.Server.Login: the token body is the token string, not the JSON object wrapping it.
- The random data-seeding script and the React front end are not part of this model.
