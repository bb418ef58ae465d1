# Commercium order and user services — a Dafny model

This project models the business-rule layer of the Commercium order-management
backend: the order service (`server/internal/service/order_serv.go`) and the
user service (`internal/service/user_serv.go`). Each service validates a
request in a fixed, fail-fast order. Then it makes one write through a
repository.

Layout:

- `common.dfy` (module `Common`): the `Result` the services return and an
  `Error` datatype. `Error.Message()` gives the exact text of every error. It
  also holds `FirstFailure`, the reference for fail-fast validation: a list of
  (condition, error) rules, checked in order, where the first failing rule
  decides the error.
- `entities.dfy` (module `Entities`): orders, order requests, users, user
  requests and products as datatypes.
- `storage.dfy` (module `Storage`): in-memory stand-ins for the three
  repositories. Each is a class holding a map from id to record. Creation
  assigns the next free id, and a lookup of an absent id fails with the
  storage's `RecordNotFound`.
- `orders.dfy` (module `Orders`) and `users.dfy` (module `Users`): five
  operations validate their request: `GetOrderByDate`, `CreateOrder`,
  `UpdateOrder`, `CreateUser` and `UpdateUser`. Each of them appears in
  three parts:
  - a pure decision function that follows the Go branches and states what
    the operation decides;
  - a lemma proving that this function reports exactly the first failing
    rule of the operation's rule list;
  - a method of the service class that runs the steps imperatively against
    the stores. Its `ensures` ties the result and the new store contents to
    the decision function, and states that nothing is written on failure.

  The fetch-then-act operations `PaidOrder`, `DeleteOrder` and `DeleteUser`,
  and the pass-through `GetOrderByID`, are methods only. Their `ensures`
  state the result and the store effect directly.

Invariants kept by the service classes:

- `OrderService.Valid()`: every stored order has both references set and a
  quantity of at least 1.
- `UserService.Valid()`: usernames are unique, and every stored password is
  a digest produced by the hasher.

A hashing failure during `CreateUser` is returned to the caller unchanged
(`HashFailed`).

In two places the code's messages or names suggest a different behaviour
from the one it has. The model follows the code:

- Consider the lookup of the record an operation acts on: the order or user
  being updated, paid or deleted. `UpdateOrder`, `PaidOrder`, `UpdateUser`
  and `DeleteUser` return that lookup's error unchanged. Only `DeleteOrder`
  replaces it, with "order not found". The lookups of referenced records are
  a separate matter. `CreateOrder` replaces the errors of both its product
  and its user lookup, with "product not found" and "user not found".
  `UpdateOrder` looks up only the product, and replaces that lookup's error
  with "product not found".
- `UpdateUser` rejects a request whose full name and email are both empty
  with the message "username and email cannot be blank". The message names
  the username, but the check is on the full name. The model keeps the
  message as written.

## Model

| member | source | states |
|---|---|---|
| `Common.Error.Message` | server/internal/service/order_serv.go:46-137 | every error the services raise maps to the literal text of the source's `errors.New`: at :46, 51, 60, 65, 71, 77, 82, 106, 114 and 137 here, and at internal/service/user_serv.go:43, 48, 53, 58, 64, 67, 70 and 101 (:110 reuses the text of :53); every such text is non-empty; `HashFailed` carries the hasher's own error text, returned at internal/service/user_serv.go:76 |
| `Orders.DateRangeError` | server/internal/service/order_serv.go:45-52 | "date cannot be blank" exactly when either bound is the zero time; "'from' date cannot be after 'to' date" exactly when both are set and `from > to`; accepted exactly when both are set and `from <= to` (so `from == to` passes) |
| `Orders.DateRangeIsFailFast` | server/internal/service/order_serv.go:45-52 | the guard equals the ordered check of its two rules |
| `Orders.OrderService.GetOrderByDate` | server/internal/service/order_serv.go:43-55 | fails with the guard's error; otherwise returns exactly the stored orders created in the inclusive range |
| `Orders.OrderService.GetOrderByID` | server/internal/service/order_serv.go:39-41 | returns the stored order, or the storage's not-found error |
| `Orders.NewOrder` | server/internal/service/order_serv.go:57-92 | succeeds exactly when both ids are non-zero, the quantity is at least 1, and the product and the user exist; the order built carries the request's user id, product id and quantity, status "pending", and total = quantity × product price |
| `Orders.NewOrderIsFailFast` | server/internal/service/order_serv.go:59-83 | the error is the first failing rule of: ids blank, quantity blank, product not found, user not found, minimum quantity |
| `Orders.MinimumQuantityOnlyWhenNegative` | server/internal/service/order_serv.go:64-83 | "minimum quantity is 1" is only reported for a negative quantity; a zero quantity always fails earlier (ids blank or quantity blank) |
| `Orders.ProductCheckedBeforeUser` | server/internal/service/order_serv.go:69-78 | with the ids and quantity set, a missing product gives "product not found" whatever the user |
| `Orders.CreateOrderExample` | server/internal/service/order_serv.go:85-91 | 3 units of a product priced 1000 give a pending order totalling 3000 |
| `Orders.OrderService.CreateOrder` | server/internal/service/order_serv.go:57-94 | on failure returns the decided error and writes nothing; on success stores exactly one new order, the decided one under a fresh id, and returns it; keeps every stored order well formed |
| `Orders.UpdatedOrder` | server/internal/service/order_serv.go:102-121 | fails exactly for a negative quantity ("quantity cannot be less than 1") or a positive quantity whose product is gone ("product not found"); a non-zero quantity replaces the quantity and sets total = new quantity × the current product price; quantity zero keeps quantity and total; a non-empty status replaces the status unchecked; id, user id, product id and date never change; a well-formed order stays well formed |
| `Orders.UpdatedOrderIsFailFast` | server/internal/service/order_serv.go:103-115 | the error is the first failing rule of: quantity below one, product not found |
| `Orders.UpdateRepricesAtCurrentPrice` | server/internal/service/order_serv.go:109-117 | after the product's price changes, updating the quantity of an order created at the old price totals it at the new price |
| `Orders.OrderService.UpdateOrder` | server/internal/service/order_serv.go:96-124 | a missing id returns the lookup error and writes nothing; otherwise returns the decided update and writes it back only on success |
| `Orders.OrderService.PaidOrder` | server/internal/service/order_serv.go:126-132 | a missing id returns the lookup error and makes no payment call; otherwise makes exactly one payment call with the stored order's id, user id and product id |
| `Orders.OrderService.DeleteOrder` | server/internal/service/order_serv.go:134-141 | a missing id fails with "order not found" and deletes nothing; otherwise deletes exactly the fetched order and returns it |
| `Orders.OrderService.constructor` | server/internal/service/order_serv.go:27-33 | the service keeps the three repositories it is given |
| `Users.NewUser` | internal/service/user_serv.go:40-87 | succeeds exactly when no field is blank, the username and email validators accept, the username is not taken, all three password conditions hold and hashing succeeds; the user built carries username, full name and email as given, role "user", and as password the hasher's digest of the plaintext; fails with the blank-fields message exactly when a field is blank |
| `Users.NewUserIsFailFast` | internal/service/user_serv.go:42-77 | the error is the first failing rule of: blanks, username format, email format, username taken, length, letter, digit; once all pass, only a hashing failure can still stop creation |
| `Users.PasswordMessagesDistinct` | internal/service/user_serv.go:62-71 | when the earlier checks pass, each password condition failing alone gives its own error: length first, then letter, then digit |
| `Users.PasswordMessageTextsDistinct` | internal/service/user_serv.go:62-71 | the three password errors carry three pairwise different message texts |
| `Users.PasswordNeverPlaintext` | internal/service/user_serv.go:73-85 | with a hasher that never returns its input, a created user never holds the plaintext password |
| `Users.UserService.CreateUser` | internal/service/user_serv.go:40-90 | "username already exists" exactly when storage already holds that username, and only after the format checks; on failure writes nothing; on success stores exactly the decided user under a fresh id; keeps usernames unique and every stored password a digest |
| `Users.CreateSameUsernameTwice` | internal/service/user_serv.go:56-59 | after a successful creation, a second creation with the same username is refused as taken, the first user stays stored with role "user", and the store holds the earlier users plus exactly that one |
| `Users.UpdatedUser` | internal/service/user_serv.go:99-113 | fails exactly when both full name and email are empty, or the email is non-empty and invalid, with those messages in that order; a non-empty full name replaces the full name; a valid non-empty email replaces the email; id, username, password and role never change |
| `Users.UpdatedUserIsFailFast` | internal/service/user_serv.go:99-113 | the error is the first failing rule of: both fields blank, invalid email |
| `Users.UserService.UpdateUser` | internal/service/user_serv.go:92-116 | a missing id returns the lookup error; otherwise returns the decided update and writes it back only on success, so an invalid email leaves the stored user unchanged, its full name included |
| `Users.UserService.DeleteUser` | internal/service/user_serv.go:118-126 | a missing id returns the lookup error and deletes nothing; otherwise deletes exactly the fetched user and returns it |
| `Users.UserService.constructor` | internal/service/user_serv.go:24-26 | the service keeps the repository it is given |

## Left out

- Repository implementations (SQL) are not part of this model. The services write only a new record or one they have just fetched, and in the model those writes always succeed. So the repository write errors the source passes on (server/internal/service/order_serv.go:93, 123, 131, 140; internal/service/user_serv.go:89, 115, 125) are not modelled.
- `Storage.UserStore.GetUserByUsername`, `Storage.UserStore.GetUserByID`, `Storage.OrderStore.GetOrderByID` and `Storage.ProductStore.GetProductByID`: a lookup fails only when the key is absent. Other read faults (a lost connection, say) are not modelled, so the source's handling of them is not modelled either. `CreateUser` (internal/service/user_serv.go:57-59) treats any lookup error as "not taken"; `CreateOrder`, `UpdateOrder`'s product lookup and `DeleteOrder` (server/internal/service/order_serv.go:69-78, 112-115, 135-138) turn any lookup error into a not-found message. The error text "record not found" belongs to repository code that is not part of this model and is assumed.
- `Users.UserService.Valid`: usernames stay unique only under the lookup assumption above, besides sequential calls. A username lookup that failed while the name is stored would let `CreateUser` store a second user with that name.
- `Orders.OrderService.GetOrderByDate`: the storage query after the guard always succeeds, so the repository error the source returns at server/internal/service/order_serv.go:54 is not modelled.
- `Storage.OrderStore.PaidOrder`: what storage does on payment is not known. The model assumes it logs the call and sets the order's status to "paid".
- The Go helpers `UsernameValidator`, `EmailValidator`, `PasswordValidator` and `PasswordHashing` are not part of this model. They are parameters of the user service (`Helpers`), and any total functions are allowed. The hasher is a function, so bcrypt's random salt is not modelled. The only assumption used is that the hasher never returns its input (`OneWay`).
- Prices and totals are `float64` in the source. They are modelled as integers in the smallest currency unit, so total = quantity × price is exact and float rounding is not modelled.
- `time.Time` is modelled as an integer, with 0 as the zero time and `After` as `>`. The order's date column (`createdAt`) is assumed, and storage stamps it at creation from a clock value passed to `CreateOrder`.
- `Orders.OrderService.GetOrderByDate`: returns a set, so the order of the rows storage returns is not modelled.
- The user service's pass-throughs `GetUserByID` and `GetUserByUsername` have no logic of their own. They appear only as store reads (`Storage.UserStore.GetUserByID`, `Storage.UserStore.GetUserByUsername`).
- `GetAllOrders` (server/internal/service/order_serv.go:35-37), with its `OrderDetail` join, and `GetAllUsers` (internal/service/user_serv.go:28-30) are not modelled. Both only return what the repository lists, and listing belongs to repository code that is not part of this model.
- Concurrency is not modelled. Every call is sequential, so the check-then-act races (username uniqueness, price read before the write) cannot occur in the model.
- The HTTP status mapping and typed error categories are not modelled. The source returns plain error strings, and the model returns their exact texts.
