# BulkyBook order lifecycle and shopping cart, modelled in Dafny

BulkyBook is a bookstore web application. This project models its three pieces
of stateful logic and proves what they promise:

- **Order lifecycle** (`orders.dfy`, module `Orders`): the admin order
  controller. An order header carries an order status and a payment status
  drawn from one `Status` enumeration. The controller's actions are:
  - pay now: builds one gateway line item per order detail, requests a
    checkout session and stores the returned session and payment-intent handles;
  - payment confirmation: asks the gateway about a deferred payment and
    approves it when the session reads "paid" in any letter case;
  - start processing;
  - ship: stamps the tracking fields and the shipping date, and sets a due
    date thirty days on for a deferred payment only;
  - cancel: refunds an approved payment, and otherwise only cancels;
  - the shipment-detail patch, which never touches a status;
  - the role-scoped, status-bucketed order listing `GetAll`.

  The order header repository is a class over a map from id to header. The same class also holds the order-detail table (`_unitOfWork.OrderDetail`) as a sequence, which only pay now reads. The
  payment gateway is a class with an oracle `answer(k, call)`, giving the reply
  to the `k`-th call, plus the log `calls` of every call made. Replies can be
  `Failed` (the SDK throwing), and "now" is a day number passed in. The
  controller's invariant `Valid()` says that every header is stored under its
  own id, and that every order whose payment status reads Refunded had a
  refund granted for it by the gateway. Every action preserves it.
- **Cart add-or-increment** (`cart.dfy`, module `Cart`): the customer home
  controller's product details. The GET builds a one-copy entry. The POST
  stamps the entry with the caller's id. It then inserts it as a row when
  the caller has no row for that product, and otherwise adds its count to
  the existing row. Last, it sets the session cart count to the number of
  the caller's rows. The cart table is a sequence of rows, so "at most one
  row per (user, product)" (`UniquePairs`) is an invariant the POST keeps.
  The row count is proved to equal the number of distinct products.
- **Cart-count cache** (`cart_badge.dfy`, module `CartBadge`): the view
  component that shows the cart count. With no user it clears the session
  and shows 0. With a cached count it shows that count. Otherwise it fills
  the cache from the table and shows the cached value.
- `repository.dfy` (module `Repository`) holds the repository's query forms:
  `Where` is `GetAll(filter)` and `FirstWhere` is `GetFirstOrDefault(filter)`.
  Both work over a table in enumeration order. The module also holds the
  order-preserving subsequence relation.
- `sessions.dfy` (module `Sessions`) is the request session, reduced to its
  cart-count key.

The repository methods `UpdateStatus`, `UpdateStripePaymentID`, `Update` and
`IncrementCount` are called by the controllers. Their implementations live in
repository classes outside the modelled code, and none of them is declared on
the generic repository interface. They are modelled with the effects their
call sites imply:
- `UpdateStatus(id, os, ps?)` sets the order status, and sets the payment
  status only when one is given;
- `UpdateStripePaymentID` sets the two handles;
- `Update(header)` replaces the stored header with the given one;
- `IncrementCount(row, n)` adds `n` to the row's count.

The `SD` constants class is not part of this model. The model gives the
statuses as the `Status` enumeration and assumes the role names "Admin" and
"Employee" (`RoleAdmin`, `RoleEmployee`); a caller's roles are a set of role
names. One enumeration serves both columns, because the controller stores the
order-status values Cancelled and Refunded into the payment status. `Save()`
is taken as an immediate commit. A missing order, which pay now, payment
confirmation, the shipment-detail patch, ship and cancel dereference as null,
is a precondition (`id in repo.orders`). Start processing never fetches the
order: it passes the posted id unchecked to `UpdateStatus`, whose implementation
is not part of this model, and the model requires the order to exist
there too.

Three behaviours of the code are easy to miss, and the model keeps them:
- The shipment-detail patch (`UpdateOrderDetail`) sets carrier and tracking
  number whenever they are submitted, at any order status
  (OrderController.cs:120-127). Shipping is not the only way to set them.
- The payment-status column also receives Cancelled and Refunded, not just
  DelayedPayment, Approved and Rejected (OrderController.cs:183 and 187).
- Pay now has no guard on the order status (OrderController.cs:45-86), and
  neither does `PayNow`.

## Model

| member | source | states |
|---|---|---|
| `Repository.Where` | BulkyBook.DataAccess/Repository/IRepository/IRepository.cs:9 | the result is an order-preserving subsequence of the table, and holds a row exactly when the table holds it and the filter accepts it |
| `Repository.WhereMultiplicity` | BulkyBook.DataAccess/Repository/IRepository/IRepository.cs:9 | the result holds every copy of an accepted row and no copy of a rejected one |
| `Repository.FirstWhere` | BulkyBook.DataAccess/Repository/IRepository/IRepository.cs:8 | None exactly when no row matches; otherwise a matching position with no match before it |
| `Orders.BuildLineItems` | BulkyBookWeb/Areas/Admin/Controllers/OrderController.cs:62-81 | one line item per order detail, in order, with the detail's count as quantity, the product title as name, currency "usd" and the converted price as unit amount |
| `Orders.IsPaid` | BulkyBookWeb/Areas/Admin/Controllers/OrderController.cs:99 | a session status counts as paid exactly when it is "paid" in any mix of letter case |
| `Orders.Elevated` | BulkyBookWeb/Areas/Admin/Controllers/OrderController.cs:201 | the caller is in the Admin role or the Employee role; `Orders.GetAll` states what that grants |
| `Orders.BucketFilter` | BulkyBookWeb/Areas/Admin/Controllers/OrderController.cs:215-231 | an order passes exactly when it is in the bucket: "pending" is payment DelayedPayment, "inprocess" is InProcess, "completed" is Shipped, "approved" is order status Approved; any other bucket passes every order |
| `Orders.GetAll` | BulkyBookWeb/Areas/Admin/Controllers/OrderController.cs:197-231 | an order-preserving subsequence of the table. It holds only orders the caller may see: all for Admin or Employee, the caller's own otherwise. Of those it keeps exactly the orders in the bucket: "pending" is payment DelayedPayment, "inprocess" is InProcess, "completed" is Shipped, "approved" is order status Approved. With another bucket it keeps all of them, so an elevated caller gets the whole table. Every copy of a kept order is kept, and no copy of any other |
| `Orders.OrderRepository.UpdateStatus` | BulkyBookWeb/Areas/Admin/Controllers/OrderController.cs:183-187 | sets the order's order status, and its payment status only when one is given; nothing else changes |
| `Orders.OrderRepository.UpdateStripePaymentID` | BulkyBookWeb/Areas/Admin/Controllers/OrderController.cs:85 | stores the session id and payment intent id on that order only |
| `Orders.OrderRepository.Update` | BulkyBookWeb/Areas/Admin/Controllers/OrderController.cs:159 | replaces the stored header with the given one |
| `Orders.PaymentGateway.Call` | BulkyBookWeb/Areas/Admin/Controllers/OrderController.cs:83-84 | logs exactly the one call and returns the oracle's reply for that position in the log |
| `Orders.OrderController.PayNow` | BulkyBookWeb/Areas/Admin/Controllers/OrderController.cs:45-86 | makes exactly one session request for the order, carrying one line item per detail of that order. A created session's handles are stored on that order and nothing else changes; a failed request stores nothing. Keeps `Valid()` |
| `Orders.OrderController.PaymentConfirmation` | BulkyBookWeb/Areas/Admin/Controllers/OrderController.cs:91-106 | if the payment is not deferred, no gateway call and no change. Otherwise exactly one session lookup by the stored session id; a "paid" reply sets the payment status to Approved with the order status unchanged, and any other reply changes nothing. Keeps `Valid()` |
| `Orders.OrderController.UpdateOrderDetail` | BulkyBookWeb/Areas/Admin/Controllers/OrderController.cs:113-129 | overwrites name, phone, street, city, state and postal code. Overwrites carrier and tracking number only when they were submitted. Both statuses and every other field stay as they were |
| `Orders.OrderController.StartProcessing` | BulkyBookWeb/Areas/Admin/Controllers/OrderController.cs:137-140 | order status InProcess, with the payment status and all else unchanged |
| `Orders.OrderController.ShipOrder` | BulkyBookWeb/Areas/Admin/Controllers/OrderController.cs:150-160 | tracking number and carrier as submitted, status Shipped, shipping date today. The due date becomes today + 30 only for a deferred payment and is otherwise unchanged |
| `Orders.OrderController.CancelOrder` | BulkyBookWeb/Areas/Admin/Controllers/OrderController.cs:171-189 | for an Approved payment: exactly one refund request, for the order's payment intent; if granted, the statuses become Cancelled and Refunded. For any other payment status: no gateway call, and both statuses become Cancelled. A refused refund changes nothing. Keeps `Valid()`, so Refunded always comes with a granted refund |
| `Orders.ConfirmTwice` | BulkyBookWeb/Areas/Admin/Controllers/OrderController.cs:91-106 | the first confirmation looks the session up exactly when the payment is deferred. A deferred payment whose session reads "paid" is approved by exactly one lookup, with nothing else changed, and the second confirmation then makes no gateway call and changes nothing. Once a confirmation leaves the payment anything but deferred, confirming again changes nothing |
| `Cart.CountRows` | BulkyBookWeb/Areas/Customer/Controllers/HomeController.cs:62 | the user's row count is at most the table size, and is zero exactly when the user has no row |
| `Cart.CountRowsIsDistinctProducts` | BulkyBookWeb/Areas/Customer/Controllers/HomeController.cs:62 | in a table with one row per pair, the user's row count equals the number of distinct products in the user's cart |
| `Cart.NewCartEntry` | BulkyBookWeb/Areas/Customer/Controllers/HomeController.cs:28-37 | a one-copy entry for the requested product with no user yet; `Cart.NewEntryThenAdd` states what posting it does |
| `Cart.AddOrIncrement` | BulkyBookWeb/Areas/Customer/Controllers/HomeController.cs:47-59 | rows of other pairs are unchanged. Without a row for the pair, exactly one row is appended, stamped with the caller's id. With one, that row's count grows by the posted count and nothing is inserted. One row per pair is preserved |
| `Cart.AddOrIncrementCounts` | BulkyBookWeb/Areas/Customer/Controllers/HomeController.cs:52-62 | the caller's row count grows by one exactly when a row was inserted, and every other user's count is unchanged |
| `Cart.NewEntryThenAdd` | BulkyBookWeb/Areas/Customer/Controllers/HomeController.cs:28-37 | posting the GET's entry (count 1, the requested product) appends a one-copy row for a new product, and adds exactly one to an existing row |
| `Cart.AddTwiceIncrements` | BulkyBookWeb/Areas/Customer/Controllers/HomeController.cs:49-58 | adding the same product twice leaves a single row for it, whose count is the sum of both posted counts |
| `Cart.CartRepository.Add` | BulkyBookWeb/Areas/Customer/Controllers/HomeController.cs:54 | appends the one row |
| `Cart.CartRepository.IncrementCount` | BulkyBookWeb/Areas/Customer/Controllers/HomeController.cs:58 | adds the amount to that row's count and changes nothing else |
| `Cart.HomeController.AddToCart` | BulkyBookWeb/Areas/Customer/Controllers/HomeController.cs:43-62 | the table becomes the add-or-increment of the old one, one row per pair is preserved, and the session count equals the caller's new row count |
| `Sessions.Session.SetCartCount` | BulkyBookWeb/ViewComponents/ShoppingCartViewComponent.cs:28-29 | the cart-count key holds the value |
| `Sessions.Session.Clear` | BulkyBookWeb/ViewComponents/ShoppingCartViewComponent.cs:35 | the cart-count key is absent |
| `CartBadge.ShoppingCartViewComponent.InvokeAsync` | BulkyBookWeb/ViewComponents/ShoppingCartViewComponent.cs:16-37 | no user: the cache is cleared and 0 is shown. A cached count is shown unchanged and the cache is not touched. With no cached count, the user's row count is stored and shown. With any user, the cache ends up holding the shown value |
| `CartBadge.AddThenRender` | BulkyBookWeb/ViewComponents/ShoppingCartViewComponent.cs:22-30 | the table becomes the add-or-increment of the old one and keeps one row per pair. The session caches the shown value, which rendering the header for the same user sets to the number of distinct products in their cart |

## Left out

- Stripe SDK calls (`SessionService.Create/Get`, `RefundService.Create`) are the gateway oracle and its log. The success and cancel URLs, the payment method list, the mode, the refund reason and the redirect `Location` header are not modelled.
- The price-to-cents conversion `(long)(item.Price * 100)` is floating-point truncation. It is the function parameter `toMinorUnits`.
- `DateTime.Now`/`AddDays` are whole-day numbers. The source labels local time as UTC (`SpecifyKind(DateTime.Now, Utc)`); that labelling has no counterpart here. Ship reads the clock twice (OrderController.cs:154 and 157), but `ShipOrder` takes one `now` for both reads. Its contract therefore gives a due date of exactly shipping date + 30, which the source guarantees only when both reads fall on the same day.
- `IsPaid`: it models `ToLower` as ASCII case folding only. Culture-dependent lowering (for example, a Turkish dotless i) is not modelled.
- Entity Framework persistence, eager loading (`includeProperties`), tracked/untracked fetches and `Save()` are not modelled: a table is a map or a sequence, and every change is committed at once.
- The `[Authorize]` role attributes on the mutating actions, anti-forgery checks, `TempData` messages, redirects and view rendering are not modelled. The caller's roles and user id are parameters.
- GET `Details` loads the product for display only, so the entry's product navigation property is not modelled. `NewCartEntry` builds the count and the product id.
- The order controller's `Index` and GET `Details` are display only and not modelled.
- The session's integer is an `Int32`, but the model's count is unbounded.
- Cart.CartRepository.IncrementCount: does not model the 32-bit `int` count and its wrap-around, because the model's counts are unbounded integers; `AddOrIncrement` adds counts the same way, so a count past 2147483647 is not captured.
- The order actions take the posted order header as already bound. In the source `OrderViewModel` is a plain controller property without `[BindProperty]` (OrderController.cs:18), so on a POST nothing fills it and the reads of `OrderViewModel.OrderHeader` at lines 45, 113, 139, 150 and 171 would dereference null. The intended, bound behaviour is what the model captures; the null dereference is not modelled.
- Other session keys besides the cart count are not modelled; `Clear()` removes only that one.
- `InvokeAsync`'s task, and simultaneous requests on one order or one cart (where the last writer wins), are not modelled.
- `EmailSender` (SMTP I/O), the data annotations on `Product` and the product view model are not modelled.
