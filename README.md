# Store order creation, modelled in Dafny

This project models the "create an order" use case of a small store backend.
The use case has four layers:

1. **Order items.** An order item records what is wrong with its inputs as notifications in its own ledger. It is built even when invalid. It copies the product's price and computes price × quantity.
2. **The order aggregate.** An order has an 8-character number, a customer, a delivery fee, an optional discount, its items, a status and a ledger.
3. **The create-order command.** Its `Validate` appends two string-length rules to the command's ledger.
4. **The order handler.** The handler:
   - validates the command and fails fast;
   - looks up the customer, fee, discount and products;
   - builds the order with one `AddItem` per requested line;
   - merges the order's ledger into its own;
   - saves the order only when that merged ledger is empty.

The handler's ledger lives as long as the handler and is never cleared.

The notification mix-in is modelled as an explicit ledger, a `seq<Notification>` field. Validity means that ledger is empty. Each contract check is a function that yields zero or one notification. A contract is the concatenation of its checks, so every check runs and failures keep their order.

Decisions and correspondences:

- **Money and time.** Money (C# `decimal`) is `real`, so fractional prices, fees and discounts are exact. Item totals multiply the price by the quantity converted to `real`. Time is an `int`, and the current instant `now` is a parameter.
- **String length.** A C# string's `Length` counts UTF-16 code units. `Notifications.Utf16Length` counts one per character of the Basic Multilingual Plane and two per other character. The two command rules use that length, not the number of Dafny characters.
- **Null.** A null reference is `Option.None`.
- **Entities that change in place.** Order items, orders, commands, the handler and the order repository are classes. Their fields change in place, as in the source.
- **Lookups.** The repository lookups are functions given to the handler's constructor. The order repository is the log of saved orders.
- **Tests as clients.** `Scenarios.dfy` rebuilds the objects of every order, command and handler test and proves the outcome the code gives. It also adds two handler situations the tests do not reach: an unknown customer whose notification blocks every later save, and a saved order.

Some behaviour follows the code rather than the test names:

- The command accepts a customer string only if it is longer than 11 characters. It accepts a zip code only if it is shorter than 8 characters.
- So the 11-character document and the 8-character zip code in the handler test called "valid command, order generated" fail validation. That test passes only because `Handle` returns before touching the handler's own ledger (`Scenarios.HandlerLedgerUntouchedByInvalidCommand`).
- The order item's quantity rule is "at least 0", although its message says "greater than zero".
- The order's `AddItem` rejects a quantity of 0.

The source of the order aggregate (`Order.cs`) is not part of this model. The order is modelled from what `Store.Tests/Entities/OrderTests.cs` asserts.

## Model

| member | source | states |
|---|---|---|
| `Notifications.IsNotNull` | Store.Domain/Entities/OrderItem.cs:12 | No notification when the value is present; exactly one, with the given key and message, when it is absent |
| `Notifications.IsGreaterOrEqualsThan` | Store.Domain/Entities/OrderItem.cs:13 | No notification iff value ≥ comparer; otherwise exactly one with the given key and message |
| `Notifications.IsGreaterThan` | Store.Domain/Commands/CreateOrderCommand.cs:31 | On a string: no notification iff its UTF-16 length is > comparer; otherwise exactly one |
| `Notifications.IsLowerThan` | Store.Domain/Commands/CreateOrderCommand.cs:32 | On a string: no notification iff its UTF-16 length is < comparer; otherwise exactly one |
| `Notifications.Utf16Length` | Store.Domain/Commands/CreateOrderCommand.cs:31-32 | The C# length of a string lies between its number of characters and twice that number |
| `Notifications.Utf16LengthOfBmp` | Store.Domain/Commands/CreateOrderCommand.cs:31-32 | For text of Basic Multilingual Plane characters only (such as the digits of a document or zip code), the C# length is the number of characters |
| `Notifications.Utf16LengthOfAstral` | Store.Domain/Commands/CreateOrderCommand.cs:31-32 | A single character outside the Basic Multilingual Plane has C# length 2 |
| `Notifications.IsValid` | Store.Domain/Handlers/OrderHandler.cs:62 | A ledger is valid iff no notification is in it |
| `Notifications.MergeKeepsInvalid` | Store.Domain/Handlers/OrderHandler.cs:59 | Merging only appends. The merged ledger is valid iff both parts are, and it starts with the original ledger |
| `Entities.DiscountValue` | Store.Tests/Entities/OrderTests.cs:87-108 | A discount reduces by its amount only while now < expiry. An expired or absent discount reduces by 0 |
| `OrderItems.ItemChecks` | Store.Domain/Entities/OrderItem.cs:9-14 | Empty iff the product is present and quantity ≥ 0 (so 0 is accepted). "Product" appears iff the product is missing. "Quantity" appears iff quantity < 0. Both failures give [Product, Quantity] in that order |
| `OrderItems.Captured` | Store.Domain/Entities/OrderItem.cs:16-18 | Product and quantity are kept as passed. The price is the product's price when a product is present and 0 otherwise |
| `OrderItems.CapturedAmount` | Store.Domain/Entities/OrderItem.cs:16-28 | A fresh item's total is the product price × quantity; it is 0 for a missing product or quantity 0 |
| `OrderItems.OrderItem.Total` | Store.Domain/Entities/OrderItem.cs:25-28 | The total is the current price × the current quantity, and 0 at quantity 0 |
| `OrderItems.OrderItem.IsValid` | Store.Domain/Entities/OrderItem.cs:9-14 | The item is valid iff its ledger is empty |
| `OrderItems.OrderItem.constructor` | Store.Domain/Entities/OrderItem.cs:7-19 | Always builds the item. Its ledger is the item checks, and its fields are the captured line |
| `OrderItems.OrderItem.SetPrice` | Store.Domain/Entities/OrderItem.cs:22-28 | After a price update, Total() is the new price × current quantity (nothing cached) |
| `OrderItems.OrderItem.SetQuantity` | Store.Domain/Entities/OrderItem.cs:23-28 | After a quantity update, Total() is the current price × new quantity |
| `Orders.OrderChecks` | Store.Tests/Entities/OrderTests.cs:132-138 | The order's ledger is empty iff a customer is present. Otherwise it holds one customer notification |
| `Orders.Added` | Store.Tests/Entities/OrderTests.cs:54-74 | AddItem adds no line for a missing product or quantity ≤ 0. Otherwise it adds exactly the captured line, which is a valid item |
| `Orders.Subtotal` | Store.Tests/Entities/OrderTests.cs:76-85 | The sum of line amounts: 0 for no line, the line's amount for one line, and never negative when no line amount is negative |
| `Orders.OrderTotal` | Store.Tests/Entities/OrderTests.cs:87-130 | Subtotal plus fee, minus the discount amount only when the discount is present and unexpired at now |
| `Orders.Order.IsValid` | Store.Tests/Entities/OrderTests.cs:132-138 | The order is valid iff its ledger is empty |
| `Orders.SubtotalAppend` | Store.Tests/Entities/OrderTests.cs:76-85 | The subtotal is additive over concatenated line sequences |
| `Orders.OrderTotalAddLine` | Store.Tests/Entities/OrderTests.cs:80-84 | Adding a line raises the order total by exactly that line's price × quantity |
| `Orders.OrderTotalAdded` | Store.Tests/Entities/OrderTests.cs:54-85 | A rejected AddItem leaves the total unchanged. An accepted one adds product price × quantity |
| `Orders.DiscountEffect` | Store.Tests/Entities/OrderTests.cs:87-108 | An unexpired discount lowers the total by its amount. An expired discount gives the same total as no discount |
| `Orders.Order.constructor` | Store.Tests/Entities/OrderTests.cs:14-29 | A new order has the given 8-character number, status WaitingPayment, no items, and the given customer, fee and discount. It is valid iff the customer is present |
| `Orders.Order.Total` | Store.Tests/Entities/OrderTests.cs:76-130 | Total is the sum of line totals plus the fee, minus the discount amount only when the discount is present and unexpired at now |
| `Orders.Order.AddItem` | Store.Tests/Entities/OrderTests.cs:54-74 | Items are unchanged for a missing product or quantity ≤ 0. Otherwise exactly one fresh item is appended, whose line is the captured line |
| `Orders.Order.Pay` | Store.Tests/Entities/OrderTests.cs:31-41 | Paying a WaitingPayment order its total moves it to WaitingDelivery |
| `Orders.Order.Cancel` | Store.Tests/Entities/OrderTests.cs:43-52 | Cancelling a new order sets status Canceled |
| `Commands.CommandChecks` | Store.Domain/Commands/CreateOrderCommand.cs:27-34 | With lengths in UTF-16 units: empty iff length(customer) > 11 and length(zip) < 8. "Customer" appears iff length(customer) ≤ 11. "ZipCode" appears iff length(zip) ≥ 8. Each single failure gives exactly its one notification; with both failures, Customer comes first |
| `Commands.ValidateTwice` | Store.Domain/Handlers/OrderHandler.cs:36 | A command validated by its caller and again by the handler: the second round keeps the first round's ledger as a prefix, and the command is valid after it iff it was after the first, iff the original ledger was empty and both rules hold |
| `Commands.CreateOrderCommand.IsValid` | Store.Domain/Handlers/OrderHandler.cs:37 | The command is valid iff its ledger is empty |
| `Commands.CreateOrderCommand.Empty` | Store.Domain/Commands/CreateOrderCommand.cs:14-17 | The no-argument constructor gives no requested lines and an empty ledger |
| `Commands.CreateOrderCommand.constructor` | Store.Domain/Commands/CreateOrderCommand.cs:19-25 | The four-argument constructor stores its arguments unchanged, with an empty ledger |
| `Commands.CreateOrderCommand.Validate` | Store.Domain/Commands/CreateOrderCommand.cs:27-34 | Only appends the two rules' failures. It leaves customer, zip, promo code and items alone. The command is valid afterwards iff it was valid before and both length rules hold |
| `Handlers.FirstMatch` | Store.Domain/Handlers/OrderHandler.cs:54 | A found product has the requested identifier |
| `Handlers.FirstMatchFound` | Store.Domain/Handlers/OrderHandler.cs:54 | A found product is one of the fetched products, and every fetched product before it has a different identifier |
| `Handlers.FirstMatchMissing` | Store.Domain/Handlers/OrderHandler.cs:54 | The lookup gives null iff no fetched product has the identifier |
| `Handlers.FirstMatchIsFirst` | Store.Domain/Handlers/OrderHandler.cs:54 | With several fetched products of that identifier, the lookup returns the first |
| `Handlers.ProductIds` | Store.Domain/Handlers/OrderHandler.cs:50 | The product lookup gets one identifier per requested line, in request order |
| `Handlers.PlacedLines` | Store.Domain/Handlers/OrderHandler.cs:52-56 | The order never gets more lines than were requested |
| `Handlers.PlacedStep` | Store.Domain/Handlers/OrderHandler.cs:52-56 | Each request in turn extends the lines by what AddItem adds for its first matching product and its own quantity |
| `Handlers.PlacedLinesAccepted` | Store.Domain/Handlers/OrderHandler.cs:52-56 | Every line placed in the order has a fetched product, a positive quantity and that product's price |
| `Handlers.PlacedAll` | Store.Domain/Handlers/OrderHandler.cs:52-56 | When every request names a fetched product with a positive quantity, line i is request i's product at its price and the request's quantity |
| `Handlers.PlacedSkips` | Store.Domain/Handlers/OrderHandler.cs:52-56 | A request whose product was not fetched, or whose quantity is ≤ 0, adds no line |
| `Handlers.CreatedMessage` | Store.Domain/Handlers/OrderHandler.cs:67 | The success message is "Pedido ", the order's number and " gerado com sucesso", in that order |
| `Handlers.OrderHandler.IsValid` | Store.Domain/Handlers/OrderHandler.cs:62 | The handler is valid iff its ledger is empty |
| `Handlers.OrderRepository.Save` | Store.Domain/Handlers/OrderHandler.cs:66 | Saving appends exactly that order to the log |
| `Handlers.OrderHandler.constructor` | Store.Domain/Handlers/OrderHandler.cs:19-31 | Stores the five collaborators. The handler's ledger starts empty |
| `Handlers.PlaceOrder` | Store.Domain/Handlers/OrderHandler.cs:51-56 | The new order keeps the given customer, fee, discount and number and waits for payment. Its ledger holds only the missing-customer check. Its lines are those AddItem keeps, called once per request in order with the request's first matching product |
| `Handlers.OrderHandler.BuildOrder` | Store.Domain/Handlers/OrderHandler.cs:40-56 | The new order uses the customer looked up by the command's customer, the fee by its zip and the discount by its promo code. Its lines are those AddItem keeps, called once per request in order |
| `Handlers.OrderHandler.Handle` | Store.Domain/Handlers/OrderHandler.cs:33-68 | See the list below |

`Handlers.OrderHandler.Handle` states:

- The command is validated once more, by appending.
- An invalid command gives ("Pedido inválido", the command's notifications). The handler's ledger and the saved orders are then unchanged.
- Otherwise the order is built as in BuildOrder, and its notifications are appended to the handler's ledger.
- A non-empty merged ledger gives ("Falha ao gerar pedido", the ledger) and saves nothing.
- An empty merged ledger saves the order exactly once and gives success with "Pedido <number> gerado com sucesso".
- The ledger only grows. Once it is non-empty, no later call saves.

## Left out

- `Order.cs` is not part of this model. The order's behaviour is taken from the assertions in its tests. As a result:
  - There is no Delivered state and no Deliver operation.
  - The model has nothing about Pay or Cancel from other states.
  - The model has nothing about whether a rejected AddItem records a notification. The model's AddItem changes nothing when it rejects, so the order's ledger holds only the customer check.
  - A total is not clamped at zero.
- `Orders.Order.Pay`: it requires WaitingPayment and an amount equal to the total, the only case the tests exercise. Whether the amount matters, and what Pay does elsewhere, are not visible.
- `Orders.Order.Cancel`: it requires WaitingPayment, the only state the tests cancel from.
- `Orders.OrderChecks`: the field name and message of the missing-customer notification are not visible. "Customer" / "Cliente inválido" stand in for them. Only their presence is evidenced.
- `Orders.Order.constructor`: the number is derived from a random Guid. It is a parameter of exactly 8 characters.
- `Entities.DiscountValue`: the clock (DateTime.Now) is the parameter `now`. A discount counts strictly before its expiry instant; the instant itself is not evidenced.
- Several collaborators are not part of this model. They are replaced as follows:
  - The repositories and their fake fixtures become lookup functions.
  - `Save` becomes an append to a log.
  - `ExtractGuids.Extract` becomes `ProductIds`: request order, duplicates kept.
  - `CreateOrderItemCommand` becomes a (product id, quantity) value.
  - `GenericCommandResult` becomes a (success, message, payload) value.
- The internals of the Flunt `Notifiable` and `Contract` types are not modelled beyond appending to a ledger and the four checks used.
- `Commands.CreateOrderCommand.Empty`: the C# no-argument constructor leaves the three strings null. The model starts them as empty strings, because the checks' handling of null is not visible.
- The command's `Items` is a mutable list shared by reference in C#. The model holds it as a sequence value, so aliasing of that list is not captured.
- `Handlers.OrderHandler.Handle`: the order built on the way is returned as a ghost out-parameter, so that its contract can describe it. The source only returns the result envelope.
- `decimal` precision, rounding and overflow are not modelled: amounts are exact, unbounded reals. Nullable-reference annotations are not modelled either.
