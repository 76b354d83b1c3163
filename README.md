# paymentApi storefront core in Dafny

This project models the core of a small storefront backend. A shopper keeps
a cart in their session. At checkout every cart line is checked against the
product inventory. A line that passes is written to an order ledger and
taken off the stock. Payment runs the checkout only when the card number
and the expiry date both pass their checks.

The model has one module per part of the code:

- `Catalog`: the `product` table and the three read-only queries on it
  (`allProducts`, `oneProduct`, `verifyProductStock`). Each is shown to
  answer exactly its SQL query. The table is a map keyed by product id.
- `Store`: the two writes. `productStock` decrements an inventory with an
  unguarded read-then-write. `newOrder` appends one ledger row verbatim.
  They are methods of a `Database` class whose fields are the two tables.
  Each method's new state is stated through a specification function
  (`StockDecremented`) or by an explicit append.
- `Shopping`: the session cart as a `Session` class holding
  `Option<seq<Article>>`, absent until first written. It has the four cart
  operations `getCart`, `addToCart`, `updateArticleQuantity` and
  `deleteArticle`. Replies are a `Reply` datatype carrying the source's
  own message strings and HTTP statuses.
- `Checkout`: `createOrder` as a loop over the cart that calls the two
  `Database` methods. The loop is proved against `Run`, a specification
  function that processes the lines in order. Lemmas about `Run` give
  exact ledger and inventory bookkeeping, one error per rejected line and
  non-negative stock. They also relate checkout to `getCart` when the cart
  holds one line per product.
- `CardNumber` and `CardExpiration`: the two payment validators, as pure
  functions. The current year and month are parameters.
- `Payment`: `payment.verify`, which evaluates both validators and runs the
  checkout only when both pass.
- `Wrappers`: `Option` and `Result`.

Prices and totals are integers (whole cents). An error object of a reply is
a datatype value (`CartError`, `OrderError`); its `Text()` gives the
source's string.

## Model

| member | source | states |
|---|---|---|
| Catalog.AllProducts | dataMapers/fetchInDataBase.js:23-33 | The rows returned are exactly the rows of the table: a product is returned iff its id is a key and the stored row is that product. |
| Catalog.OneProductAnswersQuery | dataMapers/fetchInDataBase.js:42-53 | `oneProduct` returns nothing iff the query by id has no row. Otherwise the query returns exactly one row, the product returned, and that row carries the requested id. |
| Catalog.VerifyProductStockAnswersQuery | dataMapers/fetchInDataBase.js:63-80 | `verifyProductStock` is true iff the query `id = $1 AND inventory >= $2` returns at least one row. |
| Catalog.StockCheckMonotone | dataMapers/fetchInDataBase.js:65-70 | A stock check that passes for a quantity passes for every smaller quantity. |
| Catalog.UnknownProductNotInStock | dataMapers/fetchInDataBase.js:68-75 | An unknown product id is answered `false`, not an error, whatever the quantity. |
| Store.SetInventory | src/dataMapers/updateInDataBase.js:45-52 | The `UPDATE ... WHERE id = $2` keeps the set of products. It changes only the inventory of the row with that id and leaves every other row as it was. |
| Store.StockDecremented | src/dataMapers/updateInDataBase.js:24-59 | For an existing product, the new inventory is exactly the old one minus the quantity, and its other fields are kept. Every other product is unchanged, and no product is added or removed. |
| Store.DecrementAbsentIsNoOp | src/dataMapers/updateInDataBase.js:36-53 | Decrementing an absent product leaves the table unchanged. |
| Store.DecrementCanGoNegative | src/dataMapers/updateInDataBase.js:41-50 | The decrement is unguarded: a quantity above the stock leaves a negative inventory. |
| Store.DecrementTwice | src/dataMapers/updateInDataBase.js:42-52 | Decrementing by `a` and then by `b` gives the same table as one decrement by `a + b`. |
| Store.Database.ProductStock | src/dataMapers/updateInDataBase.js:24-59 | The product table becomes `StockDecremented` of the old one; the order ledger is unchanged. |
| Store.Database.NewOrder | src/dataMapers/createInDataBase.js:25-47 | Exactly one row with the five given values, stored verbatim, is appended to the ledger. The ledger grows by one, the earlier rows are untouched and the product table is unchanged. |
| Shopping.FirstIndex | controllers/shopping.js:142 | `findIndex` by id: the result is -1 iff no line has the id. Otherwise it is an index of a line with that id, and no earlier line has it. |
| Shopping.Revalidate | controllers/shopping.js:60-83 | Every line of the cart yields either one kept line or one error. Every kept line passes its stock check. |
| Shopping.RevalidateKeepsAvailable | controllers/shopping.js:60-80 | The kept lines are exactly the cart's lines whose check passes, each with all its occurrences. Nothing outside the cart is kept, so the kept lines are a sub-multiset of the cart. |
| Shopping.RevalidateAppend | controllers/shopping.js:60-80 | Lines are handled one at a time, in cart order. On a concatenated cart, both the kept lines and the errors are the concatenation of the two halves' results. |
| Shopping.RevalidateOne | controllers/shopping.js:63-71 | A single line is kept if its check passes. Otherwise it becomes exactly one `Unavailable` error naming the article. |
| Shopping.Session.GetCart | controllers/shopping.js:47-89 | An absent or empty cart gives an empty cart and the single error "Le panier est vide". Otherwise the reply is the revalidation of the stored cart. The function only reads the session, so dropped lines stay stored. |
| Shopping.Session.AddToCart | controllers/shopping.js:118-162 | An absent cart becomes `[]` before the check, and only the requested quantity is checked. If the check fails, the cart is kept and the reply is "Le produit n'est plus disponible ...". If it passes and the id is present, the first matching line gains the quantity; its `totalPrice`, the length and the other lines are unchanged. Otherwise one line with `totalPrice = price * quantity` is appended. At most one line per id is preserved. |
| Shopping.Session.UpdateArticleQuantity | controllers/shopping.js:188-220 | The stock check comes before the lookup, so too little stock gives 400 with the cart unchanged, even for a missing id. An id not in the cart gives 404 with the cart unchanged. Otherwise the first matching line's quantity is set to the new absolute value; everything else is kept. At most one line per id is preserved. |
| Shopping.Session.DeleteArticle | controllers/shopping.js:244-268 | An absent cart gives 500 "Erreur lors de la suppression ...". A missing id gives 404 with the cart unchanged. Otherwise the first line with the id is spliced out, the others keep their order and the length drops by one. At most one line per id is preserved. |
| Checkout.Step | middlewares/createOrders.js:24-33 | A passing line appends exactly its row `(sessionId, id, price, quantity, totalPrice)` and lowers only its product's inventory by the quantity, which stays non-negative. A failing line only appends one `OutOfStock` error naming the article: no row and no inventory change. |
| Checkout.Run | middlewares/createOrders.js:23-34 | Processing the lines in order never adds or removes a product. |
| Checkout.RunPartition | middlewares/createOrders.js:23-34 | A failing line does not stop the others: every line is either committed or rejected, as multisets. |
| Checkout.RunOrders | middlewares/createOrders.js:26-30 | The ledger after checkout is the old ledger plus one row per committed line, in cart order. |
| Checkout.RunErrors | middlewares/createOrders.js:31-37 | The returned errors are one `OutOfStock` error per rejected line, in cart order. |
| Checkout.RunCounts | middlewares/createOrders.js:23-37 | The ledger grows by the number of committed lines and the error list has one entry per rejected line. Together these account for every line. |
| Checkout.StepConservesStock | middlewares/createOrders.js:26-30 | For every product, one line keeps the inventory plus the units recorded in the ledger unchanged. |
| Checkout.RunConservesStock | middlewares/createOrders.js:23-34 | Inventory plus units in the ledger is the same before and after a whole checkout, for every product. |
| Checkout.RunStock | middlewares/createOrders.js:23-34 | After checkout, each product's inventory is its initial inventory minus the quantities of its committed lines. |
| Checkout.RunKeepsStockNonNegative | middlewares/createOrders.js:24-30 | Under sequential processing, an inventory that starts non-negative never becomes negative, because each decrement follows a passing check. |
| Checkout.RunLeavesOthers | middlewares/createOrders.js:23-34 | A product that no line names is left exactly as it was. |
| Checkout.LastPassesOnInitialStock | middlewares/createOrders.js:24-30 | With one line per product, each line meets its product's inventory as it was before checkout. |
| Checkout.UniqueCartChecksInitialStock | middlewares/createOrders.js:23-34 | With one line per product, the committed lines are exactly those `getCart` keeps, and there is one error per line it drops. |
| Checkout.ProcessLine | middlewares/createOrders.js:24-33 | One loop body, writing the ledger row before decrementing: the two tables and the error list become `Step` of their old values. |
| Checkout.CreateOrder | middlewares/createOrders.js:14-42 | An absent cart fails with "Erreur lors de la création de la commande" and writes nothing. Otherwise the returned errors, the ledger and the inventory are those of `Run` from the old tables. An empty cart thus returns no errors and writes nothing. The session is never changed. |
| CardNumber.Cleaned | src/middlewares/checkCardNumber.js:13 | Removing separators never lengthens the string, and the result contains no whitespace and no `-`. |
| CardNumber.CleanedNoSeparators | src/middlewares/checkCardNumber.js:13 | A string without separators is left as it is. |
| CardNumber.CleanedAppend | src/middlewares/checkCardNumber.js:13 | Separators are removed character by character: cleaning a concatenation is concatenating the cleaned halves. |
| CardNumber.CheckCardNumber | src/middlewares/checkCardNumber.js:11-26 | Accepted iff the cleaned number is 16 ASCII digits starting with `4`, or with `5` followed by `1`-`5`. |
| CardNumber.SeparatorIgnored | src/middlewares/checkCardNumber.js:13-21 | Inserting whitespace or `-` anywhere never changes the verdict. |
| CardNumber.VisaAccepted | src/middlewares/checkCardNumber.js:16-18 | Every `4` followed by fifteen digits is accepted. |
| CardNumber.MasterCardAccepted | src/middlewares/checkCardNumber.js:19-21 | Every `5`, then a digit from 1 to 5, then fourteen digits is accepted. |
| CardNumber.OnlyPrefixAndLengthMatter | src/middlewares/checkCardNumber.js:11-26 | No checksum: two numbers that clean to 16 digits with the same first two digits get the same verdict. |
| CardNumber.WrongFirstDigitRejected | src/middlewares/checkCardNumber.js:16-25 | A number whose first character is not a separator and is neither `4` nor `5` is rejected. |
| CardNumber.DocumentedExampleRejected | src/middlewares/checkCardNumber.js:8-25 | The documented example `'1234-5678-9012-3456'` is rejected, although the comment says it is accepted. |
| CardExpiration.CheckCardExpirationDate | src/middlewares/checkCardExpirationDate.js:11-27 | Accepted iff the first component (used as the year) is after the current year, or equals it with the second component at least the current month. |
| CardExpiration.CurrentMonthAccepted | src/middlewares/checkCardExpirationDate.js:20-25 | An expiry equal to the current year and month is accepted. |
| CardExpiration.LaterYearAnyMonth | src/middlewares/checkCardExpirationDate.js:17-25 | Any later year is accepted whatever the month; the month is not range-checked. |
| CardExpiration.AcceptanceMonotone | src/middlewares/checkCardExpirationDate.js:20-25 | If `(y, m)` is accepted, every later `(y', m')` in year-then-month order is accepted. |
| CardExpiration.DocumentedExampleRejected | src/middlewares/checkCardExpirationDate.js:8-22 | The documented example `'12/23'` is read as year 12, month 23, and is rejected in any year after 12. |
| Payment.Verify | src/controllers/payment.js:30-43 | Both validators are evaluated, and the checkout runs iff both pass. Otherwise, or when the cart is absent, the ledger and inventory are unchanged. When it runs, they become those of `Run`. The session is never changed and the checkout's errors are dropped. |

## Left out

- The `Promise.all` fan-out in `createOrder` and `getCart` is modelled as a sequential loop in cart order. Interleavings are not modelled. These include the race between the stock check and the decrement, and the nondeterministic order of pushed errors. The non-negativity of stock is proved for sequential execution only.
- Database and connection failures, with their `try`/`catch` paths, are not modelled: the 500 replies and the rethrown errors. The exceptions are the paths that the code's own data makes reachable: an absent cart in `deleteArticle` (500) and in `createOrder` (the rethrown generic error).
- `payment.verify` does not await `createOrder`. The rejection that follows from an absent cart, and the missing response, are not modelled. `Payment.Verify` returns a ghost flag saying whether the checkout ran; the code returns nothing.
- Payment.Verify: states only the tables and the session. Whatever `createOrder` returns is dropped, as in the code.
- JSON marshalling and the Express `req`/`res` objects are not modelled. Replies are `Reply`, `CartView`, `CartError` and `OrderError` values; their `Text()` and the message constants carry the literal strings.
- Floating-point prices are not modelled. Prices and totals are integers (whole cents), so `price * quantity` is exact.
- The clock (`new Date()`) is not modelled: the current year and month are parameters. The `split('/')` and `Number()` parsing, and its `NaN` behaviour on malformed input, are not modelled either: the expiry date arrives as two integers.
- JavaScript strings are UTF-16. The model works on Unicode scalar values, and its `\s` set lists the Unicode white-space code points that JavaScript's `\s` matches.
- Ids are integers, and `===` is integer equality. Mismatched JSON types (a string id against a numeric one) are not modelled.
- `getCart` and the other cart operations are modelled on the stored lines. JavaScript object aliasing is not modelled: `addToCart` and `updateArticleQuantity` mutate a stored article object that `getCart` may also have returned. The model replaces that line in the session's sequence.
- `src/controllers/products.js`, `src/data/client.js`, `index.js` and `router.js` are not part of this model: they hold a pass-through to the reads, the database connection, and the server and route setup.

## Code and documentation

Where the design description and the code disagree, the model follows the code:

- The inventory decrement is a read followed by an unguarded write, not an atomic conditional update. An absent product is a silent no-op, not `NotFound`. The checkout writes the ledger row before it decrements.
- `getCart` does not remove the dropped lines from the stored cart.
- The empty-cart error is the French "Le panier est vide".
- The `TotalpricePerUnit` ledger column receives the line's `totalPrice` verbatim. After a merge in `addToCart` or a change in `updateArticleQuantity`, that value is no longer `price * quantity`, because neither operation updates it.
- The doc comment of `checkCardNumber` claims `'1234-5678-9012-3456'` is accepted; the code rejects it (`CardNumber.DocumentedExampleRejected`).
- The doc comment of `checkCardExpirationDate` documents the format `MM/YY` and `'12/23'` as accepted. The code takes the first component as the year, so that example is rejected today (`CardExpiration.DocumentedExampleRejected`).
