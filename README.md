# Bookstore domain layer in Dafny

This project models `models.py` of a small in-memory online bookstore: catalogue books, the
shopping cart and its lines, user accounts with a password digest, a session flag and an order
history, orders and their summary, and the card-number rule of the mock payment gateway.

Layout, one module per file:

- `results.dfy` (`Results`): `Result`/`Option` and the `ValueError` the code raises.
- `books.dfy` (`Books`): `Book` and its construction check.
- `cart_spec.dfy` (`CartSpec`): the cart as a value (a dictionary from title to line plus the
  order its keys were inserted in, as a Python dict keeps it); one function per cart operation;
  the totals; and the lemmas about how each operation moves them.
- `carts.dfy` (`Carts`): the mutable objects. `CartItem` is a class because the cart changes an
  item's quantity in place and the same item objects are handed out by `get_items`. `Cart` holds
  `items: map<string, CartItem>` and `titles: seq<string>`. Each method is proved to move the
  value `State()` exactly as the matching `CartSpec` function does.
- `emails.dfy` (`Emails`): the regular expression `[^@]+@[^@]+\.[^@]+` under `re.match`,
  defined by its meaning (`MatchesPattern`) and decided by `IsValidEmail`, proved equal; and
  `str.lower`.
- `orders.dfy` (`Orders`): `Order`, `to_dict`, and the item-list copy (see Findings).
- `order_history.dfy` (`OrderHistory`): the stable sort by order date used by `add_order`.
- `users.dfy` (`Users`): the `User` class.
- `payments.dfy` (`Payments`): the decision of `PaymentGateway.process_payment`.
- `scenarios.dfy` (`Scenarios`): the repository's unit, integration and profiling test scenarios
  replayed against the contracts.

Prices and amounts are integers in cents. The clock reading of `Order.__init__`, the random
transaction id of the gateway and the SHA-256 function are parameters.

Where the design notes or tests of the repository and the code differ, the model follows the code:

- `update_quantity(title, q)` with `q <= 0` deletes the line (models.py:104-105). One
  integration test expects the line to stay.
- `verify_password` compares digests (models.py:30-31). It accepts every candidate whose digest
  equals that of the original password, not only the original password itself.
- `Order` takes its `order_id` from the caller (models.py:130-132). It does not generate one.
- `add_book` on a title already present keeps the book first stored under it (models.py:93-94).
  The price of a later, different book with the same title is ignored.
- The session test (tests/unit/test_security.py:60-71) calls `login()` without a password and reads `is_logged_in`. models.py:36-43 needs the password and names the flag `logged_in`; `Scenarios.SessionFlow` follows models.py.

## Model

| member | source | states |
|---|---|---|
| Books.NewBook | models.py:59-66 | construction fails with `ValueError` exactly when the price is negative; otherwise title, category, price and image are kept unchanged and the price invariant holds |
| CartSpec.AddBook | models.py:90-96 | a present title keeps its stored book and gains the quantity; an absent title gets the line `(book, quantity)`; no other title changes; the cart stays well formed |
| CartSpec.RemoveBook | models.py:98-100 | exactly the given title disappears, every other line is kept, and an absent title leaves the cart unchanged |
| CartSpec.UpdateQuantity | models.py:102-107 | absent title: no change; quantity of zero or less: the title is removed; positive quantity: that line's quantity is replaced and its book kept; all other lines untouched |
| CartSpec.Items | models.py:118-119 | the lines in the order their titles were inserted: one per title, the i-th being the line filed under the i-th title |
| CartSpec.TotalItems | models.py:112-113 | the sum of the lines' quantities, never negative while no line holds a negative quantity |
| CartSpec.TotalPrice | models.py:109-110 | the sum of price times quantity over the lines, never negative while every line holds a book of non-negative price in a non-negative quantity |
| CartSpec.AddBookTotals | models.py:90-113 | `add_book(b, q)` raises the item count by `q` and the total price by `q` times the price of the book stored under `b.title` |
| CartSpec.RemoveBookTotals | models.py:98-113 | removing a present line lowers the item count by its quantity and the price by its subtotal; removing an absent title changes neither |
| CartSpec.UpdateQuantityTotals | models.py:102-113 | a positive update replaces the line's quantity and subtotal in the totals; a non-positive one takes the whole line out of them |
| CartSpec.ClearTotals | models.py:109-122 | the emptied cart is well formed, has no lines, and both totals are zero |
| CartSpec.TotalsIgnoreInsertionOrder | models.py:109-113 | both totals depend only on the dictionary's contents, not on the order its keys were inserted in |
| CartSpec.PositiveLinesPreserved | models.py:90-116 | a cart whose lines all have positive quantities of validly priced books stays so under `add_book` with a positive quantity, `remove_book`, `update_quantity` with any quantity, and `clear` |
| CartSpec.PositiveTotals | models.py:109-122 | in such a cart the item count is at least the number of lines, the price is not negative, and the item count is zero exactly when the cart is empty |
| CartSpec.AddAllTotals | models.py:90-113 | after successive `add_book` calls the item count has grown by the sum of the quantities, and, when books sharing a title are the same book, the price by the sum of price times quantity |
| Carts.CartItem.GetTotalPrice | models.py:77-78 | the line total is the book's price times the quantity, the same subtotal the cart sums, and is not negative for a valid book and a non-negative quantity |
| Carts.CartItem.constructor | models.py:72-74 | the item holds the given book and quantity, one by default |
| Carts.Cart.constructor | models.py:87-88 | a new cart is empty |
| Carts.Cart.AddBook | models.py:90-96 | the cart's new value is `CartSpec.AddBook` of the old one; a present title's item is changed in place (same objects in the dictionary); a new title gets a fresh item and every other title keeps its item object |
| Carts.Cart.RaiseQuantity | models.py:93-94 | on a title already filed, the same item object gets the added quantity; the dictionary and the key order stay as they were |
| Carts.Cart.FileNewItem | models.py:95-96 | on a new title, a fresh item holding the book and quantity is filed under it and the title goes last in the key order |
| Carts.Cart.RemoveBook | models.py:98-100 | the cart's new value is `CartSpec.RemoveBook` of the old one; an absent title leaves the dictionary as it was |
| Carts.Cart.UpdateQuantity | models.py:102-107 | the cart's new value is `CartSpec.UpdateQuantity` of the old one; a positive quantity is written into the existing item in place |
| Carts.Cart.Clear | models.py:115-116 | the cart is left empty with both totals zero and `is_empty` true |
| Carts.Cart.GetTotalPrice | models.py:109-110 | the cart's price is `CartSpec.TotalPrice` of its value, and is not negative while every item holds a validly priced book in a non-negative quantity |
| Carts.Cart.GetTotalItems | models.py:112-113 | the cart's item count is `CartSpec.TotalItems` of its value, and is not negative while no item holds a negative quantity |
| Carts.Cart.GetItems | models.py:118-119 | returns the cart's item objects in insertion order, whose values are the cart's lines |
| Carts.Cart.IsEmpty | models.py:121-122 | true exactly when the dictionary has no entries, and then both totals are zero |
| Emails.IsValidEmail | models.py:14 | decides the pattern `[^@]+@[^@]+\.[^@]+` anchored at the start only: true exactly when some prefix of the address matches it |
| Emails.NormalizeEmail | models.py:14-16 | fails with `ValueError("Invalid email format")` exactly when the pattern does not match; otherwise gives the lower-cased address, which still matches and is its own lower-case form |
| Emails.Lower | models.py:16 | the lower-cased address has the same length, and each character is the original one with `A`-`Z` mapped to `a`-`z` |
| Emails.LowerKeepsPattern | models.py:14-16 | lower-casing a matching address gives a matching address |
| Emails.LowerIdempotent | models.py:16 | lower-casing a lower-cased address changes nothing |
| Emails.LowerIgnoresCase | models.py:16 | two addresses are stored as the same address exactly when they have the same length and differ at each position at most by the case of an ASCII letter |
| Emails.NoAtRejected | models.py:14-15 | an address without `@` is rejected |
| Emails.NothingAfterAtRejected | models.py:14-15 | an address whose only `@` is its last character is rejected |
| Emails.MatchIgnoresSuffix | models.py:14 | anything appended to a matching address still matches, since `re.match` anchors only at the start |
| Users.User.Create | models.py:12-25 | raises `ValueError` exactly when the e-mail does not match; otherwise a fresh account with the lower-cased e-mail, the given name and address (empty by default), no orders, logged out, built with the given digest function and storing the digest of the password, which therefore verifies |
| Users.User.constructor | models.py:12-25 | stores the lower-cased e-mail, the digest of the password (never the password), name and address (empty by default); empty history; logged out |
| Users.User.VerifyPassword | models.py:30-31 | accepts exactly the candidates whose digest equals that of the construction password, and so that password itself |
| Users.User.Login | models.py:36-40 | returns whether the password verifies; on success the session is open; on failure it stays as it was, open or closed |
| Users.User.Logout | models.py:42-43 | the session is closed, whatever it was |
| Users.User.AddOrder | models.py:48-50 | the history becomes the stable date sort of the old history plus the order, which equals inserting the order after every order not later than it; one element longer; a permutation of old history plus the order |
| Users.User.GetOrderHistory | models.py:52-53 | the history returned is in date order and holds exactly the account's orders |
| OrderHistory.SortByDate | models.py:50 | the sort by `order_date` returns a permutation of its input, in non-decreasing date order |
| OrderHistory.SortIsStable | models.py:50 | for every date, the orders of that date keep their relative order |
| OrderHistory.InsertKeepsOrder | models.py:48-50 | inserting into a history in date order keeps it in date order |
| OrderHistory.AppendThenSort | models.py:48-50 | on a history in date order, appending and sorting equals inserting the new order after every order not later than it |
| Orders.NewOrder | models.py:130-139 | the order holds the values of the given items at this moment, the caller's id, e-mail, shipping and payment data and amount, the clock reading as its date, and status "Confirmed" |
| Orders.ToDict | models.py:141-150 | the summary keeps id, e-mail, shipping data, amount, date and status, lists title, quantity and price of every line in order, and its lines' amounts add up to those of the order's lines |
| Orders.SummaryOfCartOrder | models.py:141-150 | the summary lists title, quantity and price of every line, and for an order made from a cart's items their amounts add up to the cart's total price |
| Orders.CopyItems | models.py:134 | `items.copy()` gives a list of the very same item objects |
| Orders.SharedItemFollowsCart | models.py:134 | with that copy, an order line of quantity 1 reads 5 after a later `update_quantity("Moby Dick", 5)` on the cart |
| Orders.SnapshotIgnoresLaterUpdate | models.py:130-139 | with the values kept by `NewOrder`, the same calls leave the order line at 1 |
| Payments.CardNumber | models.py:162 | the stored card number, or the empty string when the payment data has none |
| Payments.ProcessPayment | models.py:160-183 | the payment is declined exactly when the card number ends in `1111`, with the failure message and no transaction id; otherwise it succeeds with the success message and the gateway's transaction id |
| Payments.EndsWithMeansSuffix | models.py:165 | `endswith` holds exactly when the string is some prefix followed by the suffix |
| Payments.MissingCardSucceeds | models.py:162 | a payment without a card number is treated as the empty number and succeeds |
| Scenarios.TwoTitlesTotals | tests/unit/test_models.py:12-21 | a new cart given two different titles holds the sum of their quantities and of their subtotals |
| Scenarios.UpdatedTitleTotals | tests/unit/test_models.py:39-45 | a new cart given one title whose quantity is then set to a positive `q` holds `q` items at `q` times the price |
| Scenarios.CartAddAndTotal | tests/unit/test_models.py:12-21 | two books at 10.00 and one at 5.00 give three items and 25.00 |
| Scenarios.CartRemoveAndClear | tests/unit/test_models.py:23-37 | removing the only book, and clearing, each leave an empty cart with zero items |
| Scenarios.CartUpdateQuantity | tests/unit/test_models.py:39-45 | setting the quantity to five gives five items at 60.00; setting it to zero removes the line |
| Scenarios.CheckoutCart | tests/integration/test_flows.py:46-54 | 10.99 twice and 8.99 once give three items and 30.97 |
| Scenarios.SameBookTotals | tests/perf/test_perf_cprofile.py:12-13 | adding more of the one book a cart holds keeps it holding only that book and raises the totals by that book's quantity and price alone |
| Scenarios.RepeatedAdd | tests/perf/test_perf_cprofile.py:5-24 | after clearing, one hundred `add_book(book, quantity=2)` calls with a book at 10.00 give 200 items at 2000.00 |
| Scenarios.SessionFlow | tests/unit/test_security.py:60-71 | login with the construction password opens the session, a wrong password does not close it, logout closes it |
| Scenarios.RejectedAddresses | tests/unit/test_security.py:40-43 | "noatsign.com", "bademail@" and "abc" are rejected |

## Left out

- SHA-256 (models.py:19, 31) is the `digest` function the account is built with. No property of it is assumed, injectivity included.
- Float prices are integer cents, so float rounding in the totals is not modelled.
- `datetime.datetime.now()` (models.py:138) is the `now` parameter of `Orders.NewOrder`.
- The `strftime` formatting of `order_date` in `to_dict` (models.py:148) is not modelled. The summary carries the instant itself.
- `random.randint` and `time.sleep` in the gateway (models.py:172-177) are left out. The transaction id is the `transactionId` parameter of `Payments.ProcessPayment`.
- `EmailService.send_order_confirmation` (models.py:193-206) only prints to the console, so it is not modelled.
- The `TypeError` for a non-integer quantity (models.py:91-92) cannot arise, because quantities have type `int`.
- Emails.Lower: lower-cases the ASCII letters `A`-`Z` only, while Python's `str.lower` also maps other Unicode letters (some to several characters).
- Order and Book objects are values, since models.py never changes them after construction. The sharing of one Order object between lists is therefore not captured.
- Users.User.GetOrderHistory: returns the history's value. Python returns the list object itself, which a caller could then change.
- `self._raw_password = None` (models.py:20) has no effect on behaviour, so it is not modelled. The ghost `rawPassword` exists only to state what `VerifyPassword` accepts.
- Payments.ProcessPayment: a card number that is not a string (`None`, an int) would make `endswith` raise; the model accepts strings only.
- `getattr(x, "order_date", None)` (models.py:50) falls back to `None` only for objects that are not orders. Every order here has a date.

## Findings

| source | as written | input that shows it | evidently intended | confidence | as-written member | corrected member |
|---|---|---|---|---|---|---|
| models.py:134 | `self.items = items.copy()` copies the list but not the `CartItem` objects in it, so the order shares its lines with the cart | cart with one "Moby Dick" (12.49) of quantity 1; `Order(...)` made from `cart.get_items()`; then `cart.update_quantity("Moby Dick", 5)`: the order's line, and its `to_dict()`, now read quantity 5 | the order keeps its lines as they were at checkout ("Copy of cart items") | high: `list.copy` is shallow; not executed | Orders.SharedItemFollowsCart | Orders.NewOrder |
