/** A completed purchase (models.py, class Order): the order record, its `to_dict` projection,
    and how its item list is taken from a cart. */
module Orders {
  import opened Books
  import opened CartSpec
  import opened Carts

  /** `datetime.datetime.now()` at construction, as an abstract ordered instant. */
  type Timestamp = int

  /** An order. `items` holds the values of the cart lines at checkout (see `NewOrder`). */
  datatype Order = Order(
    orderId: string,
    userEmail: string,
    items: seq<Line>,
    shippingInfo: map<string, string>,
    paymentInfo: map<string, string>,
    totalAmount: int,
    orderDate: Timestamp,
    status: string)

  const Confirmed := "Confirmed"

  /** `Order(order_id, user_email, items, shipping_info, payment_info, total_amount)`, with the
      clock reading passed in as `now`. The order keeps the values the items have at this
      moment, so that later changes to the cart leave it alone. */
  method NewOrder(orderId: string, userEmail: string, items: seq<CartItem>,
                  shippingInfo: map<string, string>, paymentInfo: map<string, string>,
                  totalAmount: int, now: Timestamp) returns (o: Order)
    ensures o.items == Views(items)
    ensures o.orderId == orderId && o.userEmail == userEmail
    ensures o.shippingInfo == shippingInfo && o.paymentInfo == paymentInfo
    ensures o.totalAmount == totalAmount && o.orderDate == now && o.status == Confirmed
  {
    var lines := Views(items);
    o := Order(orderId, userEmail, lines, shippingInfo, paymentInfo, totalAmount, now, Confirmed);
  }

  /** One entry of `to_dict()['items']`. */
  datatype ItemSummary = ItemSummary(title: string, quantity: int, price: int)

  /** The dictionary `to_dict()` builds. The date is kept as the instant; its formatting as
      `%Y-%m-%d %H:%M:%S` is not modelled. The payment details are not part of it. */
  datatype OrderSummary = OrderSummary(
    orderId: string,
    userEmail: string,
    items: seq<ItemSummary>,
    shippingInfo: map<string, string>,
    totalAmount: int,
    orderDate: Timestamp,
    status: string)

  function Summarize(l: Line): ItemSummary {
    ItemSummary(l.book.title, l.quantity, l.book.price)
  }

  /** The list comprehension of `to_dict()`: title, quantity and price of each line, in order. */
  function SummarizeAll(ls: seq<Line>): (r: seq<ItemSummary>)
    ensures |r| == |ls|
    ensures forall i | 0 <= i < |ls| :: r[i] == Summarize(ls[i])
  {
    seq(|ls|, i requires 0 <= i < |ls| => Summarize(ls[i]))
  }

  /** `Order.to_dict()`: the order's fields other than the payment details, and one summary per
      line, whose amounts add up to what the order's lines add up to. */
  function ToDict(o: Order): (r: OrderSummary)
    ensures r.orderId == o.orderId && r.userEmail == o.userEmail && r.shippingInfo == o.shippingInfo
    ensures r.totalAmount == o.totalAmount && r.orderDate == o.orderDate && r.status == o.status
    ensures |r.items| == |o.items|
    ensures forall i | 0 <= i < |o.items| ::
              r.items[i].title == o.items[i].book.title && r.items[i].quantity == o.items[i].quantity &&
              r.items[i].price == o.items[i].book.price
    ensures SummaryAmount(r.items) == Sum(o.items, Subtotal)
  {
    SummaryAmountMatches(o.items);
    OrderSummary(o.orderId, o.userEmail, SummarizeAll(o.items),
                 o.shippingInfo, o.totalAmount, o.orderDate, o.status)
  }

  /** What a reader of the summary computes as the amount: price times quantity, summed. */
  function SummaryAmount(items: seq<ItemSummary>): int {
    if items == [] then 0 else SummaryAmount(items[..|items| - 1]) + items[|items| - 1].price * items[|items| - 1].quantity
  }

  /** The summary's lines add up to what the lines of the order add up to; for an order made
      from a cart's `get_items()`, that is the cart's `get_total_price()` at checkout. */
  lemma {:induction false} SummaryAmountMatches(ls: seq<Line>)
    ensures SummaryAmount(SummarizeAll(ls)) == Sum(ls, Subtotal)
    decreases |ls|
  {
    if ls != [] {
      var n := |ls| - 1;
      assert SummarizeAll(ls)[..n] == SummarizeAll(ls[..n]);
      SummaryAmountMatches(ls[..n]);
    }
  }

  /** An order made from a cart's items summarises to lines whose amounts add up to the cart's
      total price at checkout. */
  lemma SummaryOfCartOrder(o: Order, c: CartState)
    requires WellFormed(c) && o.items == Items(c)
    ensures SummaryAmount(ToDict(o).items) == TotalPrice(c)
  {
    SummaryAmountMatches(o.items);
  }

  // ---------------------------------------------------------------------------------------
  // The item list as written: `items.copy()` is a shallow copy

  /** `items.copy()`: a new list holding the very same `CartItem` objects. */
  method CopyItems(items: seq<CartItem>) returns (copy: seq<CartItem>)
    ensures copy == items
  {
    copy := items[..];
  }

  /** With the shallow copy, an order's line follows a later `update_quantity` on the cart:
      one copy of "Moby Dick" at checkout reads as five afterwards. */
  method SharedItemFollowsCart() returns (atCheckout: int, later: int)
    ensures atCheckout == 1 && later == 5
  {
    var cart := new Cart();
    var book := Book("Moby Dick", "Adventure", 1249, "img3.jpg");
    cart.AddBook(book, 1);
    var items := cart.GetItems();
    var copy := CopyItems(items);
    atCheckout := copy[0].quantity;
    cart.UpdateQuantity("Moby Dick", 5);
    later := copy[0].quantity;
  }

  /** With the values kept by `NewOrder`, the same sequence of calls leaves the order alone. */
  method SnapshotIgnoresLaterUpdate() returns (atCheckout: int, later: int)
    ensures atCheckout == 1 && later == 1
  {
    var cart := new Cart();
    var book := Book("Moby Dick", "Adventure", 1249, "img3.jpg");
    cart.AddBook(book, 1);
    var items := cart.GetItems();
    var o := NewOrder("1", "test@example.com", items, map[], map[], 1249, 0);
    atCheckout := o.items[0].quantity;
    cart.UpdateQuantity("Moby Dick", 5);
    later := o.items[0].quantity;
  }
}
