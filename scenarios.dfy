/** Client code replaying the repository's own test scenarios (tests/unit/test_models.py,
    tests/unit/test_security.py, tests/integration/test_flows.py and
    tests/perf/test_perf_cprofile.py) against the contracts alone. */
module Scenarios {
  import opened Results
  import opened Books
  import opened CartSpec
  import opened Carts
  import opened Emails
  import opened Users

  /** A new cart given two different titles holds the sum of their quantities and of their
      subtotals. */
  lemma TwoTitlesTotals(a: Book, qa: int, b: Book, qb: int)
    requires a.title != b.title
    ensures TotalItems(AddBook(AddBook(EmptyCart, a, qa), b, qb)) == qa + qb
    ensures TotalPrice(AddBook(AddBook(EmptyCart, a, qa), b, qb)) == a.price * qa + b.price * qb
  {
    ClearTotals();
    AddBookTotals(EmptyCart, a, qa);
    AddBookTotals(AddBook(EmptyCart, a, qa), b, qb);
  }

  /** A new cart given one title, whose quantity is then set to a positive `q`, holds `q` items
      at `q` times the book's price. */
  lemma UpdatedTitleTotals(d: Book, q0: int, q: int)
    requires q > 0
    ensures TotalItems(UpdateQuantity(AddBook(EmptyCart, d, q0), d.title, q)) == q
    ensures TotalPrice(UpdateQuantity(AddBook(EmptyCart, d, q0), d.title, q)) == d.price * q
  {
    ClearTotals();
    AddBookTotals(EmptyCart, d, q0);
    UpdateQuantityTotals(AddBook(EmptyCart, d, q0), d.title, q);
  }

  /** Two of "Book A" at 10.00 and one of "Book B" at 5.00: three items, 25.00. */
  method CartAddAndTotal() returns (items: int, price: int)
    ensures items == 3 && price == 2500
  {
    var cart := new Cart();
    cart.AddBook(Book("Book A", "Fiction", 1000, "img1.jpg"), 2);
    cart.AddBook(Book("Book B", "Non-Fiction", 500, "img2.jpg"), 1);
    TwoTitlesTotals(Book("Book A", "Fiction", 1000, "img1.jpg"), 2, Book("Book B", "Non-Fiction", 500, "img2.jpg"), 1);
    items, price := cart.GetTotalItems(), cart.GetTotalPrice();
  }

  /** Removing the only book empties the cart; adding it again and clearing empties it too. */
  method CartRemoveAndClear() returns (afterRemove: bool, afterClear: bool)
    ensures afterRemove && afterClear
  {
    var cart := new Cart();
    var book := Book("Book C", "Sci-Fi", 1500, "img3.jpg");
    cart.AddBook(book, 1);
    cart.RemoveBook("Book C");
    afterRemove := cart.IsEmpty() && cart.GetTotalItems() == 0;
    cart.AddBook(book, 2);
    cart.Clear();
    afterClear := cart.IsEmpty() && cart.GetTotalItems() == 0;
  }

  /** Setting the quantity of "Book D" (12.00) to five gives five items at 60.00; setting it to
      zero then takes the line out. */
  method CartUpdateQuantity() returns (items: int, price: int, goneAtZero: bool)
    ensures items == 5 && price == 6000 && goneAtZero
  {
    var cart := new Cart();
    cart.AddBook(Book("Book D", "History", 1200, "img4.jpg"), 1);
    cart.UpdateQuantity("Book D", 5);
    UpdatedTitleTotals(Book("Book D", "History", 1200, "img4.jpg"), 1, 5);
    items, price := cart.GetTotalItems(), cart.GetTotalPrice();
    cart.UpdateQuantity("Book D", 0);
    goneAtZero := "Book D" !in cart.State().lines;
  }

  /** The checkout cart of the integration flow: 10.99 twice and 8.99 once. */
  method CheckoutCart() returns (items: int, price: int)
    ensures items == 3 && price == 3097
  {
    var cart := new Cart();
    cart.AddBook(Book("The Great Gatsby", "Fiction", 1099, "img1.jpg"), 2);
    cart.AddBook(Book("1984", "Dystopia", 899, "img2.jpg"), 1);
    TwoTitlesTotals(Book("The Great Gatsby", "Fiction", 1099, "img1.jpg"), 2, Book("1984", "Dystopia", 899, "img2.jpg"), 1);
    items, price := cart.GetTotalItems(), cart.GetTotalPrice();
  }

  /** Every line of `c` holds `book`. */
  ghost predicate OnlyBook(c: CartState, book: Book) {
    forall t | t in c.lines :: c.lines[t].book == book
  }

  /** Adding more of the one book a cart holds raises the totals by that book alone. */
  lemma SameBookTotals(c: CartState, book: Book, quantity: int)
    requires WellFormed(c) && OnlyBook(c, book)
    ensures OnlyBook(AddBook(c, book, quantity), book)
    ensures TotalItems(AddBook(c, book, quantity)) == TotalItems(c) + quantity
    ensures TotalPrice(AddBook(c, book, quantity)) == TotalPrice(c) + book.price * quantity
  {
    AddBookTotals(c, book, quantity);
  }

  /** The profiling test: one hundred `add_book(book, quantity=2)` calls with a book at 10.00
      give 200 items at 2000.00. */
  method RepeatedAdd() returns (items: int, price: int)
    ensures items == 200 && price == 200000
  {
    var cart := new Cart();
    var book := Book("Perf Book", "Test", 1000, "image.jpg");
    cart.Clear();
    var n := 0;
    while n < 100
      invariant n <= 100
      invariant fresh(cart) && fresh(cart.items.Values) && cart.Valid()
      invariant TotalItems(cart.State()) == 2 * n && TotalPrice(cart.State()) == 2000 * n
      invariant OnlyBook(cart.State(), book)
    {
      ghost var before := cart.State();
      cart.AddBook(book, 2);
      SameBookTotals(before, book, 2);
      n := n + 1;
    }
    items, price := cart.GetTotalItems(), cart.GetTotalPrice();
  }

  /** The address of the session test matches the pattern. */
  lemma SessionAddressMatches()
    ensures MatchesPattern("session@example.com")
  {
    assert MatchAt("session@example.com", 7, 15, 19);
  }

  /** An account logs in with its own password, stays logged in after a wrong one, and is
      logged out by `logout`. */
  method SessionFlow(digest: string -> string) returns (first: bool, kept: bool, closed: bool)
    ensures first && kept && closed
  {
    SessionAddressMatches();
    var created := User.Create("session@example.com", "pass", digest, "Tester", "123 Lane");
    var user := created.value;
    first := user.Login("pass");
    var _ := user.Login("wrong");
    kept := user.loggedIn;
    user.Logout();
    closed := !user.loggedIn;
  }

  /** The addresses the security test rejects: two have no `@`, and in the third nothing
      follows it. */
  lemma RejectedAddresses()
    ensures NormalizeEmail("noatsign.com").Err?
    ensures NormalizeEmail("bademail@").Err?
    ensures NormalizeEmail("abc").Err?
  {
    NoAtRejected("noatsign.com");
    NoAtRejected("abc");
    assert "bademail@"[..8] == "bademail";
    NothingAfterAtRejected("bademail@");
  }
}
