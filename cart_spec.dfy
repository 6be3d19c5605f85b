/** The value view of a shopping cart (models.py, classes CartItem and Cart): what each cart
    operation does to the dictionary from title to line, and what the totals are. The class
    `Carts.Cart` is proved to follow these functions. */
module CartSpec {
  import opened Books

  /** One cart line as a value: the book and the quantity held for it. */
  datatype Line = Line(book: Book, quantity: int) {
    /** `CartItem.get_total_price`: the line's price times its quantity. */
    function Subtotal(): int { book.price * quantity }
  }

  /** The contents of a cart: the dictionary `items` from title to line, and the order in which
      its titles were inserted (a Python dict iterates in insertion order). */
  datatype CartState = CartState(lines: map<string, Line>, titles: seq<string>)

  const EmptyCart := CartState(map[], [])

  ghost predicate Distinct(s: seq<string>) {
    forall i, j | 0 <= i < j < |s| :: s[i] != s[j]
  }

  /** What every reachable cart satisfies: each title is listed once, the listed titles are the
      keys, and every line is filed under its own book's title. */
  ghost predicate WellFormed(c: CartState) {
    && Distinct(c.titles)
    && (forall t :: t in c.lines <==> t in c.titles)
    && (forall t | t in c.lines :: c.lines[t].book.title == t)
  }

  /** `Cart.get_items`: the lines in insertion order. */
  function Items(c: CartState): (r: seq<Line>)
    requires forall t | t in c.titles :: t in c.lines
    ensures |r| == |c.titles|
    ensures forall i | 0 <= i < |r| :: r[i] == c.lines[c.titles[i]]
  {
    seq(|c.titles|, i requires 0 <= i < |c.titles| => c.lines[c.titles[i]])
  }

  function Quantity(l: Line): int { l.quantity }

  function Subtotal(l: Line): int { l.Subtotal() }

  /** The sum of `f` over a sequence of lines, added up from the front as Python's `sum` does. */
  function Sum(ls: seq<Line>, f: Line -> int): int {
    if ls == [] then 0 else Sum(ls[..|ls| - 1], f) + f(ls[|ls| - 1])
  }

  /** `Cart.get_total_items`: the sum of the quantities of all lines; never negative while no
      line holds a negative quantity. */
  function TotalItems(c: CartState): (r: int)
    requires forall t | t in c.titles :: t in c.lines
    ensures (forall i | 0 <= i < |c.titles| :: c.lines[c.titles[i]].quantity >= 0) ==> r >= 0
  {
    QuantitySumNonNegative(Items(c));
    Sum(Items(c), Quantity)
  }

  /** `Cart.get_total_price`: the sum of price times quantity over all lines; never negative
      while every line holds a book of non-negative price in a non-negative quantity. */
  function TotalPrice(c: CartState): (r: int)
    requires forall t | t in c.titles :: t in c.lines
    ensures (forall i | 0 <= i < |c.titles| ::
               c.lines[c.titles[i]].book.price >= 0 && c.lines[c.titles[i]].quantity >= 0) ==> r >= 0
  {
    PriceSumNonNegative(Items(c));
    Sum(Items(c), Subtotal)
  }

  lemma {:induction false} QuantitySumNonNegative(ls: seq<Line>)
    ensures (forall i | 0 <= i < |ls| :: ls[i].quantity >= 0) ==> Sum(ls, Quantity) >= 0
    decreases |ls|
  {
    if ls != [] {
      QuantitySumNonNegative(ls[..|ls| - 1]);
    }
  }

  lemma {:induction false} PriceSumNonNegative(ls: seq<Line>)
    ensures (forall i | 0 <= i < |ls| :: ls[i].book.price >= 0 && ls[i].quantity >= 0) ==> Sum(ls, Subtotal) >= 0
    decreases |ls|
  {
    if ls != [] {
      PriceSumNonNegative(ls[..|ls| - 1]);
      var last := ls[|ls| - 1];
      if last.book.price >= 0 && last.quantity >= 0 {
        SubtotalNonNegative(last);
      }
    }
  }

  /** The position of a title in the insertion order. */
  function IndexOf(s: seq<string>, t: string): (i: nat)
    requires t in s
    ensures i < |s| && s[i] == t
    ensures forall j | 0 <= j < i :: s[j] != t
  {
    if s[0] == t then 0 else 1 + IndexOf(s[1..], t)
  }

  /** `s` with the entry at position `i` taken out. */
  function Delete<T>(s: seq<T>, i: nat): seq<T>
    requires i < |s|
  {
    s[..i] + s[i + 1..]
  }

  /** Entries before `i` keep their position, the later ones move one place forward. */
  lemma DeleteAt<T>(s: seq<T>, i: nat, k: nat)
    requires i < |s| && k < |s| - 1
    ensures |Delete(s, i)| == |s| - 1
    ensures Delete(s, i)[k] == if k < i then s[k] else s[k + 1]
  {
  }

  /** `Cart.add_book(book, quantity)`: a title already present keeps its stored book and gains
      `quantity`; a new title is appended with a fresh line `(book, quantity)`. */
  function AddBook(c: CartState, book: Book, quantity: int): (r: CartState)
    requires WellFormed(c)
    ensures WellFormed(r)
    ensures r.lines.Keys == c.lines.Keys + {book.title}
    ensures book.title in c.lines ==>
              r.lines[book.title] == Line(c.lines[book.title].book, c.lines[book.title].quantity + quantity)
    ensures book.title !in c.lines ==> r.lines[book.title] == Line(book, quantity)
    ensures forall t | t in c.lines && t != book.title :: r.lines[t] == c.lines[t]
  {
    var t := book.title;
    if t in c.lines then
      var line := c.lines[t];
      c.(lines := c.lines[t := line.(quantity := line.quantity + quantity)])
    else
      CartState(c.lines[t := Line(book, quantity)], c.titles + [t])
  }

  /** `Cart.remove_book(title)`: deletes that line, and is a no-op when the title is absent. */
  function RemoveBook(c: CartState, title: string): (r: CartState)
    requires WellFormed(c)
    ensures WellFormed(r)
    ensures r.lines.Keys == c.lines.Keys - {title}
    ensures forall t | t in r.lines :: r.lines[t] == c.lines[t]
    ensures title !in c.lines ==> r == c
  {
    if title in c.lines then
      var r := CartState(c.lines - {title}, Delete(c.titles, IndexOf(c.titles, title)));
      DeleteKeepsOthers(c.titles, IndexOf(c.titles, title));
      r
    else
      c
  }

  /** `Cart.update_quantity(title, quantity)`: nothing happens to an absent title; a quantity
      of zero or less removes the line; a positive quantity replaces the line's quantity. */
  function UpdateQuantity(c: CartState, title: string, quantity: int): (r: CartState)
    requires WellFormed(c)
    ensures WellFormed(r)
    ensures title !in c.lines ==> r == c
    ensures title in c.lines && quantity <= 0 ==> r.lines.Keys == c.lines.Keys - {title}
    ensures title in c.lines && quantity > 0 ==>
              r.lines.Keys == c.lines.Keys && r.lines[title] == Line(c.lines[title].book, quantity)
    ensures forall t | t in r.lines && t != title :: r.lines[t] == c.lines[t]
  {
    if title !in c.lines then c
    else if quantity <= 0 then RemoveBook(c, title)
    else c.(lines := c.lines[title := c.lines[title].(quantity := quantity)])
  }

  /** `add_book` on a present title, written out as the new cart value. */
  lemma AddBookPresent(c: CartState, book: Book, quantity: int)
    requires WellFormed(c) && book.title in c.lines
    ensures AddBook(c, book, quantity) ==
            CartState(c.lines[book.title := Line(c.lines[book.title].book, c.lines[book.title].quantity + quantity)], c.titles)
  {
  }

  /** `remove_book` on a present title, written out as the new cart value. */
  lemma RemoveBookPresent(c: CartState, title: string)
    requires WellFormed(c) && title in c.lines
    ensures RemoveBook(c, title) == CartState(c.lines - {title}, Delete(c.titles, IndexOf(c.titles, title)))
  {
  }

  /** `update_quantity` with a positive quantity on a present title, written out as the new
      cart value. */
  lemma UpdateQuantityPresent(c: CartState, title: string, quantity: int)
    requires WellFormed(c) && title in c.lines && quantity > 0
    ensures UpdateQuantity(c, title, quantity) == CartState(c.lines[title := Line(c.lines[title].book, quantity)], c.titles)
  {
  }

  lemma DeleteKeepsOthers(s: seq<string>, i: nat)
    requires i < |s| && Distinct(s)
    ensures Distinct(Delete(s, i))
    ensures forall t :: t in Delete(s, i) <==> t in s && t != s[i]
  {
    var d := Delete(s, i);
    forall t | t in s && t != s[i] ensures t in d {
      var k :| 0 <= k < |s| && s[k] == t;
      if k < i { assert d[k] == t; } else { assert d[k - 1] == t; }
    }
  }

  // ---------------------------------------------------------------------------------------
  // Sums over line sequences

  lemma {:induction false} SumAppend(ls: seq<Line>, l: Line, f: Line -> int)
    ensures Sum(ls + [l], f) == Sum(ls, f) + f(l)
  {
    assert (ls + [l])[..|ls|] == ls;
  }

  /** Replacing one line changes the sum by the difference of the two lines. */
  lemma {:induction false} SumReplace(ls: seq<Line>, i: nat, l: Line, f: Line -> int)
    requires i < |ls|
    ensures Sum(ls[i := l], f) == Sum(ls, f) - f(ls[i]) + f(l)
    decreases |ls|
  {
    var n := |ls| - 1;
    var init := ls[..n];
    if i == n {
      assert ls[i := l] == init + [l];
      SumAppend(init, l, f);
    } else {
      assert ls[i := l] == init[i := l] + [ls[n]];
      SumAppend(init[i := l], ls[n], f);
      SumReplace(init, i, l, f);
    }
  }

  /** Taking one line out lowers the sum by that line. */
  lemma {:induction false} SumRemove(ls: seq<Line>, i: nat, f: Line -> int)
    requires i < |ls|
    ensures Sum(Delete(ls, i), f) == Sum(ls, f) - f(ls[i])
    decreases |ls|
  {
    var n := |ls| - 1;
    var init := ls[..n];
    if i == n {
      assert Delete(ls, i) == init;
    } else {
      assert Delete(ls, i) == Delete(init, i) + [ls[n]];
      SumAppend(Delete(init, i), ls[n], f);
      SumRemove(init, i, f);
    }
  }

  // ---------------------------------------------------------------------------------------
  // How the operations change the line sequence

  lemma ItemsReplace(c: CartState, i: nat, line: Line)
    requires WellFormed(c) && i < |c.titles|
    ensures forall t | t in c.titles :: t in c.lines[c.titles[i] := line]
    ensures Items(CartState(c.lines[c.titles[i] := line], c.titles)) == Items(c)[i := line]
  {
    var r := CartState(c.lines[c.titles[i] := line], c.titles);
    forall k | 0 <= k < |c.titles| ensures Items(r)[k] == Items(c)[i := line][k] {
      if k != i { assert c.titles[k] != c.titles[i]; }
    }
  }

  lemma ItemsAppend(c: CartState, line: Line)
    requires WellFormed(c) && line.book.title !in c.lines
    ensures Items(CartState(c.lines[line.book.title := line], c.titles + [line.book.title])) == Items(c) + [line]
  {
  }

  lemma ItemsRemove(c: CartState, title: string)
    requires WellFormed(c) && title in c.lines
    ensures Items(RemoveBook(c, title)) == Delete(Items(c), IndexOf(c.titles, title))
  {
    var rs, want := Items(RemoveBook(c, title)), Delete(Items(c), IndexOf(c.titles, title));
    forall k | 0 <= k < |rs| ensures rs[k] == want[k] {
      ItemsRemoveAt(c, title, k);
    }
  }

  /** The `k`-th line left after `remove_book(title)`. */
  lemma ItemsRemoveAt(c: CartState, title: string, k: nat)
    requires WellFormed(c) && title in c.lines && k < |c.titles| - 1
    ensures |Items(RemoveBook(c, title))| == |c.titles| - 1
    ensures Items(RemoveBook(c, title))[k] == Delete(Items(c), IndexOf(c.titles, title))[k]
  {
    var i := IndexOf(c.titles, title);
    RemoveBookPresent(c, title);
    DeleteAt(c.titles, i, k);
    DeleteAt(Items(c), i, k);
  }

  // ---------------------------------------------------------------------------------------
  // How the operations move the totals

  /** `add_book(book, q)` raises the item count by `q` and the price by `q` times the price of
      the book stored under that title (the first book added under it, not necessarily `book`). */
  lemma AddBookTotals(c: CartState, book: Book, quantity: int)
    requires WellFormed(c)
    ensures TotalItems(AddBook(c, book, quantity)) == TotalItems(c) + quantity
    ensures TotalPrice(AddBook(c, book, quantity)) ==
            TotalPrice(c) + StoredPrice(c, book) * quantity
  {
    if book.title in c.lines {
      RaisedLineTotals(c, book, quantity);
    } else {
      NewLineTotals(c, book, quantity);
    }
  }

  /** The present-title half of `AddBookTotals`: one line's quantity grows in place. */
  lemma RaisedLineTotals(c: CartState, book: Book, quantity: int)
    requires WellFormed(c) && book.title in c.lines
    ensures TotalItems(AddBook(c, book, quantity)) == TotalItems(c) + quantity
    ensures TotalPrice(AddBook(c, book, quantity)) ==
            TotalPrice(c) + c.lines[book.title].book.price * quantity
  {
    var t := book.title;
    var i := IndexOf(c.titles, t);
    var line := c.lines[t];
    var line' := Line(line.book, line.quantity + quantity);
    var r := CartState(c.lines[c.titles[i] := line'], c.titles);
    AddBookPresent(c, book, quantity);
    assert AddBook(c, book, quantity) == r;
    ItemsReplace(c, i, line');
    assert Items(c)[i] == line;
    SumReplace(Items(c), i, line', Quantity);
    assert TotalItems(r) == TotalItems(c) + quantity;
    SumReplace(Items(c), i, line', Subtotal);
    SubtotalGrows(line, quantity);
  }

  /** The absent-title half of `AddBookTotals`: a new line is appended. */
  lemma NewLineTotals(c: CartState, book: Book, quantity: int)
    requires WellFormed(c) && book.title !in c.lines
    ensures TotalItems(AddBook(c, book, quantity)) == TotalItems(c) + quantity
    ensures TotalPrice(AddBook(c, book, quantity)) == TotalPrice(c) + book.price * quantity
  {
    var t := book.title;
    assert AddBook(c, book, quantity) == CartState(c.lines[t := Line(book, quantity)], c.titles + [t]);
    ItemsAppend(c, Line(book, quantity));
    SumAppend(Items(c), Line(book, quantity), Quantity);
    SumAppend(Items(c), Line(book, quantity), Subtotal);
  }

  lemma SubtotalGrows(line: Line, quantity: int)
    ensures Subtotal(Line(line.book, line.quantity + quantity)) == Subtotal(line) + line.book.price * quantity
  {
    assert line.book.price * (line.quantity + quantity) == line.book.price * line.quantity + line.book.price * quantity;
  }

  lemma SubtotalNonNegative(line: Line)
    requires line.book.price >= 0 && line.quantity >= 0
    ensures Subtotal(line) >= 0
  {
  }

  /** The unit price `add_book` charges for `book`: that of the line already filed under its
      title, if any, else the book's own. */
  function StoredPrice(c: CartState, book: Book): int {
    if book.title in c.lines then c.lines[book.title].book.price else book.price
  }

  /** `remove_book(title)` lowers the totals by exactly the removed line. */
  lemma RemoveBookTotals(c: CartState, title: string)
    requires WellFormed(c)
    ensures title in c.lines ==>
              TotalItems(RemoveBook(c, title)) == TotalItems(c) - c.lines[title].quantity &&
              TotalPrice(RemoveBook(c, title)) == TotalPrice(c) - c.lines[title].Subtotal()
    ensures title !in c.lines ==>
              TotalItems(RemoveBook(c, title)) == TotalItems(c) &&
              TotalPrice(RemoveBook(c, title)) == TotalPrice(c)
  {
    if title in c.lines {
      var i := IndexOf(c.titles, title);
      var ls := Items(c);
      ItemsRemove(c, title);
      SumRemove(ls, i, Quantity);
      SumRemove(ls, i, Subtotal);
    }
  }

  /** `update_quantity(title, q)` with `q > 0` replaces the line's share of the totals; with
      `q <= 0` it takes the whole line out of them. */
  lemma UpdateQuantityTotals(c: CartState, title: string, quantity: int)
    requires WellFormed(c) && title in c.lines
    ensures quantity > 0 ==>
              TotalItems(UpdateQuantity(c, title, quantity)) ==
              TotalItems(c) - c.lines[title].quantity + quantity
    ensures quantity > 0 ==>
              TotalPrice(UpdateQuantity(c, title, quantity)) ==
              TotalPrice(c) - c.lines[title].Subtotal() + c.lines[title].book.price * quantity
    ensures quantity <= 0 ==>
              TotalItems(UpdateQuantity(c, title, quantity)) == TotalItems(c) - c.lines[title].quantity
    ensures quantity <= 0 ==>
              TotalPrice(UpdateQuantity(c, title, quantity)) == TotalPrice(c) - c.lines[title].Subtotal()
  {
    if quantity > 0 {
      var i := IndexOf(c.titles, title);
      var line' := Line(c.lines[title].book, quantity);
      ItemsReplace(c, i, line');
      SumReplace(Items(c), i, line', Quantity);
      SumReplace(Items(c), i, line', Subtotal);
    } else {
      RemoveBookTotals(c, title);
    }
  }

  /** After `clear()` the cart is empty and both totals are zero. */
  lemma ClearTotals()
    ensures WellFormed(EmptyCart) && Items(EmptyCart) == []
    ensures TotalItems(EmptyCart) == 0 && TotalPrice(EmptyCart) == 0
  {
  }

  // ---------------------------------------------------------------------------------------
  // The totals depend on the dictionary only, not on its insertion order

  /** Two carts with the same lines have the same totals, whatever order the titles were
      inserted in: the sums are sums over the dictionary's values. */
  lemma {:induction false} TotalsIgnoreInsertionOrder(c: CartState, d: CartState)
    requires WellFormed(c) && WellFormed(d) && c.lines == d.lines
    ensures TotalItems(c) == TotalItems(d) && TotalPrice(c) == TotalPrice(d)
    decreases |c.titles|
  {
    if c.titles != [] {
      var t := c.titles[|c.titles| - 1];
      var i := IndexOf(c.titles, t);
      var j := IndexOf(d.titles, t);
      var c' := RemoveBook(c, t);
      var d' := RemoveBook(d, t);
      assert |c'.titles| < |c.titles|;
      TotalsIgnoreInsertionOrder(c', d');
      RemoveBookTotals(c, t);
      RemoveBookTotals(d, t);
    } else {
      FirstTitleFiled(d);
      assert d.titles == [];
    }
  }

  lemma FirstTitleFiled(c: CartState)
    requires WellFormed(c)
    ensures c.titles != [] ==> c.titles[0] in c.lines
  {
  }

  // ---------------------------------------------------------------------------------------
  // Invariants the operations keep

  /** Every line holds a positive quantity of a book with a valid price. */
  ghost predicate PositiveLines(c: CartState) {
    forall t | t in c.lines :: c.lines[t].quantity > 0 && c.lines[t].book.Valid()
  }

  /** The cart of positive lines is closed under `add_book` with a positive quantity of a valid
      book, `remove_book`, `update_quantity` with any quantity, and `clear`; its totals are never
      negative and are zero exactly when it is empty. */
  lemma PositiveLinesPreserved(c: CartState, book: Book, title: string, quantity: int)
    requires WellFormed(c) && PositiveLines(c)
    ensures book.Valid() && quantity > 0 ==> PositiveLines(AddBook(c, book, quantity))
    ensures PositiveLines(RemoveBook(c, title))
    ensures PositiveLines(UpdateQuantity(c, title, quantity))
    ensures PositiveLines(EmptyCart)
  {
  }

  /** In a cart of positive lines the item count is at least the number of lines and the price
      is never negative, so the count is zero exactly when the cart is empty. */
  lemma {:induction false} PositiveTotals(c: CartState)
    requires WellFormed(c) && PositiveLines(c)
    ensures TotalItems(c) >= |c.titles|
    ensures TotalPrice(c) >= 0
    ensures TotalItems(c) == 0 <==> c.lines == map[]
    decreases |c.titles|
  {
    if c.titles != [] {
      var t := c.titles[|c.titles| - 1];
      var c' := RemoveBook(c, t);
      assert |c'.titles| < |c.titles|;
      PositiveTotals(c');
      RemoveBookTotals(c, t);
      SubtotalNonNegative(c.lines[t]);
    } else {
      assert forall t :: t !in c.lines;
    }
  }

  // ---------------------------------------------------------------------------------------
  // A sequence of additions

  /** Adds each `(book, quantity)` pair in turn, as successive `add_book` calls do. */
  function AddAll(c: CartState, adds: seq<(Book, int)>): (r: CartState)
    requires WellFormed(c)
    ensures WellFormed(r)
    decreases |adds|
  {
    if adds == [] then c else AddAll(AddBook(c, adds[0].0, adds[0].1), adds[1..])
  }

  function SumQuantities(adds: seq<(Book, int)>): int {
    if adds == [] then 0 else adds[0].1 + SumQuantities(adds[1..])
  }

  function SumPrices(adds: seq<(Book, int)>): int {
    if adds == [] then 0 else adds[0].0.price * adds[0].1 + SumPrices(adds[1..])
  }

  /** Books that share a title are the same book, in the cart and among the additions. */
  ghost predicate ConsistentTitles(c: CartState, adds: seq<(Book, int)>) {
    && (forall i, t | 0 <= i < |adds| && t in c.lines && adds[i].0.title == t :: adds[i].0 == c.lines[t].book)
    && (forall i, j | 0 <= i < j < |adds| && adds[i].0.title == adds[j].0.title :: adds[i].0 == adds[j].0)
  }

  /** Books sharing a title stay consistent once the first addition has been made. */
  lemma ConsistentTail(c: CartState, adds: seq<(Book, int)>)
    requires WellFormed(c) && adds != [] && ConsistentTitles(c, adds)
    ensures ConsistentTitles(AddBook(c, adds[0].0, adds[0].1), adds[1..])
  {
    var c' := AddBook(c, adds[0].0, adds[0].1);
    var tail := adds[1..];
    forall i, t | 0 <= i < |tail| && t in c'.lines && tail[i].0.title == t
      ensures tail[i].0 == c'.lines[t].book
    {
      assert tail[i] == adds[i + 1];
    }
    forall i, j | 0 <= i < j < |tail| && tail[i].0.title == tail[j].0.title
      ensures tail[i].0 == tail[j].0
    {
      assert tail[i] == adds[i + 1] && tail[j] == adds[j + 1];
    }
  }

  /** Starting from an empty cart, successive `add_book` calls leave the sum of the quantities
      added as the item count and, when books sharing a title are the same book, the sum of
      price times quantity as the price. */
  lemma {:induction false} AddAllTotals(c: CartState, adds: seq<(Book, int)>)
    requires WellFormed(c)
    ensures TotalItems(AddAll(c, adds)) == TotalItems(c) + SumQuantities(adds)
    ensures ConsistentTitles(c, adds) ==>
              TotalPrice(AddAll(c, adds)) == TotalPrice(c) + SumPrices(adds)
    decreases |adds|
  {
    if adds != [] {
      var c' := AddBook(c, adds[0].0, adds[0].1);
      AddBookTotals(c, adds[0].0, adds[0].1);
      AddAllTotals(c', adds[1..]);
      if ConsistentTitles(c, adds) {
        assert StoredPrice(c, adds[0].0) == adds[0].0.price;
        ConsistentTail(c, adds);
      }
    }
  }
}
