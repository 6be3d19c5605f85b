/** The mutable cart objects (models.py, classes CartItem and Cart). A `CartItem` is an object
    whose quantity the cart changes in place; the cart's dictionary maps each title to its item.
    Every method is proved to move the cart's value view `State()` exactly as the matching
    function of `CartSpec` does. */
module Carts {
  import opened Books
  import opened CartSpec

  /** `CartItem(book, quantity=1)`: one line of a cart, shared by reference with whoever holds
      the list `get_items` returned. */
  class CartItem {
    const book: Book
    var quantity: int

    constructor (book: Book, quantity: int := 1)
      ensures this.book == book && this.quantity == quantity
    {
      this.book := book;
      this.quantity := quantity;
    }

    /** The line's current value. */
    function View(): Line
      reads this
    {
      Line(book, quantity)
    }

    /** `CartItem.get_total_price`: the price of the book times the quantity held. */
    function GetTotalPrice(): (r: int)
      reads this
      ensures r == Subtotal(View())
      ensures book.Valid() && quantity >= 0 ==> r >= 0
    {
      book.price * quantity
    }
  }

  /** The current values of a list of items, in order. */
  function Views(items: seq<CartItem>): (r: seq<Line>)
    reads items
    ensures |r| == |items|
    ensures forall i | 0 <= i < |items| :: r[i] == items[i].View()
  {
    seq(|items|, i requires 0 <= i < |items| reads items => items[i].View())
  }

  /** The current line of every title of a dictionary of items. */
  function Lines(items: map<string, CartItem>): (r: map<string, Line>)
    reads items.Values
    ensures r.Keys == items.Keys
    ensures forall t | t in items :: r[t] == items[t].View()
  {
    map t | t in items :: items[t].View()
  }

  /** No item object is filed under two titles. */
  ghost predicate Injective(items: map<string, CartItem>) {
    forall s, t | s in items && t in items && s != t :: items[s] != items[t]
  }

  lemma LinesRemove(items: map<string, CartItem>, title: string)
    ensures Lines(items - {title}) == Lines(items) - {title}
  {
  }

  lemma LinesAdd(items: map<string, CartItem>, title: string, item: CartItem)
    ensures Lines(items[title := item]) == Lines(items)[title := item.View()]
  {
  }

  /** `Cart()`: the dictionary `items` from title to item, and `titles`, the order in which the
      dictionary's keys were inserted. */
  class Cart {
    var items: map<string, CartItem>
    var titles: seq<string>

    /** The cart's value: the current line of every title, in insertion order. */
    function State(): CartState
      reads this, items.Values
    {
      CartState(Lines(items), titles)
    }

    /** No item object is filed under two titles, and the value view is well formed. */
    ghost predicate Valid()
      reads this, items.Values
    {
      && Injective(items)
      && WellFormed(State())
    }

    constructor ()
      ensures Valid() && State() == EmptyCart && items == map[]
    {
      items := map[];
      titles := [];
    }

    /** `add_book(book, quantity=1)`: an item already filed under the book's title has its
        quantity raised in place; otherwise a new item is filed and its title appended. */
    method AddBook(book: Book, quantity: int := 1)
      requires Valid()
      modifies this, items.Values
      ensures Valid()
      ensures State() == CartSpec.AddBook(old(State()), book, quantity)
      ensures book.title in old(items) ==> items == old(items)
      ensures book.title !in old(items) ==> book.title in items && items == old(items)[book.title := items[book.title]]
      ensures fresh(items.Values - old(items.Values))
    {
      if book.title in items {
        RaiseQuantity(book, quantity);
      } else {
        FileNewItem(book, quantity);
      }
    }

    /** `add_book` on a title already filed: its item's quantity grows by `quantity`. */
    method RaiseQuantity(book: Book, quantity: int)
      requires Valid() && book.title in items
      modifies items[book.title]
      ensures Valid() && items == old(items) && titles == old(titles)
      ensures State() == CartSpec.AddBook(old(State()), book, quantity)
    {
      ghost var before := State();
      var t := book.title;
      assert before.lines[t] == items[t].View();
      AddBookPresent(before, book, quantity);
      WriteQuantity(t, items[t].quantity + quantity, CartSpec.AddBook(before, book, quantity));
    }

    /** Writes a new quantity into the item filed under `title`, in place: that title's line
        changes and nothing else, which leaves the cart at the value `target` the caller
        expects. */
    method WriteQuantity(title: string, quantity: int, ghost target: CartState)
      requires Valid() && title in items
      requires target == CartState(State().lines[title := Line(items[title].book, quantity)], titles)
      modifies items[title]
      ensures Valid() && items == old(items) && titles == old(titles)
      ensures State() == target
    {
      ghost var before := State();
      var item := items[title];
      item.quantity := quantity;
      forall s | s in items ensures Lines(items)[s] == before.lines[title := Line(item.book, quantity)][s] {
        if s != title { assert items[s] != item; }
      }
      assert State().lines == before.lines[title := Line(item.book, quantity)];
      assert State().lines.Keys == before.lines.Keys;
      assert WellFormed(State());
    }

    /** `add_book` on a new title: a new item is filed under it and the title appended. */
    method FileNewItem(book: Book, quantity: int)
      requires Valid() && book.title !in items
      modifies this
      ensures Valid() && titles == old(titles) + [book.title]
      ensures book.title in items && fresh(items[book.title])
      ensures items == old(items)[book.title := items[book.title]]
      ensures State() == CartSpec.AddBook(old(State()), book, quantity)
    {
      ghost var before := State();
      var m, ts := items, titles;
      var item := new CartItem(book, quantity);
      items := m[book.title := item];
      titles := ts + [book.title];
      LinesAdd(m, book.title, item);
      assert Lines(m) == before.lines;
      assert State() == CartState(before.lines[book.title := Line(book, quantity)], before.titles + [book.title]);
      assert State() == CartSpec.AddBook(before, book, quantity);
      assert WellFormed(State());
      assert forall s | s in m :: m[s] != item;
    }

    /** `remove_book(book_title)`: deletes the title's item; an absent title is a no-op. */
    method RemoveBook(title: string)
      requires Valid()
      modifies this
      ensures Valid()
      ensures State() == CartSpec.RemoveBook(old(State()), title)
      ensures title !in old(items) ==> items == old(items) && titles == old(titles)
      ensures items.Values <= old(items.Values)
    {
      if title in items {
        ghost var before := State();
        var m, ts := items, titles;
        var i := IndexOf(ts, title);
        items := m - {title};
        titles := ts[..i] + ts[i + 1..];
        LinesRemove(m, title);
        assert Lines(m) == before.lines;
        assert State().lines == before.lines - {title};
        assert State().titles == Delete(before.titles, i);
        RemoveBookPresent(before, title);
        assert WellFormed(State());
      }
    }

    /** `update_quantity(title, quantity)`: an absent title is a no-op; a quantity of zero or
        less deletes the item; a positive quantity is written into the item in place. */
    method UpdateQuantity(title: string, quantity: int)
      requires Valid()
      modifies this, items.Values
      ensures Valid()
      ensures State() == CartSpec.UpdateQuantity(old(State()), title, quantity)
      ensures quantity > 0 ==> items == old(items)
      ensures items.Values <= old(items.Values)
    {
      if title in items {
        if quantity <= 0 {
          RemoveBook(title);
        } else {
          UpdateQuantityPresent(State(), title, quantity);
          WriteQuantity(title, quantity, CartSpec.UpdateQuantity(State(), title, quantity));
        }
      }
    }

    /** `clear()`: the cart gets a new, empty dictionary; the old items are left untouched. */
    method Clear()
      requires Valid()
      modifies this
      ensures Valid() && State() == EmptyCart
      ensures GetTotalItems() == 0 && GetTotalPrice() == 0 && IsEmpty()
    {
      items := map[];
      titles := [];
    }

    /** `get_total_price`: the sum of price times quantity over the items, which is the total
        of the cart's value; never negative while every item holds a validly priced book in a
        non-negative quantity. */
    function GetTotalPrice(): (r: int)
      reads this, items.Values
      requires Valid()
      ensures r == TotalPrice(State())
      ensures (forall t | t in items :: items[t].book.Valid() && items[t].quantity >= 0) ==> r >= 0
    {
      assert forall i | 0 <= i < |titles| :: titles[i] in items;
      TotalPrice(State())
    }

    /** `get_total_items`: the sum of the items' quantities, which is the item count of the
        cart's value; never negative while no item holds a negative quantity. */
    function GetTotalItems(): (r: int)
      reads this, items.Values
      requires Valid()
      ensures r == TotalItems(State())
      ensures (forall t | t in items :: items[t].quantity >= 0) ==> r >= 0
    {
      assert forall i | 0 <= i < |titles| :: titles[i] in items;
      TotalItems(State())
    }

    /** `get_items`: a new list holding the cart's item objects in insertion order. */
    method GetItems() returns (r: seq<CartItem>)
      requires Valid()
      ensures |r| == |titles|
      ensures forall i | 0 <= i < |r| :: titles[i] in items && r[i] == items[titles[i]]
      ensures Views(r) == Items(State())
    {
      var m, ts := items, titles;
      assert State().lines.Keys == m.Keys;
      assert forall i | 0 <= i < |ts| :: ts[i] in State().lines;
      r := seq(|ts|, i requires 0 <= i < |ts| => m[ts[i]]);
    }

    /** `is_empty`: the dictionary has no entries; then both totals are zero. */
    function IsEmpty(): (r: bool)
      reads this, items.Values
      requires Valid()
      ensures r <==> State().lines == map[]
      ensures r ==> GetTotalItems() == 0 && GetTotalPrice() == 0
    {
      assert State().lines.Keys == items.Keys;
      assert titles == [] ==> forall t :: t !in State().lines;
      |items| == 0
    }
  }
}
