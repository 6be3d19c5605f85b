/** The ordering of a user's order history (models.py, `User.add_order`):
    `self.orders.append(order)` followed by `self.orders.sort(key=order_date)`. Python's list
    sort is stable, so it is specified here by a stable insertion sort on the order date. */
module OrderHistory {
  import opened Orders

  ghost predicate SortedByDate(s: seq<Order>) {
    forall i, j | 0 <= i < j < |s| :: s[i].orderDate <= s[j].orderDate
  }

  /** The orders of `s` dated `d`, in their order in `s`. */
  function WithDate(s: seq<Order>, d: Timestamp): seq<Order> {
    if s == [] then []
    else WithDate(s[..|s| - 1], d) + (if s[|s| - 1].orderDate == d then [s[|s| - 1]] else [])
  }

  /** `o` placed after every order at the end of `s` that is not later than it: scanning from
      the back, it passes only orders dated strictly after it. */
  function InsertByDate(s: seq<Order>, o: Order): (r: seq<Order>)
    ensures |r| == |s| + 1
    ensures multiset(r) == multiset(s) + multiset{o}
  {
    if s == [] || s[|s| - 1].orderDate <= o.orderDate then s + [o]
    else
      assert s == s[..|s| - 1] + [s[|s| - 1]];
      InsertByDate(s[..|s| - 1], o) + [s[|s| - 1]]
  }

  /** Inserting into a history in date order keeps it in date order. */
  lemma {:induction false} InsertKeepsOrder(s: seq<Order>, o: Order)
    requires SortedByDate(s)
    ensures SortedByDate(InsertByDate(s, o))
    decreases |s|
  {
    if !(s == [] || s[|s| - 1].orderDate <= o.orderDate) {
      var last := s[|s| - 1];
      var s' := s[..|s| - 1];
      var front := InsertByDate(s', o);
      InsertKeepsOrder(s', o);
      forall i | 0 <= i < |front| ensures front[i].orderDate <= last.orderDate {
        var x := front[i];
        assert x in multiset(front);
        if x != o {
          assert x in multiset(s');
          var k :| 0 <= k < |s'| && s'[k] == x;
        }
      }
    }
  }

  /** The stable sort by date, as insertion of each order in turn. */
  function SortByDate(s: seq<Order>): (r: seq<Order>)
    ensures |r| == |s|
    ensures multiset(r) == multiset(s)
    ensures SortedByDate(r)
  {
    if s == [] then []
    else
      assert s == s[..|s| - 1] + [s[|s| - 1]];
      InsertKeepsOrder(SortByDate(s[..|s| - 1]), s[|s| - 1]);
      InsertByDate(SortByDate(s[..|s| - 1]), s[|s| - 1])
  }

  lemma WithDateAppend(s: seq<Order>, o: Order, d: Timestamp)
    ensures WithDate(s + [o], d) == WithDate(s, d) + (if o.orderDate == d then [o] else [])
  {
    assert (s + [o])[..|s|] == s;
  }

  /** Insertion keeps the relative order of the orders of each date and puts `o` after the
      ones dated the same as it. */
  lemma {:induction false} InsertIsStable(s: seq<Order>, o: Order, d: Timestamp)
    ensures WithDate(InsertByDate(s, o), d) == WithDate(s, d) + (if o.orderDate == d then [o] else [])
    decreases |s|
  {
    if s == [] || s[|s| - 1].orderDate <= o.orderDate {
      WithDateAppend(s, o, d);
    } else {
      var last := s[|s| - 1];
      var s' := s[..|s| - 1];
      assert s == s' + [last];
      InsertIsStable(s', o, d);
      WithDateAppend(InsertByDate(s', o), last, d);
      WithDateAppend(s', last, d);
      // `o` is dated before `last`, so they never share the date `d`
      assert o.orderDate == d ==> last.orderDate != d;
    }
  }

  /** The sort is stable: for every date, the orders of that date keep their relative order. */
  lemma {:induction false} SortIsStable(s: seq<Order>, d: Timestamp)
    ensures WithDate(SortByDate(s), d) == WithDate(s, d)
    decreases |s|
  {
    if s != [] {
      var s' := s[..|s| - 1];
      assert s == s' + [s[|s| - 1]];
      SortIsStable(s', d);
      InsertIsStable(SortByDate(s'), s[|s| - 1], d);
      WithDateAppend(s', s[|s| - 1], d);
    }
  }

  lemma SplitLast(s: seq<Order>)
    requires s != []
    ensures s == s[..|s| - 1] + [s[|s| - 1]]
  {
  }

  /** An order not earlier than the last one goes at the end. */
  lemma InsertAtEnd(s: seq<Order>, o: Order)
    requires s == [] || s[|s| - 1].orderDate <= o.orderDate
    ensures InsertByDate(s, o) == s + [o]
  {
  }

  /** Sorting a history that is already in date order leaves it as it is. */
  lemma {:induction false} SortKeepsSorted(s: seq<Order>)
    requires SortedByDate(s)
    ensures SortByDate(s) == s
    decreases |s|
  {
    if s != [] {
      var s', last := s[..|s| - 1], s[|s| - 1];
      assert SortedByDate(s') by {
        forall i, j | 0 <= i < j < |s'| ensures s'[i].orderDate <= s'[j].orderDate {
          assert s'[i] == s[i] && s'[j] == s[j];
        }
      }
      SortKeepsSorted(s');
      assert s' != [] ==> s'[|s'| - 1].orderDate <= last.orderDate;
      InsertAtEnd(s', last);
      SplitLast(s);
    }
  }

  /** `add_order` on a history in date order: appending and re-sorting is the same as inserting
      the new order after every order not later than it. */
  lemma AppendThenSort(s: seq<Order>, o: Order)
    requires SortedByDate(s)
    ensures SortByDate(s + [o]) == InsertByDate(s, o)
  {
    assert (s + [o])[..|s|] == s;
    SortKeepsSorted(s);
  }
}
