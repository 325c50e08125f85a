/** The kitchen view: `SELECT item_name, SUM(qty) AS plates FROM orders
    WHERE served=0 GROUP BY item_name`, as a fold over the orders table,
    together with an independent definition of what each group must hold. */
module Aggregate {
  import opened Wrappers
  import opened Schema

  /** One row of the aggregated result. */
  datatype PlateRow = PlateRow(itemName: Option<string>, plates: int)

  // ---------------------------------------------------------------------
  // The fold that computes the grouping
  // ---------------------------------------------------------------------

  /** Adds `qty` plates to the group for `name`, opening a new group at the
      end when there is none yet. */
  function AddPlates(rows: seq<PlateRow>, name: Option<string>, qty: int): seq<PlateRow>
  {
    if rows == [] then [PlateRow(name, qty)]
    else if rows[0].itemName == name then [PlateRow(name, rows[0].plates + qty)] + rows[1..]
    else [rows[0]] + AddPlates(rows[1..], name, qty)
  }

  /** Groups the unserved orders by their stored item name (not by item id)
      and sums their quantities; groups appear in order of first occurrence. */
  function AggregateUnserved(orders: seq<Order>): seq<PlateRow>
  {
    if orders == [] then []
    else
      var rows := AggregateUnserved(orders[..|orders| - 1]);
      var o := orders[|orders| - 1];
      if o.served == Unserved then AddPlates(rows, o.itemName, o.qty) else rows
  }

  // ---------------------------------------------------------------------
  // Reference definitions
  // ---------------------------------------------------------------------

  /** Sum of `qty` over the unserved orders whose stored name is `name`. */
  function UnservedQty(orders: seq<Order>, name: Option<string>): int
  {
    if orders == [] then 0
    else
      (if orders[0].served == Unserved && orders[0].itemName == name then orders[0].qty else 0)
      + UnservedQty(orders[1..], name)
  }

  /** Sum of `qty` over all unserved orders. */
  function TotalUnservedQty(orders: seq<Order>): int
  {
    if orders == [] then 0
    else (if orders[0].served == Unserved then orders[0].qty else 0) + TotalUnservedQty(orders[1..])
  }

  /** The names carried by at least one unserved order. */
  function UnservedNames(orders: seq<Order>): set<Option<string>>
  {
    set o | o in orders && o.served == Unserved :: o.itemName
  }

  /** The unserved orders, in table order. */
  function UnservedOrders(orders: seq<Order>): seq<Order>
  {
    if orders == [] then []
    else (if orders[0].served == Unserved then [orders[0]] else []) + UnservedOrders(orders[1..])
  }

  /** The plates of the first row named `name`, 0 when there is none. */
  function PlatesOf(rows: seq<PlateRow>, name: Option<string>): int
  {
    if rows == [] then 0
    else if rows[0].itemName == name then rows[0].plates
    else PlatesOf(rows[1..], name)
  }

  function SumPlates(rows: seq<PlateRow>): int
  {
    if rows == [] then 0 else rows[0].plates + SumPlates(rows[1..])
  }

  function Names(rows: seq<PlateRow>): set<Option<string>>
  {
    set r | r in rows :: r.itemName
  }

  /** No item name heads two groups. */
  predicate DistinctNames(rows: seq<PlateRow>)
  {
    forall i, j :: 0 <= i < j < |rows| ==> rows[i].itemName != rows[j].itemName
  }

  /** Two order tables that agree on everything the query reads. */
  predicate SameQueryColumns(a: seq<Order>, b: seq<Order>)
  {
    |a| == |b| &&
    forall i :: 0 <= i < |a| ==>
      a[i].itemName == b[i].itemName && a[i].qty == b[i].qty && a[i].served == b[i].served
  }

  // ---------------------------------------------------------------------
  // One step of the fold
  // ---------------------------------------------------------------------

  lemma {:induction false} AddPlatesPlates(rows: seq<PlateRow>, name: Option<string>, qty: int, n: Option<string>)
    ensures PlatesOf(AddPlates(rows, name, qty), n) == PlatesOf(rows, n) + (if n == name then qty else 0)
  {
    if rows != [] && rows[0].itemName != name {
      AddPlatesPlates(rows[1..], name, qty, n);
    }
  }

  lemma {:induction false} AddPlatesNames(rows: seq<PlateRow>, name: Option<string>, qty: int)
    ensures Names(AddPlates(rows, name, qty)) == Names(rows) + {name}
  {
    if rows == [] {
    } else if rows[0].itemName == name {
      assert Names(rows) == {rows[0].itemName} + Names(rows[1..]);
      assert Names(AddPlates(rows, name, qty)) == {name} + Names(rows[1..]);
    } else {
      AddPlatesNames(rows[1..], name, qty);
      assert Names(rows) == {rows[0].itemName} + Names(rows[1..]);
      assert Names(AddPlates(rows, name, qty)) == {rows[0].itemName} + Names(AddPlates(rows[1..], name, qty));
    }
  }

  lemma {:induction false} AddPlatesDistinct(rows: seq<PlateRow>, name: Option<string>, qty: int)
    requires DistinctNames(rows)
    ensures DistinctNames(AddPlates(rows, name, qty))
  {
    if rows != [] && rows[0].itemName != name {
      AddPlatesDistinct(rows[1..], name, qty);
      AddPlatesNames(rows[1..], name, qty);
      var tail := AddPlates(rows[1..], name, qty);
      forall j | 0 <= j < |tail| ensures tail[j].itemName != rows[0].itemName {
        assert tail[j].itemName in Names(tail);
        if tail[j].itemName in Names(rows[1..]) {
          var k :| 0 <= k < |rows[1..]| && rows[1..][k].itemName == tail[j].itemName;
          assert rows[k + 1].itemName == tail[j].itemName;
        }
      }
    }
  }

  lemma {:induction false} AddPlatesSum(rows: seq<PlateRow>, name: Option<string>, qty: int)
    ensures SumPlates(AddPlates(rows, name, qty)) == SumPlates(rows) + qty
  {
    if rows != [] && rows[0].itemName != name {
      AddPlatesSum(rows[1..], name, qty);
    }
  }

  // ---------------------------------------------------------------------
  // The reference definitions, one order at the end of the table
  // ---------------------------------------------------------------------

  lemma {:induction false} UnservedQtyAppend(orders: seq<Order>, o: Order, n: Option<string>)
    ensures UnservedQty(orders + [o], n)
         == UnservedQty(orders, n) + (if o.served == Unserved && o.itemName == n then o.qty else 0)
  {
    if orders != [] {
      assert (orders + [o])[1..] == orders[1..] + [o];
      UnservedQtyAppend(orders[1..], o, n);
    }
  }

  lemma {:induction false} TotalUnservedQtyAppend(orders: seq<Order>, o: Order)
    ensures TotalUnservedQty(orders + [o])
         == TotalUnservedQty(orders) + (if o.served == Unserved then o.qty else 0)
  {
    if orders != [] {
      assert (orders + [o])[1..] == orders[1..] + [o];
      TotalUnservedQtyAppend(orders[1..], o);
    }
  }

  lemma {:induction false} UnservedOrdersAppend(orders: seq<Order>, o: Order)
    ensures UnservedOrders(orders + [o])
         == UnservedOrders(orders) + (if o.served == Unserved then [o] else [])
  {
    if orders != [] {
      assert (orders + [o])[1..] == orders[1..] + [o];
      UnservedOrdersAppend(orders[1..], o);
    }
  }

  lemma UnservedNamesAppend(orders: seq<Order>, o: Order)
    ensures UnservedNames(orders + [o])
         == UnservedNames(orders) + (if o.served == Unserved then {o.itemName} else {})
  {
  }

  // ---------------------------------------------------------------------
  // What the aggregated query returns
  // ---------------------------------------------------------------------

  /** Each item name appears in at most one row. */
  lemma {:induction false} AggregateDistinct(orders: seq<Order>)
    ensures DistinctNames(AggregateUnserved(orders))
  {
    if orders != [] {
      var o := orders[|orders| - 1];
      AggregateDistinct(orders[..|orders| - 1]);
      if o.served == Unserved {
        AddPlatesDistinct(AggregateUnserved(orders[..|orders| - 1]), o.itemName, o.qty);
      }
    }
  }

  /** The group for `n` holds the sum of `qty` over exactly the unserved
      orders named `n`. */
  lemma {:induction false} AggregatePlates(orders: seq<Order>, n: Option<string>)
    ensures PlatesOf(AggregateUnserved(orders), n) == UnservedQty(orders, n)
  {
    if orders != [] {
      var init, o := orders[..|orders| - 1], orders[|orders| - 1];
      assert orders == init + [o];
      AggregatePlates(init, n);
      UnservedQtyAppend(init, o, n);
      if o.served == Unserved {
        AddPlatesPlates(AggregateUnserved(init), o.itemName, o.qty, n);
      }
    }
  }

  /** A name has a row if and only if some unserved order carries it. */
  lemma {:induction false} AggregateNames(orders: seq<Order>)
    ensures Names(AggregateUnserved(orders)) == UnservedNames(orders)
  {
    if orders != [] {
      var init, o := orders[..|orders| - 1], orders[|orders| - 1];
      assert orders == init + [o];
      AggregateNames(init);
      UnservedNamesAppend(init, o);
      if o.served == Unserved {
        AddPlatesNames(AggregateUnserved(init), o.itemName, o.qty);
      }
    }
  }

  /** The plates of the rows add up to the quantity of all unserved orders. */
  lemma {:induction false} AggregateTotal(orders: seq<Order>)
    ensures SumPlates(AggregateUnserved(orders)) == TotalUnservedQty(orders)
  {
    if orders != [] {
      var init, o := orders[..|orders| - 1], orders[|orders| - 1];
      assert orders == init + [o];
      AggregateTotal(init);
      TotalUnservedQtyAppend(init, o);
      if o.served == Unserved {
        AddPlatesSum(AggregateUnserved(init), o.itemName, o.qty);
      }
    }
  }

  /** In rows with distinct names, the lookup by a row's name finds that row. */
  lemma {:induction false} PlatesOfDistinct(rows: seq<PlateRow>, i: int)
    requires DistinctNames(rows)
    requires 0 <= i < |rows|
    ensures PlatesOf(rows, rows[i].itemName) == rows[i].plates
  {
    if i > 0 {
      assert rows[0].itemName != rows[i].itemName;
      assert rows[1..][i - 1] == rows[i];
      PlatesOfDistinct(rows[1..], i - 1);
    }
  }

  /** Every row of the result: its name is carried by some unserved order,
      and its plates are the sum of `qty` over the unserved orders of that
      name, whatever their item ids. */
  lemma AggregateRow(orders: seq<Order>, i: int)
    requires 0 <= i < |AggregateUnserved(orders)|
    ensures var row := AggregateUnserved(orders)[i];
            row.itemName in UnservedNames(orders) && row.plates == UnservedQty(orders, row.itemName)
  {
    var rows := AggregateUnserved(orders);
    AggregateDistinct(orders);
    AggregateNames(orders);
    assert rows[i] in rows;
    PlatesOfDistinct(rows, i);
    AggregatePlates(orders, rows[i].itemName);
  }

  /** Served orders contribute nothing: the query over the whole table
      equals the query over its unserved orders alone. */
  lemma {:induction false} AggregateIgnoresServed(orders: seq<Order>)
    ensures AggregateUnserved(orders) == AggregateUnserved(UnservedOrders(orders))
  {
    if orders != [] {
      var init, o := orders[..|orders| - 1], orders[|orders| - 1];
      assert orders == init + [o];
      AggregateIgnoresServed(init);
      UnservedOrdersAppend(init, o);
      var u := UnservedOrders(init);
      if o.served == Unserved {
        assert (u + [o])[..|u + [o]| - 1] == u;
      } else {
        assert u + [] == u;
      }
    }
  }

  /** The grouping reads only `item_name`, `qty` and `served`: changing the
      item ids (or any other column) of the orders changes nothing, so
      orders for distinct menu items that share a name are merged. */
  lemma {:induction false} AggregateKeysOnName(a: seq<Order>, b: seq<Order>)
    requires SameQueryColumns(a, b)
    ensures AggregateUnserved(a) == AggregateUnserved(b)
  {
    if a != [] {
      var n := |a| - 1;
      assert SameQueryColumns(a[..n], b[..n]);
      AggregateKeysOnName(a[..n], b[..n]);
    }
  }

  /** Placing an unserved order raises the group of its name by its
      quantity and leaves every other group as it was. */
  lemma AggregateAfterOrder(orders: seq<Order>, o: Order, n: Option<string>)
    requires o.served == Unserved
    ensures PlatesOf(AggregateUnserved(orders + [o]), n)
         == PlatesOf(AggregateUnserved(orders), n) + (if n == o.itemName then o.qty else 0)
    ensures Names(AggregateUnserved(orders + [o])) == Names(AggregateUnserved(orders)) + {o.itemName}
  {
    assert (orders + [o])[..|orders + [o]| - 1] == orders;
    AddPlatesPlates(AggregateUnserved(orders), o.itemName, o.qty, n);
    AddPlatesNames(AggregateUnserved(orders), o.itemName, o.qty);
  }

  /** Two unserved orders of 2 and 3 plates for different menu items that are
      both named "Dosa" come out as a single group of 5 plates; a served
      order of the same name adds nothing. */
  lemma DosaOrdersMerge()
    ensures AggregateUnserved([
              Order("o1", "m1", Some("Dosa"), 2, "T1", Unserved),
              Order("o2", "m2", Some("Dosa"), 3, "T2", Unserved),
              Order("o3", "m1", Some("Dosa"), 4, "T3", 1)])
         == [PlateRow(Some("Dosa"), 5)]
  {
    var a := Order("o1", "m1", Some("Dosa"), 2, "T1", Unserved);
    var b := Order("o2", "m2", Some("Dosa"), 3, "T2", Unserved);
    var c := Order("o3", "m1", Some("Dosa"), 4, "T3", 1);
    assert [a, b, c][..2] == [a, b];
    assert [a, b][..1] == [a];
    assert [a][..0] == [];
    assert AggregateUnserved([a]) == [PlateRow(Some("Dosa"), 2)];
    assert AggregateUnserved([a, b]) == [PlateRow(Some("Dosa"), 5)];
  }
}
