/** The two tables of the restaurant database: one row type per table, the
    column defaults, and the outcomes a write can fail with. */
module Schema {
  import opened Wrappers

  /** A row of `menu`. `name` is `None` when the request omitted it: the
      column then holds NULL, since nothing checks it is present. */
  datatype MenuItem = MenuItem(
    id: string,
    name: Option<string>,
    description: string,
    price: real,
    rating: real)

  /** A row of `orders`. `itemName` is the menu item's name copied at the
      moment the order was placed; `itemId` is not a live reference. */
  datatype Order = Order(
    id: string,
    itemId: string,
    itemName: Option<string>,
    qty: int,
    tableNo: string,
    served: int)

  datatype Error =
    | InvalidItem    // the order names no existing menu item (HTTP 400)
    | StorageError   // the INSERT was refused: its id is already a key (HTTP 500)

  /** Defaults filled in by the two POST handlers and by the schema. */
  const DefaultDescription: string := ""
  const DefaultPrice: real := 0.0
  const DefaultRating: real := 0.0
  const DefaultTable: string := "Takeaway"
  const DefaultQty: int := 1
  const Unserved: int := 0

  /** Each menu row is stored under its own id (the PRIMARY KEY). */
  ghost predicate MenuKeyed(menu: map<string, MenuItem>) {
    forall k :: k in menu ==> menu[k].id == k
  }

  /** No two order rows share an id (the PRIMARY KEY). */
  ghost predicate DistinctOrderIds(orders: seq<Order>) {
    forall i, j :: 0 <= i < j < |orders| ==> orders[i].id != orders[j].id
  }

  /** The ids present in the orders table. */
  function OrderIds(orders: seq<Order>): (ids: set<string>)
    ensures forall i :: 0 <= i < |orders| ==> orders[i].id in ids
    ensures forall id :: id in ids ==> exists i :: 0 <= i < |orders| && orders[i].id == id
  {
    set o | o in orders :: o.id
  }

  /** Appending a row to a table whose ids are distinct keeps them distinct
      exactly when the new row's id is not already a key: the PRIMARY KEY
      admits the INSERT of a fresh id and refuses a duplicate. */
  lemma AppendOrderKeepsKeys(orders: seq<Order>, o: Order)
    requires DistinctOrderIds(orders)
    ensures DistinctOrderIds(orders + [o]) <==> o.id !in OrderIds(orders)
  {
    if o.id in OrderIds(orders) {
      var i :| 0 <= i < |orders| && orders[i].id == o.id;
      assert (orders + [o])[i].id == (orders + [o])[|orders|].id;
    }
  }
}
