/** The server's database handle: the `menu` and `orders` tables and the
    five API handlers that read and write them. Ids that the server would
    draw at random are passed in by the caller. */
module Hotel {
  import opened Wrappers
  import opened Schema
  import opened Aggregate

  class Store {
    /** `menu`, keyed by its PRIMARY KEY `id`. */
    var menu: map<string, MenuItem>
    /** `orders`, in insertion order. */
    var orders: seq<Order>

    /** The PRIMARY KEY constraints of both tables. */
    ghost predicate Valid()
      reads this
    {
      MenuKeyed(menu) && DistinctOrderIds(orders)
    }

    /** A freshly created database: both tables exist and are empty. */
    constructor ()
      ensures Valid()
      ensures menu == map[] && orders == []
    {
      menu := map[];
      orders := [];
    }

    /** GET /api/menu: every menu row; nothing changes. */
    method ListMenu() returns (rows: map<string, MenuItem>)
      ensures rows == menu
    {
      rows := menu;
    }

    /** POST /api/menu. Omitted description, price and rating become "", 0
        and 0; an omitted name is stored as NULL. The row is inserted under
        `id` unless that id is already a key, in which case the INSERT fails
        and nothing changes. The orders table is never touched. */
    method AddMenuItem(id: string, name: Option<string>, description: Option<string>,
                       price: Option<real>, rating: Option<real>)
      returns (r: Result<string, Error>)
      requires Valid()
      modifies this
      ensures Valid()
      ensures orders == old(orders)
      ensures id in old(menu) ==> r == Err(StorageError) && menu == old(menu)
      ensures id !in old(menu) ==>
                r == Ok(id) &&
                menu == old(menu)[id := MenuItem(id, name,
                                                 description.GetOr(DefaultDescription),
                                                 price.GetOr(DefaultPrice),
                                                 rating.GetOr(DefaultRating))]
    {
      if id in menu {
        return Err(StorageError);
      }
      var item := MenuItem(id, name, description.GetOr(DefaultDescription),
                           price.GetOr(DefaultPrice), rating.GetOr(DefaultRating));
      menu := menu[id := item];
      r := Ok(id);
    }

    /** POST /api/orders. The item is looked up first: an omitted or unknown
        item id yields InvalidItem and creates nothing. Otherwise one order is
        appended, carrying the item's current name, `qty` (1 when omitted),
        `tableNo` ("Takeaway" when omitted) and the schema default served = 0,
        unless `id` is already an order key, in which case the INSERT fails
        and nothing changes. The menu is never touched. */
    method PlaceOrder(id: string, itemId: Option<string>, tableNo: Option<string>, qty: Option<int>)
      returns (r: Result<string, Error>)
      requires Valid()
      modifies this
      ensures Valid()
      ensures menu == old(menu)
      ensures (itemId.None? || itemId.value !in old(menu)) ==>
                r == Err(InvalidItem) && orders == old(orders)
      ensures itemId.Some? && itemId.value in old(menu) && id in OrderIds(old(orders)) ==>
                r == Err(StorageError) && orders == old(orders)
      ensures itemId.Some? && itemId.value in old(menu) && id !in OrderIds(old(orders)) ==>
                r == Ok(id) &&
                orders == old(orders) + [Order(id, itemId.value, old(menu)[itemId.value].name,
                                               qty.GetOr(DefaultQty), tableNo.GetOr(DefaultTable),
                                               Unserved)]
    {
      if itemId.None? || itemId.value !in menu {
        return Err(InvalidItem);
      }
      var item := menu[itemId.value];
      if id in OrderIds(orders) {
        return Err(StorageError);
      }
      var order := Order(id, itemId.value, item.name, qty.GetOr(DefaultQty),
                         tableNo.GetOr(DefaultTable), Unserved);
      AppendOrderKeepsKeys(orders, order);
      orders := orders + [order];
      r := Ok(id);
    }

    /** GET /api/orders: every order row, served or not; nothing changes. */
    method ListOrders() returns (rows: seq<Order>)
      ensures rows == orders
    {
      rows := orders;
    }

    /** GET /api/orders/aggregated: one row per item name carried by an
        unserved order, holding the sum of those orders' quantities. */
    method AggregatedPlates() returns (rows: seq<PlateRow>)
      ensures rows == AggregateUnserved(orders)
      ensures DistinctNames(rows)
      ensures Names(rows) == UnservedNames(orders)
      ensures forall i :: 0 <= i < |rows| ==> rows[i].plates == UnservedQty(orders, rows[i].itemName)
      ensures SumPlates(rows) == TotalUnservedQty(orders)
    {
      rows := AggregateUnserved(orders);
      AggregateDistinct(orders);
      AggregateNames(orders);
      AggregateTotal(orders);
      forall i | 0 <= i < |rows|
        ensures rows[i].plates == UnservedQty(orders, rows[i].itemName)
      {
        AggregateRow(orders, i);
      }
    }
  }

  /** Reading the tables twice with no write in between gives the same rows. */
  method RepeatedListsAgree(s: Store) returns (menu1: map<string, MenuItem>, orders1: seq<Order>,
                                               menu2: map<string, MenuItem>, orders2: seq<Order>)
    ensures menu1 == menu2 && orders1 == orders2
    ensures menu1 == s.menu && orders1 == s.orders
  {
    menu1 := s.ListMenu();
    orders1 := s.ListOrders();
    menu2 := s.ListMenu();
    orders2 := s.ListOrders();
  }

  /** Add "Dosa" as m1, order it for table T3 without a quantity, and read the
      kitchen view: one order of qty 1, and one group of 1 plate. */
  method DosaScenario() returns (added: Result<string, Error>, placed: Result<string, Error>,
                                 rows: seq<Order>, plates: seq<PlateRow>)
    ensures added == Ok("m1") && placed == Ok("o1")
    ensures rows == [Order("o1", "m1", Some("Dosa"), 1, "T3", Unserved)]
    ensures plates == [PlateRow(Some("Dosa"), 1)]
  {
    var s := new Store();
    added := s.AddMenuItem("m1", Some("Dosa"), None, Some(50.0), Some(4.5));
    placed := s.PlaceOrder("o1", Some("m1"), Some("T3"), None);
    rows := s.ListOrders();
    plates := s.AggregatedPlates();
  }

  /** Ordering an item that does not exist is refused and leaves the orders
      table empty. */
  method InvalidItemScenario() returns (placed: Result<string, Error>, rows: seq<Order>)
    ensures placed == Err(InvalidItem)
    ensures rows == []
  {
    var s := new Store();
    placed := s.PlaceOrder("o1", Some("nonexistent"), None, None);
    rows := s.ListOrders();
  }
}
