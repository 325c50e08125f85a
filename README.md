# Harsha Hotel — verified model of the restaurant data layer

Harsha Hotel is a small restaurant ordering server. It has a `menu` table of dishes and an `orders` table of placed orders. Five HTTP handlers read and write them:

- list the menu;
- add a menu item;
- place an order;
- list the orders;
- a kitchen view that totals the plates still to be served, per dish name.

This project models those tables and handlers in Dafny and proves what each handler does to them.

- `wrappers.dfy` (module `Wrappers`): `Option` for request fields that may be omitted, and `Result` for a handler's outcome.
- `schema.dfy` (module `Schema`): the row types `MenuItem` and `Order`, and the default values.
  - The handlers fill in `""`, `0` and `0` for an omitted description, price and rating (harsha-hotel.js:49), and `"Takeaway"` and `1` for an omitted table and quantity (harsha-hotel.js:63).
  - The schema's only column default is `served = 0` (harsha-hotel.js:34).
  - It also holds the two outcomes a write can fail with: `InvalidItem` (HTTP 400) and `StorageError` (HTTP 500, a refused INSERT).
  - And the PRIMARY KEY constraints, written as predicates.
- `aggregate.dfy` (module `Aggregate`): the query `SELECT item_name, SUM(qty) AS plates FROM orders WHERE served=0 GROUP BY item_name`.
  - It is written as a fold, `AggregateUnserved`.
  - Beside it are independent reference definitions: the sum of `qty` per name, the set of names of unserved orders, and the total quantity.
  - Lemmas prove that the fold agrees with the reference definitions.
- `store.dfy` (module `Hotel`): class `Store` holds the two tables as fields, `menu: map<string, MenuItem>` keyed by id and `orders: seq<Order>` in insertion order.
  - Each handler is a method. The two POST handlers `modifies this`, and the three GET handlers change nothing.
  - `Valid()` is the pair of PRIMARY KEY constraints, and every write preserves it.
  - Three client methods state the repeatable-read property and two concrete scenarios.

Fields of a JSON request body are `Option`s: `None` means the field was omitted. The code has these consequences, and the model follows it:

- An omitted `name` is stored as NULL, because nothing checks that it is present. So `MenuItem.name` and `Order.itemName` are `Option<string>`.
  - The aggregation groups all NULL names together, as SQL `GROUP BY` does.
- An omitted `item_id` binds NULL to `WHERE id=?`. That finds no row, so the result is "Invalid item".
- `qty` is not validated. Zero or negative quantities are stored and summed as given.

Ids that the server draws at random are parameters of the methods. If an id is already a key, the INSERT fails with `StorageError` and the table is unchanged.

## Model

| member | source | states |
|---|---|---|
| Hotel.Store.constructor | harsha-hotel.js:20-35 | a new database has both tables, both empty, and satisfies the PRIMARY KEY constraints |
| Hotel.Store.ListMenu | harsha-hotel.js:43-45 | returns exactly the rows of `menu` and writes nothing |
| Hotel.Store.AddMenuItem | harsha-hotel.js:48-59 | a fresh id: returns that id, and the menu gains exactly one row under it, with the given name (NULL if omitted) and description/price/rating defaulting to ""/0/0; a duplicate id (PRIMARY KEY, line 22): StorageError and the menu is unchanged; orders are never touched; both key constraints are preserved |
| Hotel.Store.PlaceOrder | harsha-hotel.js:62-76 | an omitted or unknown item id: "Invalid item" and no order; a known item with a duplicate order id (line 29): StorageError and no order; otherwise exactly one order is appended, carrying the argument item id, the menu name at call time, qty (1 if omitted), table ("Takeaway" if omitted) and served = 0 (line 34); the menu is never touched |
| Hotel.Store.ListOrders | harsha-hotel.js:79-81 | returns every order row, served or not, in table order, and writes nothing |
| Hotel.Store.AggregatedPlates | harsha-hotel.js:84-90 | the result is the grouping fold over the orders; names are distinct; the set of names is exactly the names of the unserved orders; each row's plates is the qty sum of the unserved orders of that name; the plates add up to the total unserved qty |
| Hotel.RepeatedListsAgree | harsha-hotel.js:43-81 | two reads of the menu and of the orders with no write in between return identical rows, equal to the tables |
| Hotel.DosaScenario | harsha-hotel.js:48-90 | adding "Dosa" as m1 and ordering it for table T3 without qty gives the order (o1, m1, "Dosa", 1, "T3", 0) and the single aggregate row ("Dosa", 1) |
| Hotel.InvalidItemScenario | harsha-hotel.js:62-65 | ordering the unknown item "nonexistent" yields InvalidItem, and the orders table stays empty |
| Schema.AppendOrderKeepsKeys | harsha-hotel.js:29 | in an orders table with distinct ids, appending a row keeps the ids distinct if and only if its id is not already a key: PRIMARY KEY admits a fresh id and refuses a duplicate |
| Aggregate.AggregateDistinct | harsha-hotel.js:86 | GROUP BY item_name: no item name appears in two result rows |
| Aggregate.AggregatePlates | harsha-hotel.js:86 | for every name, the plates of its group equal the sum of qty over exactly the orders with served = 0 and that name (0 when there is none) |
| Aggregate.AggregateNames | harsha-hotel.js:86 | a name has a result row if and only if at least one order with served = 0 carries it |
| Aggregate.AggregateRow | harsha-hotel.js:86 | every result row names some unserved order's item name, and its plates are the qty sum of the unserved orders of that name |
| Aggregate.AggregateTotal | harsha-hotel.js:86 | the plates of all rows add up to the qty sum of all unserved orders |
| Aggregate.AggregateIgnoresServed | harsha-hotel.js:86 | WHERE served=0: orders with served ≠ 0 contribute nothing; the result over the table equals the result over its unserved orders alone |
| Aggregate.AggregateKeysOnName | harsha-hotel.js:86 | the result depends only on item_name, qty and served; orders with different item ids but the same name group together |
| Aggregate.AggregateAfterOrder | harsha-hotel.js:62-90 | appending an unserved order raises its name's group by its qty (creating the group if needed) and leaves every other group unchanged |
| Aggregate.DosaOrdersMerge | harsha-hotel.js:86 | unserved orders of 2 and 3 plates for two different items named "Dosa" give the single row ("Dosa", 5); a served order of that name adds nothing |

## Left out

- HTTP plumbing (routing, body parsing, CORS, status codes, JSON responses, `app.listen`, harsha-hotel.js:7-16, 204-207). Only each handler's outcome is modelled: the new id, `InvalidItem`, or `StorageError`.
- The SQLite engine, the `harsha.db` file and persistence across restarts (harsha-hotel.js:19-20). The tables are in-memory fields, and the constructor starts from empty tables.
  - Callback asynchrony is not modelled. Each handler is one atomic step.
- Storage failures other than a duplicate key (I/O errors, a failing `SELECT`) are not modelled. In the source, a failed lookup in the order handler also answers "Invalid item".
- `uid()` (harsha-hotel.js:38) uses `Math.random` and base-36 formatting. Ids are taken as parameters instead.
- The embedded HTML page and its browser script (harsha-hotel.js:93-201). This covers rendering, the `rating>=4` filter and the client-side presence checks.
- JSON values other than "present with the expected type" or "omitted" are not modelled. For example, an explicit `null` field bypasses the JavaScript defaults, and a non-integer `qty` would be stored as sent.
- Price and rating stay opaque `real` values, stored and returned unchanged. The server does no arithmetic on them.
- The row order of `SELECT *` and of `GROUP BY` is not modelled. SQL leaves both unspecified. `ListMenu` returns the menu as a map keyed by id. `AggregateUnserved` lists groups in order of first occurrence.
- `SUM` over 64-bit integers can overflow in SQLite, which reports an error. Quantities here are unbounded integers.
- Nothing checks that `name` is present or that `qty` is positive (harsha-hotel.js:49, 63). The model accepts both as given.
