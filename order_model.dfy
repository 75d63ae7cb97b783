/**
 * The order model `sg-be/models/order.js`: a joined listing, a joined lookup,
 * and insert/update/delete of ten order fields, with no validation of their own.
 */
module OrderModel {
  import opened Values
  import opened Seqs
  import opened Storage

  /** The ten fields `createOrder` and `updateOrder` destructure from their argument. */
  datatype OrderFields = OrderFields(
    date: Json,
    machineId: Json,
    machineTypeId: Json,
    machineSubtypeId: Json,
    source: Json,
    price: Json,
    costOfGood: Json,
    shippingCost: Json,
    purchaseLocation: Json,
    note: Json)

  /** `base` with the ten columns bound from `f`; every other column kept. */
  function WithFields(base: OrderRow, f: OrderFields): OrderRow {
    base.(date := Bind(f.date), machineId := Bind(f.machineId), machineTypeId := Bind(f.machineTypeId),
          machineSubtypeId := Bind(f.machineSubtypeId), source := Bind(f.source), price := Bind(f.price),
          costOfGood := Bind(f.costOfGood), shippingCost := Bind(f.shippingCost),
          purchaseLocation := Bind(f.purchaseLocation), note := Bind(f.note))
  }

  /** What `createOrder` and `updateOrder` resolve with: `{ id, ...order }`. */
  datatype Saved = Saved(id: int, order: OrderFields)

  /** `getAllOrders`: every order with its parents' names, latest date first. */
  function GetAllOrders(db: Database): (r: seq<OrderView>)
    requires db.Valid()
    reads db, db.orders, db.machines, db.machineTypes, db.machineSubtypes
    ensures multiset(r) == multiset(db.Joined())
    ensures SortedBy(r, DateDesc)
  {
    OrderByDateDesc(db.Joined())
  }

  /** `getOrderById`: the joined row with that id, or `undefined` (`None`). */
  function GetOrderById(db: Database, id: int): (r: Option<OrderView>)
    reads db, db.orders, db.machines, db.machineTypes, db.machineSubtypes
    ensures r.Some? <==> id in db.orders.rows
    ensures r.Some? ==> r.value.id == id && r.value.row == db.orders.rows[id]
    ensures r.Some? ==> r.value.machineName == JoinName(db.machines.names, r.value.row.machineId)
    ensures r.Some? ==> r.value.machineTypeName == JoinName(db.machineTypes.names, r.value.row.machineTypeId)
    ensures r.Some? ==> r.value.machineSubtypeName == JoinName(db.machineSubtypes.names, r.value.row.machineSubtypeId)
  {
    db.JoinedById(id)
  }

  /** The listing holds each order exactly when the lookup by its id finds it. */
  lemma {:induction false} ListingAgreesWithLookup(db: Database, v: OrderView)
    requires db.Valid()
    ensures v in GetAllOrders(db) <==> GetOrderById(db, v.id) == Some(v)
  {
    var joined := db.Joined();
    assert v in GetAllOrders(db) <==> v in joined by {
      assert v in multiset(GetAllOrders(db)) <==> v in multiset(joined);
    }
    if v in joined {
      var i :| 0 <= i < |joined| && joined[i] == v;
    }
    if GetOrderById(db, v.id) == Some(v) {
      var i :| 0 <= i < |joined| && joined[i].id == v.id;
    }
  }

  /** A missing parent gives a NULL name and the order is still listed (LEFT JOIN). */
  lemma {:induction false} ListingKeepsOrphans(db: Database, id: int)
    requires db.Valid()
    requires id in db.orders.rows
    requires db.orders.rows[id].machineId.SqlInt? && db.orders.rows[id].machineId.i !in db.machines.names
    ensures exists v :: v in GetAllOrders(db) && v.id == id && v.machineName == SqlNull
  {
    var v := GetOrderById(db, id).value;
    ListingAgreesWithLookup(db, v);
  }

  /** `createOrder`: one new row holding the ten fields; resolves with the fresh id and the input. */
  method CreateOrder(db: Database, order: OrderFields, now: Cell) returns (saved: Saved)
    requires db.Valid()
    modifies db.orders
    ensures db.Valid()
    ensures saved.order == order && saved.id == old(db.orders.nextId) && saved.id !in old(db.orders.rows)
    ensures db.orders.rows == old(db.orders.rows)[saved.id := WithFields(Defaults(now), order)]
  {
    var id := db.orders.Insert(WithFields(Defaults(now), order));
    saved := Saved(id, order);
  }

  /**
   * `updateOrder`: overwrites the ten fields and `updated_at` of the row with
   * that id. It does not look at `changes`, so it resolves `{ id, ...order }`
   * whether or not a row matched.
   */
  method UpdateOrder(db: Database, id: int, order: OrderFields, now: Cell) returns (saved: Saved)
    requires db.Valid()
    modifies db.orders
    ensures db.Valid() && db.orders.nextId == old(db.orders.nextId)
    ensures saved == Saved(id, order)
    ensures id in old(db.orders.rows) ==>
      db.orders.rows == old(db.orders.rows)[id := WithFields(old(db.orders.rows)[id], order).(updatedAt := now)]
    ensures id !in old(db.orders.rows) ==> db.orders.rows == old(db.orders.rows)
  {
    var _ := db.orders.Update(id, row => WithFields(row, order).(updatedAt := now));
    saved := Saved(id, order);
  }

  /** `deleteOrder`: removes the row with that id, if any, and resolves `{ id }` regardless. */
  method DeleteOrder(db: Database, id: int) returns (deleted: int)
    requires db.Valid()
    modifies db.orders
    ensures db.Valid() && db.orders.nextId == old(db.orders.nextId)
    ensures deleted == id
    ensures db.orders.rows == old(db.orders.rows) - {id}
  {
    var _ := db.orders.Delete(id);
    deleted := id;
  }

  /** After `createOrder`, `getOrderById` finds the stored fields under the returned id. */
  method CreateThenGetOrder(db: Database, order: OrderFields, now: Cell) returns (found: Option<OrderView>)
    requires db.Valid()
    modifies db.orders
    ensures db.Valid()
    ensures found.Some? && found.value.row == WithFields(Defaults(now), order)
    ensures found.value.row.date == Bind(order.date) && found.value.row.price == Bind(order.price)
  {
    var saved := CreateOrder(db, order, now);
    found := GetOrderById(db, saved.id);
  }
}
