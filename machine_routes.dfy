/**
 * The machine routes of `sg-be/src/routes/machines.js`: a listing, a create,
 * and a delete that refuses while orders still reference the machine and
 * then lists those orders.
 */
module MachineRoutes {
  import opened Values
  import opened Seqs
  import opened CatalogModel
  import opened Storage

  /** An entry of `referencedOrders`: `{ id, date }` of an order. */
  datatype OrderRef = OrderRef(id: int, date: Cell)

  /** The reply bodies these routes send. */
  datatype Body =
    | Machines(rows: seq<NameRow>)
    | Error(error: string)
    | Created(id: int, name: Json)
    | Referenced(error: string, referencedOrders: seq<OrderRef>)
    | Deleted(message: string, deletedMachine: NameRow)

  /** `GET /`: `SELECT * FROM machines`, by ascending id. */
  function ListMachines(db: Database): (reply: Reply<Body>)
    requires db.Valid()
    reads db, db.orders, db.machines, db.machineTypes, db.machineSubtypes
    ensures reply.status == 200 && reply.body.Machines?
    ensures forall row :: row in reply.body.rows <==> row.id in db.machines.names && db.machines.names[row.id] == row.name
  {
    Reply(200, Machines(db.machines.GetAll()))
  }

  /** `POST /`: 400 for a falsy name, else a new machine and 200 (not 201) with `{ id, name }`. */
  method CreateMachine(db: Database, name: Json) returns (reply: Reply<Body>)
    requires db.Valid()
    modifies db.machines
    ensures db.Valid()
    ensures !Truthy(name) ==>
      reply == Reply(400, Error("Name is required")) && db.machines.names == old(db.machines.names) &&
      db.machines.nextId == old(db.machines.nextId)
    ensures Truthy(name) ==>
      reply == Reply(200, Created(old(db.machines.nextId), name)) &&
      old(db.machines.nextId) !in old(db.machines.names) &&
      db.machines.names == old(db.machines.names)[old(db.machines.nextId) := Bind(name)]
  {
    if !Truthy(name) {
      return Reply(400, Error("Name is required"));
    }
    var id := db.machines.Create(Bind(name));
    reply := Reply(200, Created(id.value, name));
  }

  /** `o` is `{ id, date }` of an order of `orders` whose `machine_id` is `mid`. */
  predicate RefersTo(orders: map<int, OrderRow>, mid: int, o: OrderRef) {
    o.id in orders && orders[o.id].machineId == SqlInt(mid) && o.date == orders[o.id].date
  }

  /** The ids of the orders whose `machine_id` is `mid`, ascending. */
  function HitIds(orders: map<int, OrderRow>, nextId: int, mid: int): (r: seq<int>)
    requires forall k :: k in orders ==> 1 <= k < nextId
    ensures forall k :: k in r <==> k in orders && orders[k].machineId == SqlInt(mid)
    ensures forall i, j :: 0 <= i < j < |r| ==> r[i] < r[j]
  {
    var ids := Ascending(orders.Keys, 1, nextId);
    var hits := Filter(ids, (k: int) => k in orders && orders[k].machineId == SqlInt(mid));
    SubseqRanked(hits, ids, (k: int) => k);
    forall k | k in orders && orders[k].machineId == SqlInt(mid) ensures k in hits {
      assert k in ids;
      var j :| 0 <= j < |ids| && ids[j] == k;
    }
    hits
  }

  /**
   * `SELECT id, date FROM orders WHERE machine_id = ?` over a scan in rowid
   * order: `{ id, date }` of each hit, in the order of the hits.
   */
  function ReferencingOrders(db: Database, mid: int): (r: seq<OrderRef>)
    requires db.orders.Valid()
    reads db, db.orders
    ensures var hits := HitIds(db.orders.rows, db.orders.nextId, mid);
      |r| == |hits| && forall i :: 0 <= i < |r| ==> r[i].id == hits[i] && r[i].date == db.orders.rows[hits[i]].date
  {
    HitsPresent(db.orders.rows, db.orders.nextId, mid);
    RefsOf(db.orders.rows, HitIds(db.orders.rows, db.orders.nextId, mid))
  }

  /** `{ id, date }` of each of `ids`, in order. */
  function RefsOf(rows: map<int, OrderRow>, ids: seq<int>): (r: seq<OrderRef>)
    requires forall i :: 0 <= i < |ids| ==> ids[i] in rows
    ensures |r| == |ids| && forall i :: 0 <= i < |r| ==> r[i].id == ids[i] && r[i].date == rows[ids[i]].date
  {
    if ids == [] then []
    else [OrderRef(ids[0], rows[ids[0]].date)] + RefsOf(rows, ids[1..])
  }

  lemma HitsPresent(orders: map<int, OrderRow>, nextId: int, mid: int)
    requires forall k :: k in orders ==> 1 <= k < nextId
    ensures var hits := HitIds(orders, nextId, mid); forall i :: 0 <= i < |hits| ==> hits[i] in orders
  {
    var hits := HitIds(orders, nextId, mid);
    forall i | 0 <= i < |hits| ensures hits[i] in orders {
      assert hits[i] in hits;
    }
  }

  lemma ReferenceOfHit(db: Database, mid: int, o: OrderRef)
    requires db.orders.Valid() && RefersTo(db.orders.rows, mid, o)
    ensures o in ReferencingOrders(db, mid)
  {
    var hits := HitIds(db.orders.rows, db.orders.nextId, mid);
    var i :| 0 <= i < |hits| && hits[i] == o.id;
    assert ReferencingOrders(db, mid)[i] == o;
  }

  lemma HitOfReference(db: Database, mid: int, o: OrderRef)
    requires db.orders.Valid() && o in ReferencingOrders(db, mid)
    ensures RefersTo(db.orders.rows, mid, o)
  {
    var hits := HitIds(db.orders.rows, db.orders.nextId, mid);
    var r := ReferencingOrders(db, mid);
    var i :| 0 <= i < |r| && r[i] == o;
    assert hits[i] in hits;
  }

  /** The references are exactly the orders whose `machine_id` is `mid`, each with its date. */
  lemma ReferencesAreExact(db: Database, mid: int)
    requires db.orders.Valid()
    ensures forall o: OrderRef :: o in ReferencingOrders(db, mid) <==> RefersTo(db.orders.rows, mid, o)
  {
    forall o: OrderRef ensures o in ReferencingOrders(db, mid) <==> RefersTo(db.orders.rows, mid, o) {
      if RefersTo(db.orders.rows, mid, o) {
        ReferenceOfHit(db, mid, o);
      }
      if o in ReferencingOrders(db, mid) {
        HitOfReference(db, mid, o);
      }
    }
  }

  /** The references are listed by ascending order id. */
  lemma ReferencesAscending(db: Database, mid: int)
    requires db.orders.Valid()
    ensures var r := ReferencingOrders(db, mid); forall i, j :: 0 <= i < j < |r| ==> r[i].id < r[j].id
  {
    var hits := HitIds(db.orders.rows, db.orders.nextId, mid);
    var r := ReferencingOrders(db, mid);
    forall i, j | 0 <= i < j < |r| ensures r[i].id < r[j].id {
      assert r[i].id == hits[i] && r[j].id == hits[j];
    }
  }

  /**
   * `DELETE /:id`: 404 when the machine is missing; 400 with the referencing
   * orders when there are any, nothing deleted; else the machine removed and
   * 200 with the row it had.
   */
  method DeleteMachine(db: Database, id: int) returns (reply: Reply<Body>)
    requires db.Valid()
    modifies db.machines
    ensures db.Valid() && db.machines.nextId == old(db.machines.nextId)
    ensures id !in old(db.machines.names) ==>
      reply == Reply(404, Error("Machine not found")) && db.machines.names == old(db.machines.names)
    ensures id in old(db.machines.names) && ReferencingOrders(db, id) != [] ==>
      reply == Reply(400, Referenced("Cannot delete machine because it is referenced by orders",
                                    ReferencingOrders(db, id))) &&
      db.machines.names == old(db.machines.names)
    ensures id in old(db.machines.names) && ReferencingOrders(db, id) == [] ==>
      reply == Reply(200, Deleted("Machine deleted successfully", NameRow(id, old(db.machines.names)[id]))) &&
      db.machines.names == old(db.machines.names) - {id}
  {
    var machine := db.machines.GetById(id);
    if machine.None? {
      return Reply(404, Error("Machine not found"));
    }
    var orders := ReferencingOrders(db, id);
    if |orders| > 0 {
      return Reply(400, Referenced("Cannot delete machine because it is referenced by orders", orders));
    }
    var _ := db.machines.Delete(id);
    reply := Reply(200, Deleted("Machine deleted successfully", machine.value));
  }

  /** A machine that some order names is reported as referenced, with that order among the references. */
  lemma NoOrderLosesItsMachine(db: Database, id: int, oid: int)
    requires db.Valid()
    requires oid in db.orders.rows && db.orders.rows[oid].machineId == SqlInt(id)
    ensures ReferencingOrders(db, id) != []
    ensures OrderRef(oid, db.orders.rows[oid].date) in ReferencingOrders(db, id)
  {
    ReferenceOfHit(db, id, OrderRef(oid, db.orders.rows[oid].date));
  }
}
