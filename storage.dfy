/**
 * The SQLite database the back end works on, as in-memory tables: the orders
 * table, the three catalog tables, and the LEFT JOIN view that every order
 * listing selects (`o.*, m.name AS machine_name, mt.name AS machine_type_name,
 * mst.name AS machine_subtype_name`). The row lists are in rowid
 * order, which is the order SQLite scans the tables in.
 */
module Storage {
  import opened Values
  import opened Seqs
  import opened CatalogModel

  /**
   * One row of `orders`, holding every column that some version of the schema
   * declares (the two back-end trees and their schemas disagree on
   * `quantity`, `payment_type`, `note`, `phone`, `customer_name` and the timestamps).
   */
  datatype OrderRow = OrderRow(
    date: Cell,
    machineId: Cell,
    machineTypeId: Cell,
    machineSubtypeId: Cell,
    quantity: Cell,
    source: Cell,
    paymentType: Cell,
    price: Cell,
    costOfGood: Cell,
    purchaseLocation: Cell,
    shippingCost: Cell,
    note: Cell,
    phone: Cell,
    customerName: Cell,
    createdAt: Cell,
    updatedAt: Cell)

  /**
   * The values an INSERT gives the columns it does not name: `quantity
   * DEFAULT 1`, the timestamps `DEFAULT CURRENT_TIMESTAMP` (`now`), NULL elsewhere.
   */
  function Defaults(now: Cell): OrderRow {
    OrderRow(SqlNull, SqlNull, SqlNull, SqlNull, SqlInt(1), SqlNull, SqlNull, SqlNull,
             SqlNull, SqlNull, SqlNull, SqlNull, SqlNull, SqlNull, now, now)
  }

  class OrderTable {
    /** The rows, by id. */
    var rows: map<int, OrderRow>
    /** The AUTOINCREMENT counter. */
    var nextId: int

    ghost predicate Valid()
      reads this
    {
      1 <= nextId && forall id :: id in rows ==> 1 <= id < nextId
    }

    constructor()
      ensures Valid()
      ensures rows == map[] && nextId == 1
    {
      rows := map[];
      nextId := 1;
    }

    /** `INSERT INTO orders ...`: stores `row` under a fresh id, `lastID`. */
    method Insert(row: OrderRow) returns (id: int)
      requires Valid()
      modifies this
      ensures Valid()
      ensures id == old(nextId) && id !in old(rows)
      ensures rows == old(rows)[id := row] && nextId == old(nextId) + 1
    {
      id := nextId;
      rows := rows[id := row];
      nextId := nextId + 1;
    }

    /**
     * `UPDATE orders SET ... WHERE id = ?`: `assign` is what the SET list does
     * to a row. Reports `changes`, 1 or 0.
     */
    method Update(id: int, assign: OrderRow -> OrderRow) returns (changes: nat)
      requires Valid()
      modifies this
      ensures Valid() && nextId == old(nextId)
      ensures id in old(rows) ==> changes == 1 && rows == old(rows)[id := assign(old(rows)[id])]
      ensures id !in old(rows) ==> changes == 0 && rows == old(rows)
    {
      if id in rows {
        rows := rows[id := assign(rows[id])];
        changes := 1;
      } else {
        changes := 0;
      }
    }

    /** `DELETE FROM orders WHERE id = ?`. Reports `changes`, 1 or 0. */
    method Delete(id: int) returns (changes: nat)
      requires Valid()
      modifies this
      ensures Valid() && nextId == old(nextId)
      ensures id in old(rows) ==> changes == 1 && rows == old(rows) - {id}
      ensures id !in old(rows) ==> changes == 0 && rows == old(rows)
    {
      if id in rows {
        rows := rows - {id};
        changes := 1;
      } else {
        changes := 0;
      }
    }
  }

  /** The database: the orders table and the three catalog tables, all distinct objects. */
  class Database {
    const orders: OrderTable
    const machines: NameTable
    const machineTypes: NameTable
    const machineSubtypes: NameTable

    ghost predicate Valid()
      reads this, orders, machines, machineTypes, machineSubtypes
    {
      machines != machineTypes && machines != machineSubtypes && machineTypes != machineSubtypes &&
      orders.Valid() && machines.Valid() && machineTypes.Valid() && machineSubtypes.Valid()
    }

    constructor()
      ensures Valid()
      ensures fresh(orders) && fresh(machines) && fresh(machineTypes) && fresh(machineSubtypes)
      ensures orders.rows == map[] && machines.names == map[]
      ensures machineTypes.names == map[] && machineSubtypes.names == map[]
    {
      orders := new OrderTable();
      machines := new NameTable();
      machineTypes := new NameTable();
      machineSubtypes := new NameTable();
    }

    /** Every order joined with its parents' names, in rowid order. */
    function Joined(): (r: seq<OrderView>)
      requires Valid()
      reads this, orders, machines, machineTypes, machineSubtypes
    {
      JoinedRows(orders.rows, orders.nextId, machines.names, machineTypes.names, machineSubtypes.names)
    }

    /** The joined view of the order with that id, if any. */
    function JoinedById(id: int): (r: Option<OrderView>)
      reads this, orders, machines, machineTypes, machineSubtypes
    {
      if id in orders.rows
      then Some(ViewOf(id, orders.rows[id], machines.names, machineTypes.names, machineSubtypes.names))
      else None
    }
  }

  // ---------------------------------------------------------------------------
  // The LEFT JOIN view
  // ---------------------------------------------------------------------------

  /** An order row with the names of its machine, machine type and machine subtype. */
  datatype OrderView = OrderView(
    id: int,
    row: OrderRow,
    machineName: Cell,
    machineTypeName: Cell,
    machineSubtypeName: Cell)

  /** `LEFT JOIN parent p ON fk = p.id`, `p.name`: the parent's name, NULL when no parent row matches. */
  function JoinName(parent: map<int, Cell>, fk: Cell): Cell {
    if fk.SqlInt? && fk.i in parent then parent[fk.i] else SqlNull
  }

  function ViewOf(id: int, row: OrderRow, machines: map<int, Cell>, types: map<int, Cell>,
                  subtypes: map<int, Cell>): OrderView
  {
    OrderView(id, row, JoinName(machines, row.machineId), JoinName(types, row.machineTypeId),
              JoinName(subtypes, row.machineSubtypeId))
  }

  /**
   * The three LEFT JOINs over a scan of `orders`: every order appears once,
   * in rowid order, whether or not its parents exist.
   */
  function JoinedRows(orders: map<int, OrderRow>, nextId: int, machines: map<int, Cell>,
                      types: map<int, Cell>, subtypes: map<int, Cell>): (r: seq<OrderView>)
    requires forall id :: id in orders ==> 1 <= id < nextId
    ensures forall i :: 0 <= i < |r| ==> r[i].id in orders && r[i] == ViewOf(r[i].id, orders[r[i].id], machines, types, subtypes)
    ensures forall id :: id in orders ==> exists i :: 0 <= i < |r| && r[i].id == id
    ensures forall i, j :: 0 <= i < j < |r| ==> r[i].id < r[j].id
  {
    var ids := Ascending(orders.Keys, 1, nextId);
    ScanIdsPresent(orders, nextId);
    var r := ViewsOf(orders, ids, machines, types, subtypes);
    ScanCovers(orders, nextId, r);
    r
  }

  /** The view of each of `ids`, in order. */
  function ViewsOf(orders: map<int, OrderRow>, ids: seq<int>, machines: map<int, Cell>,
                   types: map<int, Cell>, subtypes: map<int, Cell>): (r: seq<OrderView>)
    requires forall i :: 0 <= i < |ids| ==> ids[i] in orders
    ensures |r| == |ids|
    ensures forall i :: 0 <= i < |r| ==> r[i].id == ids[i] && r[i] == ViewOf(ids[i], orders[ids[i]], machines, types, subtypes)
  {
    if ids == [] then []
    else [ViewOf(ids[0], orders[ids[0]], machines, types, subtypes)] + ViewsOf(orders, ids[1..], machines, types, subtypes)
  }

  lemma ScanIdsPresent(orders: map<int, OrderRow>, nextId: int)
    ensures var ids := Ascending(orders.Keys, 1, nextId); forall i :: 0 <= i < |ids| ==> ids[i] in orders
  {
    var ids := Ascending(orders.Keys, 1, nextId);
    forall i | 0 <= i < |ids| ensures ids[i] in orders {
      assert ids[i] in ids;
    }
  }

  /** Views built one per scanned id hold a view of every row. */
  lemma ScanCovers(orders: map<int, OrderRow>, nextId: int, r: seq<OrderView>)
    requires forall id :: id in orders ==> 1 <= id < nextId
    requires var ids := Ascending(orders.Keys, 1, nextId);
      |r| == |ids| && forall i :: 0 <= i < |r| ==> r[i].id == ids[i]
    ensures forall id :: id in orders ==> exists i :: 0 <= i < |r| && r[i].id == id
  {
    var ids := Ascending(orders.Keys, 1, nextId);
    forall id | id in orders ensures exists i :: 0 <= i < |r| && r[i].id == id {
      assert id in ids;
      var k :| 0 <= k < |ids| && ids[k] == id;
      assert r[k].id == id;
    }
  }

  /** A LEFT JOIN keeps an order whose parent is missing and gives it a NULL name. */
  lemma LeftJoinKeepsOrphans(orders: map<int, OrderRow>, nextId: int, machines: map<int, Cell>,
                             types: map<int, Cell>, subtypes: map<int, Cell>, id: int)
    requires forall k :: k in orders ==> 1 <= k < nextId
    requires id in orders && orders[id].machineId.SqlInt? && orders[id].machineId.i !in machines
    ensures exists v :: v in JoinedRows(orders, nextId, machines, types, subtypes) && v.id == id && v.machineName == SqlNull
  {
    var r := JoinedRows(orders, nextId, machines, types, subtypes);
    var i :| 0 <= i < |r| && r[i].id == id;
    assert r[i] in r;
  }

  // ---------------------------------------------------------------------------
  // ORDER BY o.date DESC
  // ---------------------------------------------------------------------------

  /** `a` may come before `b` under `ORDER BY o.date DESC`. */
  predicate DateDesc(a: OrderView, b: OrderView) {
    CellLe(b.row.date, a.row.date)
  }

  lemma DateDescTotalPreorder()
    ensures TotalPreorder(DateDesc)
  {
    forall a: OrderView, b: OrderView ensures DateDesc(a, b) || DateDesc(b, a) {
      CellLeTotal(a.row.date, b.row.date);
    }
    forall a: OrderView, b: OrderView, c: OrderView | DateDesc(a, b) && DateDesc(b, c)
      ensures DateDesc(a, c)
    {
      CellLeTransitive(c.row.date, b.row.date, a.row.date);
    }
  }

  /**
   * `ORDER BY o.date DESC` over a scan: the same rows, latest date first. Rows
   * with equal dates keep their scan order (SQLite leaves that order open; a
   * stable sort is one of the orders it may produce).
   */
  function OrderByDateDesc(views: seq<OrderView>): (r: seq<OrderView>)
    ensures multiset(r) == multiset(views)
    ensures SortedBy(r, DateDesc)
  {
    DateDescTotalPreorder();
    SortBySorted(views, DateDesc);
    SortBy(views, DateDesc)
  }
}
