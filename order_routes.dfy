/**
 * The order routes of `sg-be/src/routes/orders.js`: the joined listing, a
 * create guarded by a chain of field checks that reports the first failure,
 * an update whose SET list holds exactly the fields the body provides, and an
 * unconditional delete.
 */
module OrderRoutes {
  import opened Values
  import opened Seqs
  import opened Storage

  /** The reply bodies these routes send. */
  datatype Body =
    | Rows(rows: seq<OrderView>)
    | Error(error: string)
    | Saved(message: string, order: OrderView)
    | Message(message: string)

  /** The fields `POST /` and `PUT /:id` destructure from the request body. */
  datatype OrderBody = OrderBody(
    date: Json,
    machineId: Json,
    machineTypeId: Json,
    machineSubtypeId: Json,
    quantity: Json,
    source: Json,
    paymentType: Json,
    price: Json,
    costOfGood: Json,
    purchaseLocation: Json,
    shippingCost: Json,
    note: Json,
    phone: Json,
    customerName: Json)

  // ---------------------------------------------------------------------------
  // GET /
  // ---------------------------------------------------------------------------

  /** `GET /`: every order joined with its parents' names, latest date first. */
  function ListOrders(db: Database): (reply: Reply<Body>)
    requires db.Valid()
    reads db, db.orders, db.machines, db.machineTypes, db.machineSubtypes
    ensures reply.status == 200 && reply.body.Rows?
    ensures multiset(reply.body.rows) == multiset(db.Joined())
    ensures SortedBy(reply.body.rows, DateDesc)
  {
    Reply(200, Rows(OrderByDateDesc(db.Joined())))
  }

  // ---------------------------------------------------------------------------
  // POST /
  // ---------------------------------------------------------------------------

  /** `isNaN(Number(v)) || Number(v) <= 0` is false: `v` denotes a positive number. */
  predicate PositiveNumber(v: Json) {
    NumberOf(v).Some? && NumberOf(v).value > 0
  }

  /** `shipping_cost !== null && (isNaN(...) || ... < 0)` is false. */
  predicate ShippingCostAccepted(v: Json) {
    v == Null || (NumberOf(v).Some? && NumberOf(v).value >= 0)
  }

  /** The six fields the presence checks require are all truthy. */
  predicate AllPresent(b: OrderBody) {
    Truthy(b.date) && Truthy(b.machineId) && Truthy(b.machineTypeId) && Truthy(b.machineSubtypeId) &&
    Truthy(b.price) && Truthy(b.costOfGood)
  }

  /** What the checks demand of a new order, all at once. */
  predicate Acceptable(b: OrderBody) {
    AllPresent(b) &&
    PositiveNumber(b.price) && PositiveNumber(b.costOfGood) &&
    ShippingCostAccepted(WithDefault(b.shippingCost, Null))
  }

  /** The messages the checks can answer with. */
  const CreateMessages: set<string> := {
    "Date is required", "Machine is required", "Machine type is required", "Machine subtype is required",
    "Price is required", "Cost of good is required", "Price must be a positive number",
    "Cost of good must be a positive number", "Shipping cost must be a non-negative number"}

  /** The checks of `POST /`, in order: the message of the first that fails, if any. */
  function CreateError(b: OrderBody): (r: Option<string>)
    ensures r.None? <==> Acceptable(b)
    ensures r.Some? ==> r.value in CreateMessages
  {
    var shipping := WithDefault(b.shippingCost, Null);
    if !Truthy(b.date) then Some("Date is required")
    else if !Truthy(b.machineId) then Some("Machine is required")
    else if !Truthy(b.machineTypeId) then Some("Machine type is required")
    else if !Truthy(b.machineSubtypeId) then Some("Machine subtype is required")
    else if !Truthy(b.price) then Some("Price is required")
    else if !Truthy(b.costOfGood) then Some("Cost of good is required")
    else if !PositiveNumber(b.price) then Some("Price must be a positive number")
    else if !PositiveNumber(b.costOfGood) then Some("Cost of good must be a positive number")
    else if shipping != Null && !(NumberOf(shipping).Some? && NumberOf(shipping).value >= 0)
    then Some("Shipping cost must be a non-negative number")
    else None
  }

  /**
   * The presence checks come first, in the order date, machine, type,
   * subtype, price, cost of good: the first missing field is the one
   * reported, whatever the later ones hold. A number is judged only once all
   * six are there, the price before the cost of good and both before the
   * shipping cost.
   */
  lemma PresenceBeforeFormat(b: OrderBody)
    ensures !Truthy(b.date) ==> CreateError(b) == Some("Date is required")
    ensures Truthy(b.date) && !Truthy(b.machineId) ==> CreateError(b) == Some("Machine is required")
    ensures Truthy(b.date) && Truthy(b.machineId) && !Truthy(b.machineTypeId) ==>
      CreateError(b) == Some("Machine type is required")
    ensures Truthy(b.date) && Truthy(b.machineId) && Truthy(b.machineTypeId) && !Truthy(b.machineSubtypeId) ==>
      CreateError(b) == Some("Machine subtype is required")
    ensures (Truthy(b.date) && Truthy(b.machineId) && Truthy(b.machineTypeId) && Truthy(b.machineSubtypeId) &&
             !Truthy(b.price)) ==> CreateError(b) == Some("Price is required")
    ensures (Truthy(b.date) && Truthy(b.machineId) && Truthy(b.machineTypeId) && Truthy(b.machineSubtypeId) &&
             Truthy(b.price) && !Truthy(b.costOfGood)) ==> CreateError(b) == Some("Cost of good is required")
    ensures CreateError(b) == Some("Price must be a positive number") <==>
      AllPresent(b) && !PositiveNumber(b.price)
    ensures CreateError(b) == Some("Cost of good must be a positive number") <==>
      AllPresent(b) && PositiveNumber(b.price) && !PositiveNumber(b.costOfGood)
    ensures CreateError(b) == Some("Shipping cost must be a non-negative number") <==>
      AllPresent(b) && PositiveNumber(b.price) && PositiveNumber(b.costOfGood) &&
      !ShippingCostAccepted(WithDefault(b.shippingCost, Null))
  {
  }

  /**
   * A price of the number 0 is falsy and reported as missing; the string
   * `"0"` is truthy and reported as not positive; a negative number is not positive.
   */
  lemma ZeroPriceMessages(b: OrderBody)
    requires Truthy(b.date) && Truthy(b.machineId) && Truthy(b.machineTypeId) && Truthy(b.machineSubtypeId)
    ensures b.price == Num(0) ==> CreateError(b) == Some("Price is required")
    ensures b.price == Str("0") && Truthy(b.costOfGood) ==> CreateError(b) == Some("Price must be a positive number")
    ensures b.price.Num? && b.price.n < 0 && Truthy(b.costOfGood) ==>
      CreateError(b) == Some("Price must be a positive number")
  {
    if b.price == Str("0") {
      assert AllDigits("0") && DigitsValue("0") == 0;
    }
  }

  /** A shipping cost that is absent or `null` passes; so does `""`, which `Number` reads as 0. */
  lemma ShippingCostOptional(b: OrderBody)
    requires b.shippingCost == Undefined || b.shippingCost == Null || b.shippingCost == Str("")
    ensures ShippingCostAccepted(WithDefault(b.shippingCost, Null))
  {
  }

  /**
   * The row `POST /` inserts: the fourteen named columns, with `quantity = 1`
   * when absent, `phone` and `customer_name` as `|| null`; `created_at` and
   * `updated_at` take their default `now`.
   */
  function NewRow(b: OrderBody, now: Cell): OrderRow {
    Defaults(now).(date := Bind(b.date), machineId := Bind(b.machineId), machineTypeId := Bind(b.machineTypeId),
                   machineSubtypeId := Bind(b.machineSubtypeId), quantity := Bind(WithDefault(b.quantity, Num(1))),
                   source := Bind(WithDefault(b.source, Null)), paymentType := Bind(WithDefault(b.paymentType, Null)),
                   price := Bind(b.price), costOfGood := Bind(b.costOfGood),
                   purchaseLocation := Bind(WithDefault(b.purchaseLocation, Null)),
                   shippingCost := Bind(WithDefault(b.shippingCost, Null)), note := Bind(WithDefault(b.note, Null)),
                   phone := Bind(OrNull(b.phone)), customerName := Bind(OrNull(b.customerName)))
  }

  /**
   * An accepted order fills the columns the schema declares NOT NULL, has a
   * positive price and cost, and gets quantity 1 when none is given.
   */
  lemma AcceptedRowIsComplete(b: OrderBody, now: Cell)
    requires CreateError(b).None?
    ensures var row := NewRow(b, now);
      row.date != SqlNull && row.machineId != SqlNull && row.machineTypeId != SqlNull &&
      row.machineSubtypeId != SqlNull && row.price != SqlNull && row.costOfGood != SqlNull
    ensures NumberOf(b.price).value > 0 && NumberOf(b.costOfGood).value > 0
    ensures b.quantity == Undefined ==> NewRow(b, now).quantity == SqlInt(1)
  {
  }

  /** `POST /`: 400 with the first failed check, else one new row and 201 with its joined view. */
  method CreateOrder(db: Database, b: OrderBody, now: Cell) returns (reply: Reply<Body>)
    requires db.Valid()
    modifies db.orders
    ensures db.Valid()
    ensures CreateError(b).Some? ==>
      reply == Reply(400, Error(CreateError(b).value)) &&
      db.orders.rows == old(db.orders.rows) && db.orders.nextId == old(db.orders.nextId)
    ensures CreateError(b).None? ==>
      var id := old(db.orders.nextId);
      id !in old(db.orders.rows) &&
      db.orders.rows == old(db.orders.rows)[id := NewRow(b, now)] &&
      reply == Reply(201, Saved("Order created successfully", db.JoinedById(id).value)) &&
      reply.body.order.id == id && reply.body.order.row == NewRow(b, now)
  {
    var error := CreateError(b);
    if error.Some? {
      return Reply(400, Error(error.value));
    }
    var id := db.orders.Insert(NewRow(b, now));
    var order := db.JoinedById(id);
    reply := Reply(201, Saved("Order created successfully", order.value));
  }

  // ---------------------------------------------------------------------------
  // PUT /:id
  // ---------------------------------------------------------------------------

  /** The columns `PUT /:id` may set, in the order the handler tests them. */
  datatype Column =
    | DateCol | MachineIdCol | MachineTypeIdCol | MachineSubtypeIdCol | QuantityCol | SourceCol | PriceCol
    | CostOfGoodCol | PurchaseLocationCol | ShippingCostCol | NoteCol | PhoneCol | CustomerNameCol

  const AllColumns: seq<Column> :=
    [] + [DateCol] + [MachineIdCol] + [MachineTypeIdCol] + [MachineSubtypeIdCol] + [QuantityCol] +
    [SourceCol] + [PriceCol] + [CostOfGoodCol] + [PurchaseLocationCol] + [ShippingCostCol] + [NoteCol] +
    [PhoneCol] + [CustomerNameCol]

  /** A column's place in the handler's order. */
  function Rank(c: Column): int {
    match c
    case DateCol => 0
    case MachineIdCol => 1
    case MachineTypeIdCol => 2
    case MachineSubtypeIdCol => 3
    case QuantityCol => 4
    case SourceCol => 5
    case PriceCol => 6
    case CostOfGoodCol => 7
    case PurchaseLocationCol => 8
    case ShippingCostCol => 9
    case NoteCol => 10
    case PhoneCol => 11
    case CustomerNameCol => 12
  }

  /** The body's value for a column. */
  function ValueOf(b: OrderBody, c: Column): Json {
    match c
    case DateCol => b.date
    case MachineIdCol => b.machineId
    case MachineTypeIdCol => b.machineTypeId
    case MachineSubtypeIdCol => b.machineSubtypeId
    case QuantityCol => b.quantity
    case SourceCol => b.source
    case PriceCol => b.price
    case CostOfGoodCol => b.costOfGood
    case PurchaseLocationCol => b.purchaseLocation
    case ShippingCostCol => b.shippingCost
    case NoteCol => b.note
    case PhoneCol => b.phone
    case CustomerNameCol => b.customerName
  }

  /** A row's cell in a column. */
  function Get(row: OrderRow, c: Column): Cell {
    match c
    case DateCol => row.date
    case MachineIdCol => row.machineId
    case MachineTypeIdCol => row.machineTypeId
    case MachineSubtypeIdCol => row.machineSubtypeId
    case QuantityCol => row.quantity
    case SourceCol => row.source
    case PriceCol => row.price
    case CostOfGoodCol => row.costOfGood
    case PurchaseLocationCol => row.purchaseLocation
    case ShippingCostCol => row.shippingCost
    case NoteCol => row.note
    case PhoneCol => row.phone
    case CustomerNameCol => row.customerName
  }

  /** `c = ?` with `v` bound: the row with that one cell replaced. */
  function Set(row: OrderRow, c: Column, v: Cell): (r: OrderRow)
    ensures Get(r, c) == v
    ensures forall d :: d != c ==> Get(r, d) == Get(row, d)
    ensures r.paymentType == row.paymentType && r.createdAt == row.createdAt && r.updatedAt == row.updatedAt
  {
    match c
    case DateCol => row.(date := v)
    case MachineIdCol => row.(machineId := v)
    case MachineTypeIdCol => row.(machineTypeId := v)
    case MachineSubtypeIdCol => row.(machineSubtypeId := v)
    case QuantityCol => row.(quantity := v)
    case SourceCol => row.(source := v)
    case PriceCol => row.(price := v)
    case CostOfGoodCol => row.(costOfGood := v)
    case PurchaseLocationCol => row.(purchaseLocation := v)
    case ShippingCostCol => row.(shippingCost := v)
    case NoteCol => row.(note := v)
    case PhoneCol => row.(phone := v)
    case CustomerNameCol => row.(customerName := v)
  }

  /** `SET c1 = ?, c2 = ?, ...` with `params` bound in order. */
  function ApplySet(row: OrderRow, columns: seq<Column>, params: seq<Json>): OrderRow
    requires |columns| == |params|
  {
    if columns == [] then row
    else Set(ApplySet(row, columns[..|columns| - 1], params[..|params| - 1]),
             columns[|columns| - 1], Bind(params[|params| - 1]))
  }

  /** The columns of `cs` the body provides (`!== undefined`), in order. */
  function ProvidedAmong(b: OrderBody, cs: seq<Column>): seq<Column> {
    if cs == [] then []
    else ProvidedAmong(b, cs[..|cs| - 1]) + (if ValueOf(b, cs[|cs| - 1]) != Undefined then [cs[|cs| - 1]] else [])
  }

  /** The columns of the SET list for `b`. */
  function Provided(b: OrderBody): seq<Column> {
    ProvidedAmong(b, AllColumns)
  }

  /** The parameters of the SET list for `b`, one per column. */
  function PatchParams(b: OrderBody): seq<Json> {
    var cs := Provided(b);
    seq(|cs|, i requires 0 <= i < |cs| => ValueOf(b, cs[i]))
  }

  /** What the update means: each provided field replaced, every other column kept. */
  function Patched(row: OrderRow, b: OrderBody): OrderRow {
    row.(date := Keep(row.date, b.date), machineId := Keep(row.machineId, b.machineId),
         machineTypeId := Keep(row.machineTypeId, b.machineTypeId),
         machineSubtypeId := Keep(row.machineSubtypeId, b.machineSubtypeId),
         quantity := Keep(row.quantity, b.quantity), source := Keep(row.source, b.source),
         price := Keep(row.price, b.price), costOfGood := Keep(row.costOfGood, b.costOfGood),
         purchaseLocation := Keep(row.purchaseLocation, b.purchaseLocation),
         shippingCost := Keep(row.shippingCost, b.shippingCost), note := Keep(row.note, b.note),
         phone := Keep(row.phone, b.phone), customerName := Keep(row.customerName, b.customerName))
  }

  /** The old cell when the body leaves the field out, the bound value otherwise. */
  function Keep(prior: Cell, v: Json): Cell {
    if v == Undefined then prior else Bind(v)
  }

  lemma {:induction false} ProvidedAmongMembers(b: OrderBody, cs: seq<Column>)
    ensures forall c :: c in ProvidedAmong(b, cs) <==> c in cs && ValueOf(b, c) != Undefined
  {
    if cs != [] {
      ProvidedAmongMembers(b, cs[..|cs| - 1]);
      assert cs == cs[..|cs| - 1] + [cs[|cs| - 1]];
    }
  }

  /** Each column at most once, in the handler's order. */
  predicate RankIncreasing(cs: seq<Column>) {
    forall i, j :: 0 <= i < j < |cs| ==> Rank(cs[i]) < Rank(cs[j])
  }

  lemma {:induction false} ProvidedAmongRanked(b: OrderBody, cs: seq<Column>)
    requires RankIncreasing(cs)
    ensures RankIncreasing(ProvidedAmong(b, cs))
  {
    if cs != [] {
      var init := cs[..|cs| - 1];
      var last := cs[|cs| - 1];
      assert RankIncreasing(init) by {
        forall i, j | 0 <= i < j < |init| ensures Rank(init[i]) < Rank(init[j]) {
          assert init[i] == cs[i] && init[j] == cs[j];
        }
      }
      ProvidedAmongRanked(b, init);
      ProvidedAmongMembers(b, init);
      var r0 := ProvidedAmong(b, init);
      forall i | 0 <= i < |r0| ensures Rank(r0[i]) < Rank(last) {
        assert r0[i] in r0;
        var k :| 0 <= k < |init| && init[k] == r0[i];
        assert init[k] == cs[k];
      }
      var r := ProvidedAmong(b, cs);
      if ValueOf(b, last) != Undefined {
        assert r == r0 + [last];
        forall i, j | 0 <= i < j < |r| ensures Rank(r[i]) < Rank(r[j]) {
          if j == |r0| {
            assert r[i] == r0[i];
          } else {
            assert r[i] == r0[i] && r[j] == r0[j];
          }
        }
      } else {
        assert r == r0;
      }
    }
  }

  lemma EveryColumnListed(c: Column)
    ensures c in AllColumns
  {
    match c
    case DateCol => assert AllColumns[0] == c;
    case MachineIdCol => assert AllColumns[1] == c;
    case MachineTypeIdCol => assert AllColumns[2] == c;
    case MachineSubtypeIdCol => assert AllColumns[3] == c;
    case QuantityCol => assert AllColumns[4] == c;
    case SourceCol => assert AllColumns[5] == c;
    case PriceCol => assert AllColumns[6] == c;
    case CostOfGoodCol => assert AllColumns[7] == c;
    case PurchaseLocationCol => assert AllColumns[8] == c;
    case ShippingCostCol => assert AllColumns[9] == c;
    case NoteCol => assert AllColumns[10] == c;
    case PhoneCol => assert AllColumns[11] == c;
    case CustomerNameCol => assert AllColumns[12] == c;
  }

  /**
   * The SET list names exactly the provided fields, each once, in the
   * handler's order, and it is empty exactly when the body provides none.
   */
  lemma ProvidedColumns(b: OrderBody)
    ensures forall c :: c in Provided(b) <==> ValueOf(b, c) != Undefined
    ensures RankIncreasing(Provided(b))
    ensures Provided(b) == [] <==> forall c :: ValueOf(b, c) == Undefined
  {
    ProvidedAmongMembers(b, AllColumns);
    forall c ensures c in AllColumns {
      EveryColumnListed(c);
    }
    assert forall i :: 0 <= i < |AllColumns| ==> Rank(AllColumns[i]) == i;
    assert RankIncreasing(AllColumns);
    ProvidedAmongRanked(b, AllColumns);
    if Provided(b) != [] {
      assert Provided(b)[0] in Provided(b);
    }
  }

  /** A column's cell after the SET list built from the first columns `done`. */
  lemma {:induction false} ApplySetGet(row: OrderRow, b: OrderBody, done: seq<Column>, params: seq<Json>, c: Column)
    requires |params| == |ProvidedAmong(b, done)|
    requires forall i :: 0 <= i < |params| ==> params[i] == ValueOf(b, ProvidedAmong(b, done)[i])
    ensures Get(ApplySet(row, ProvidedAmong(b, done), params), c) ==
      if c in done && ValueOf(b, c) != Undefined then Bind(ValueOf(b, c)) else Get(row, c)
  {
    var cs := ProvidedAmong(b, done);
    if done != [] {
      var init := done[..|done| - 1];
      var last := done[|done| - 1];
      var cs0 := ProvidedAmong(b, init);
      assert done == init + [last];
      if ValueOf(b, last) != Undefined {
        assert cs == cs0 + [last];
        assert cs[..|cs| - 1] == cs0;
        var ps0 := params[..|params| - 1];
        ApplySetGet(row, b, init, ps0, c);
        assert params[|params| - 1] == ValueOf(b, last);
      } else {
        assert cs == cs0;
        ApplySetGet(row, b, init, params, c);
      }
    }
  }

  lemma ApplySetKeepsOthers(row: OrderRow, columns: seq<Column>, params: seq<Json>)
    requires |columns| == |params|
    ensures var r := ApplySet(row, columns, params);
      r.paymentType == row.paymentType && r.createdAt == row.createdAt && r.updatedAt == row.updatedAt
  {
  }

  /** Two rows that agree on every settable column and on the other three are equal. */
  lemma RowsEqualByColumns(r1: OrderRow, r2: OrderRow)
    requires forall c :: Get(r1, c) == Get(r2, c)
    requires r1.paymentType == r2.paymentType && r1.createdAt == r2.createdAt && r1.updatedAt == r2.updatedAt
    ensures r1 == r2
  {
    assert Get(r1, DateCol) == Get(r2, DateCol) && Get(r1, MachineIdCol) == Get(r2, MachineIdCol);
    assert Get(r1, MachineTypeIdCol) == Get(r2, MachineTypeIdCol);
    assert Get(r1, MachineSubtypeIdCol) == Get(r2, MachineSubtypeIdCol);
    assert Get(r1, QuantityCol) == Get(r2, QuantityCol) && Get(r1, SourceCol) == Get(r2, SourceCol);
    assert Get(r1, PriceCol) == Get(r2, PriceCol) && Get(r1, CostOfGoodCol) == Get(r2, CostOfGoodCol);
    assert Get(r1, PurchaseLocationCol) == Get(r2, PurchaseLocationCol);
    assert Get(r1, ShippingCostCol) == Get(r2, ShippingCostCol) && Get(r1, NoteCol) == Get(r2, NoteCol);
    assert Get(r1, PhoneCol) == Get(r2, PhoneCol) && Get(r1, CustomerNameCol) == Get(r2, CustomerNameCol);
  }

  lemma GetPatched(row: OrderRow, b: OrderBody, c: Column)
    ensures Get(Patched(row, b), c) == Keep(Get(row, c), ValueOf(b, c))
  {
  }

  /** Executing the built SET list is the declarative patch. */
  lemma ApplyIsPatch(row: OrderRow, b: OrderBody)
    ensures |Provided(b)| == |PatchParams(b)|
    ensures ApplySet(row, Provided(b), PatchParams(b)) == Patched(row, b)
  {
    var r := ApplySet(row, Provided(b), PatchParams(b));
    ApplySetKeepsOthers(row, Provided(b), PatchParams(b));
    forall c ensures Get(r, c) == Get(Patched(row, b), c) {
      EveryColumnListed(c);
      ApplySetGet(row, b, AllColumns, PatchParams(b), c);
      GetPatched(row, b, c);
    }
    RowsEqualByColumns(r, Patched(row, b));
  }

  /** What holds after the tests of the columns `done`. */
  predicate PatchFrom(b: OrderBody, done: seq<Column>, columns: seq<Column>, params: seq<Json>) {
    columns == ProvidedAmong(b, done) &&
    |params| == |columns| &&
    forall i :: 0 <= i < |params| ==> params[i] == ValueOf(b, columns[i])
  }

  lemma ProvidedAmongSnoc(b: OrderBody, done: seq<Column>, c: Column)
    ensures ProvidedAmong(b, done + [c]) == ProvidedAmong(b, done) + (if ValueOf(b, c) != Undefined then [c] else [])
  {
    assert (done + [c])[..|done|] == done;
  }

  /** One test: `if (v !== undefined) { updateFields.push('c = ?'); params.push(v) }`. */
  method AddColumn(b: OrderBody, c: Column, ghost done: seq<Column>, columns: seq<Column>, params: seq<Json>)
      returns (columns': seq<Column>, params': seq<Json>)
    requires PatchFrom(b, done, columns, params)
    ensures PatchFrom(b, done + [c], columns', params')
  {
    ProvidedAmongSnoc(b, done, c);
    columns', params' := columns, params;
    if ValueOf(b, c) != Undefined {
      columns', params' := columns + [c], params + [ValueOf(b, c)];
    }
  }

  /** The chain of thirteen tests that builds the SET list. */
  method BuildPatch(b: OrderBody) returns (columns: seq<Column>, params: seq<Json>)
    ensures columns == Provided(b) && params == PatchParams(b)
  {
    columns, params := [], [];
    ghost var done: seq<Column> := [];
    columns, params := AddColumn(b, DateCol, done, columns, params);
    done := done + [DateCol];
    columns, params := AddColumn(b, MachineIdCol, done, columns, params);
    done := done + [MachineIdCol];
    columns, params := AddColumn(b, MachineTypeIdCol, done, columns, params);
    done := done + [MachineTypeIdCol];
    columns, params := AddColumn(b, MachineSubtypeIdCol, done, columns, params);
    done := done + [MachineSubtypeIdCol];
    columns, params := AddColumn(b, QuantityCol, done, columns, params);
    done := done + [QuantityCol];
    columns, params := AddColumn(b, SourceCol, done, columns, params);
    done := done + [SourceCol];
    columns, params := AddColumn(b, PriceCol, done, columns, params);
    done := done + [PriceCol];
    columns, params := AddColumn(b, CostOfGoodCol, done, columns, params);
    done := done + [CostOfGoodCol];
    columns, params := AddColumn(b, PurchaseLocationCol, done, columns, params);
    done := done + [PurchaseLocationCol];
    columns, params := AddColumn(b, ShippingCostCol, done, columns, params);
    done := done + [ShippingCostCol];
    columns, params := AddColumn(b, NoteCol, done, columns, params);
    done := done + [NoteCol];
    columns, params := AddColumn(b, PhoneCol, done, columns, params);
    done := done + [PhoneCol];
    columns, params := AddColumn(b, CustomerNameCol, done, columns, params);
    done := done + [CustomerNameCol];
    assert done == AllColumns;
  }

  /**
   * `PUT /:id`: 404 when the order is missing, 400 when the body provides no
   * field, else the provided fields replaced and 200 with the joined view.
   */
  method UpdateOrder(db: Database, id: int, b: OrderBody) returns (reply: Reply<Body>)
    requires db.Valid()
    modifies db.orders
    ensures db.Valid() && db.orders.nextId == old(db.orders.nextId)
    ensures id !in old(db.orders.rows) ==>
      reply == Reply(404, Error("Order not found")) && db.orders.rows == old(db.orders.rows)
    ensures id in old(db.orders.rows) && (forall c :: ValueOf(b, c) == Undefined) ==>
      reply == Reply(400, Error("No fields to update")) && db.orders.rows == old(db.orders.rows)
    ensures id in old(db.orders.rows) && (exists c :: ValueOf(b, c) != Undefined) ==>
      db.orders.rows == old(db.orders.rows)[id := Patched(old(db.orders.rows)[id], b)] &&
      reply == Reply(200, Saved("Order updated successfully", db.JoinedById(id).value)) &&
      reply.body.order.row == Patched(old(db.orders.rows)[id], b)
  {
    if id !in db.orders.rows {
      return Reply(404, Error("Order not found"));
    }
    var columns, params := BuildPatch(b);
    ProvidedColumns(b);
    if |columns| == 0 {
      return Reply(400, Error("No fields to update"));
    }
    ApplyIsPatch(db.orders.rows[id], b);
    var _ := db.orders.Update(id, row => ApplySet(row, columns, params));
    var order := db.JoinedById(id);
    reply := Reply(200, Saved("Order updated successfully", order.value));
  }

  /**
   * Every column the body leaves out keeps its cell and every provided one
   * takes the bound value; `payment_type`, which the handler never tests, and
   * the timestamps, including `updated_at`, are not touched.
   */
  lemma PatchKeepsAbsentFields(row: OrderRow, b: OrderBody)
    ensures forall c ::
      Get(Patched(row, b), c) == if ValueOf(b, c) == Undefined then Get(row, c) else Bind(ValueOf(b, c))
    ensures Patched(row, b).paymentType == row.paymentType
    ensures Patched(row, b).createdAt == row.createdAt && Patched(row, b).updatedAt == row.updatedAt
  {
    forall c ensures Get(Patched(row, b), c) == if ValueOf(b, c) == Undefined then Get(row, c) else Bind(ValueOf(b, c)) {
      GetPatched(row, b, c);
    }
  }

  /** Patching with a body that provides nothing leaves the row as it was. */
  lemma PatchNothing(row: OrderRow, b: OrderBody)
    requires forall c :: ValueOf(b, c) == Undefined
    ensures Patched(row, b) == row
  {
    assert ValueOf(b, DateCol) == Undefined && ValueOf(b, MachineIdCol) == Undefined;
    assert ValueOf(b, MachineTypeIdCol) == Undefined && ValueOf(b, MachineSubtypeIdCol) == Undefined;
    assert ValueOf(b, QuantityCol) == Undefined && ValueOf(b, SourceCol) == Undefined;
    assert ValueOf(b, PriceCol) == Undefined && ValueOf(b, CostOfGoodCol) == Undefined;
    assert ValueOf(b, PurchaseLocationCol) == Undefined && ValueOf(b, ShippingCostCol) == Undefined;
    assert ValueOf(b, NoteCol) == Undefined && ValueOf(b, PhoneCol) == Undefined;
    assert ValueOf(b, CustomerNameCol) == Undefined;
  }

  /** Patching twice with one body is patching once. */
  lemma PatchIdempotent(row: OrderRow, b: OrderBody)
    ensures Patched(Patched(row, b), b) == Patched(row, b)
  {
  }

  // ---------------------------------------------------------------------------
  // DELETE /:id
  // ---------------------------------------------------------------------------

  /** `DELETE /:id`: removes the row if there is one, and answers 200 either way. */
  method DeleteOrder(db: Database, id: int) returns (reply: Reply<Body>)
    requires db.Valid()
    modifies db.orders
    ensures db.Valid() && db.orders.nextId == old(db.orders.nextId)
    ensures db.orders.rows == old(db.orders.rows) - {id}
    ensures reply == Reply(200, Message("Order deleted successfully"))
  {
    var _ := db.orders.Delete(id);
    reply := Reply(200, Message("Order deleted successfully"));
  }
}
