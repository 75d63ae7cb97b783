/**
 * The order routes of `sg-be/routes/orders.js`, the router the server mounts:
 * a filtered listing whose WHERE clause is assembled from the query string,
 * a lookup, and create/update/delete guarded by a required-field check.
 */
module LegacyOrderRoutes {
  import opened Values
  import opened Seqs
  import opened Storage

  /** The reply bodies these routes send. */
  datatype Body =
    | Rows(rows: seq<OrderView>)
    | Row(id: int, row: OrderRow)
    | Error(error: string)
    | MissingFields(error: string, details: Details)
    | Created(id: int, message: string)
    | Message(message: string)

  // ---------------------------------------------------------------------------
  // GET /: the filter query
  // ---------------------------------------------------------------------------

  /** The query string of the listing: each parameter's text, `""` when it is absent. */
  datatype ListQuery = ListQuery(
    dateFrom: string,
    dateTo: string,
    machineId: string,
    machineTypeId: string,
    machineSubtypeId: string,
    source: string,
    priceMin: string,
    priceMax: string,
    costOfGoodMin: string,
    costOfGoodMax: string,
    shippingCostMin: string,
    shippingCostMax: string,
    purchaseLocation: string)

  const NoFilters := ListQuery("", "", "", "", "", "", "", "", "", "", "", "", "")

  /** The clauses the listing may add to its WHERE, one per query parameter. */
  datatype ListFilter =
    | DateFrom | DateTo | MachineIs | MachineTypeIs | MachineSubtypeIs | SourceLike
    | PriceMin | PriceMax | CostOfGoodMin | CostOfGoodMax | ShippingCostMin | ShippingCostMax
    | PurchaseLocationLike

  /** The clauses in the order the handler tests their parameters. */
  const AllFilters: seq<ListFilter> :=
    [] + [DateFrom] + [DateTo] + [MachineIs] + [MachineTypeIs] + [MachineSubtypeIs] + [SourceLike] +
    [PriceMin] + [PriceMax] + [CostOfGoodMin] + [CostOfGoodMax] + [ShippingCostMin] + [ShippingCostMax] +
    [PurchaseLocationLike]

  function QueryValue(q: ListQuery, f: ListFilter): string {
    match f
    case DateFrom => q.dateFrom
    case DateTo => q.dateTo
    case MachineIs => q.machineId
    case MachineTypeIs => q.machineTypeId
    case MachineSubtypeIs => q.machineSubtypeId
    case SourceLike => q.source
    case PriceMin => q.priceMin
    case PriceMax => q.priceMax
    case CostOfGoodMin => q.costOfGoodMin
    case CostOfGoodMax => q.costOfGoodMax
    case ShippingCostMin => q.shippingCostMin
    case ShippingCostMax => q.shippingCostMax
    case PurchaseLocationLike => q.purchaseLocation
  }

  /** A query parameter is used when it is truthy: present and not empty (`"0"` is truthy). */
  predicate Present(q: ListQuery, f: ListFilter) {
    QueryValue(q, f) != ""
  }

  /** The value pushed onto `params` for a clause: the parameter, wrapped in `%...%` for LIKE. */
  function ParamFor(q: ListQuery, f: ListFilter): Cell {
    if f == SourceLike || f == PurchaseLocationLike
    then SqlText("%" + QueryValue(q, f) + "%")
    else SqlText(QueryValue(q, f))
  }

  /** The SQL text of a clause before its placeholder. */
  function Lead(f: ListFilter): string {
    match f
    case DateFrom => " AND o.date >= "
    case DateTo => " AND o.date <= "
    case MachineIs => " AND o.machine_id = "
    case MachineTypeIs => " AND o.machine_type_id = "
    case MachineSubtypeIs => " AND o.machine_subtype_id = "
    case SourceLike => " AND o.source LIKE "
    case PriceMin => " AND o.price >= "
    case PriceMax => " AND o.price <= "
    case CostOfGoodMin => " AND o.cost_of_good >= "
    case CostOfGoodMax => " AND o.cost_of_good <= "
    case ShippingCostMin => " AND (o.shipping_cost >= "
    case ShippingCostMax => " AND (o.shipping_cost <= "
    case PurchaseLocationLike => " AND o.purchase_location LIKE "
  }

  /** The SQL text of a clause after its placeholder. */
  function Tail(f: ListFilter): string {
    if f == ShippingCostMin || f == ShippingCostMax then " OR o.shipping_cost IS NULL)" else ""
  }

  /** The text `sql +=` appends for a clause. */
  function Fragment(f: ListFilter): string {
    Lead(f) + "?" + Tail(f)
  }

  /** The statement's head, up to `WHERE 1=1` (whitespace collapsed). */
  const SelectText: string := SelectList + JoinMachines + JoinTypes + JoinSubtypes + " WHERE 1=1"

  const SelectList: string :=
    "SELECT o.*, m.name as machine_name," + " mt.name as machine_type_name," + " mst.name as machine_subtype_name"
  const JoinMachines: string := " FROM orders o" + " LEFT JOIN machines m" + " ON o.machine_id = m.id"
  const JoinTypes: string := " LEFT JOIN machine_types mt" + " ON o.machine_type_id = mt.id"
  const JoinSubtypes: string := " LEFT JOIN machine_subtypes mst" + " ON o.machine_subtype_id = mst.id"

  const OrderByText: string := " ORDER BY o.date DESC"

  function Fragments(fs: seq<ListFilter>): string {
    if fs == [] then "" else Fragments(fs[..|fs| - 1]) + Fragment(fs[|fs| - 1])
  }

  /** The SQL text of a listing whose WHERE holds the clauses `fs`, in order. */
  function QueryText(fs: seq<ListFilter>): string {
    SelectText + Fragments(fs) + OrderByText
  }

  /** The clauses of `fs` whose parameter is present, in order. */
  function PresentAmong(q: ListQuery, fs: seq<ListFilter>): seq<ListFilter> {
    if fs == [] then []
    else PresentAmong(q, fs[..|fs| - 1]) + (if Present(q, fs[|fs| - 1]) then [fs[|fs| - 1]] else [])
  }

  /** The clauses the handler adds for `q`. */
  function Conjuncts(q: ListQuery): seq<ListFilter> {
    PresentAmong(q, AllFilters)
  }

  /** The parameters the handler binds for `q`, one per clause. */
  function Params(q: ListQuery): seq<Cell> {
    var c := Conjuncts(q);
    seq(|c|, i requires 0 <= i < |c| => ParamFor(q, c[i]))
  }

  /**
   * What SQLite decides for one clause with its bound parameter. Columns of
   * numeric affinity (ids and money) convert a numeral parameter to a number;
   * the date column compares texts.
   */
  predicate Holds(f: ListFilter, p: Cell, row: OrderRow) {
    match f
    case DateFrom => SqlGe(row.date, p)
    case DateTo => SqlLe(row.date, p)
    case MachineIs => SqlEq(row.machineId, NumericAffinity(p))
    case MachineTypeIs => SqlEq(row.machineTypeId, NumericAffinity(p))
    case MachineSubtypeIs => SqlEq(row.machineSubtypeId, NumericAffinity(p))
    case SourceLike => SqlLike(row.source, p)
    case PriceMin => SqlGe(row.price, NumericAffinity(p))
    case PriceMax => SqlLe(row.price, NumericAffinity(p))
    case CostOfGoodMin => SqlGe(row.costOfGood, NumericAffinity(p))
    case CostOfGoodMax => SqlLe(row.costOfGood, NumericAffinity(p))
    case ShippingCostMin => SqlGe(row.shippingCost, NumericAffinity(p)) || row.shippingCost == SqlNull
    case ShippingCostMax => SqlLe(row.shippingCost, NumericAffinity(p)) || row.shippingCost == SqlNull
    case PurchaseLocationLike => SqlLike(row.purchaseLocation, p)
  }

  /** `WHERE 1=1 AND c1 AND c2 ...` with `params` bound to the placeholders in order. */
  predicate WhereHolds(conjuncts: seq<ListFilter>, params: seq<Cell>, row: OrderRow) {
    |conjuncts| == |params| && forall i :: 0 <= i < |conjuncts| ==> Holds(conjuncts[i], params[i], row)
  }

  /**
   * The listing's meaning, parameter by parameter: a row is kept when it
   * meets the test of every parameter that is present.
   */
  predicate Matches(q: ListQuery, row: OrderRow) {
    MatchesDatesAndNames(q, row) && MatchesMoney(q, row)
  }

  /** The tests of the date, id, source and purchase-location parameters. */
  predicate MatchesDatesAndNames(q: ListQuery, row: OrderRow) {
    (q.dateFrom != "" ==> SqlGe(row.date, SqlText(q.dateFrom))) &&
    (q.dateTo != "" ==> SqlLe(row.date, SqlText(q.dateTo))) &&
    (q.machineId != "" ==> SqlEq(row.machineId, NumericAffinity(SqlText(q.machineId)))) &&
    (q.machineTypeId != "" ==> SqlEq(row.machineTypeId, NumericAffinity(SqlText(q.machineTypeId)))) &&
    (q.machineSubtypeId != "" ==> SqlEq(row.machineSubtypeId, NumericAffinity(SqlText(q.machineSubtypeId)))) &&
    (q.source != "" ==> SqlLike(row.source, SqlText("%" + q.source + "%"))) &&
    (q.purchaseLocation != "" ==> SqlLike(row.purchaseLocation, SqlText("%" + q.purchaseLocation + "%")))
  }

  /** The tests of the price, cost-of-good and shipping-cost bounds. */
  predicate MatchesMoney(q: ListQuery, row: OrderRow) {
    (q.priceMin != "" ==> SqlGe(row.price, NumericAffinity(SqlText(q.priceMin)))) &&
    (q.priceMax != "" ==> SqlLe(row.price, NumericAffinity(SqlText(q.priceMax)))) &&
    (q.costOfGoodMin != "" ==> SqlGe(row.costOfGood, NumericAffinity(SqlText(q.costOfGoodMin)))) &&
    (q.costOfGoodMax != "" ==> SqlLe(row.costOfGood, NumericAffinity(SqlText(q.costOfGoodMax)))) &&
    (q.shippingCostMin != "" ==>
      row.shippingCost == SqlNull || SqlGe(row.shippingCost, NumericAffinity(SqlText(q.shippingCostMin)))) &&
    (q.shippingCostMax != "" ==>
      row.shippingCost == SqlNull || SqlLe(row.shippingCost, NumericAffinity(SqlText(q.shippingCostMax))))
  }

  /** The rows SQLite returns for the listing with clauses `conjuncts` and parameters `params`. */
  function RunListing(db: Database, conjuncts: seq<ListFilter>, params: seq<Cell>): seq<OrderView>
    requires db.Valid()
    reads db, db.orders, db.machines, db.machineTypes, db.machineSubtypes
  {
    OrderByDateDesc(Filter(db.Joined(), (v: OrderView) => WhereHolds(conjuncts, params, v.row)))
  }

  lemma {:induction false} PresentAmongMembers(q: ListQuery, fs: seq<ListFilter>)
    ensures forall f :: f in PresentAmong(q, fs) <==> f in fs && Present(q, f)
  {
    if fs != [] {
      var init := fs[..|fs| - 1];
      PresentAmongMembers(q, init);
      assert fs == init + [fs[|fs| - 1]];
    }
  }

  lemma EveryFilterListed(f: ListFilter)
    ensures f in AllFilters
  {
    match f
    case DateFrom => assert AllFilters[0] == f;
    case DateTo => assert AllFilters[1] == f;
    case MachineIs => assert AllFilters[2] == f;
    case MachineTypeIs => assert AllFilters[3] == f;
    case MachineSubtypeIs => assert AllFilters[4] == f;
    case SourceLike => assert AllFilters[5] == f;
    case PriceMin => assert AllFilters[6] == f;
    case PriceMax => assert AllFilters[7] == f;
    case CostOfGoodMin => assert AllFilters[8] == f;
    case CostOfGoodMax => assert AllFilters[9] == f;
    case ShippingCostMin => assert AllFilters[10] == f;
    case ShippingCostMax => assert AllFilters[11] == f;
    case PurchaseLocationLike => assert AllFilters[12] == f;
  }

  /** The built WHERE holds exactly when every present parameter's clause holds. */
  lemma {:induction false} WhereOverPresent(q: ListQuery, row: OrderRow)
    ensures WhereHolds(Conjuncts(q), Params(q), row) <==>
      forall f :: Present(q, f) ==> Holds(f, ParamFor(q, f), row)
  {
    var c := Conjuncts(q);
    PresentAmongMembers(q, AllFilters);
    forall f ensures f in c <==> Present(q, f) {
      EveryFilterListed(f);
    }
    if WhereHolds(c, Params(q), row) {
      forall f | Present(q, f) ensures Holds(f, ParamFor(q, f), row) {
        var i :| 0 <= i < |c| && c[i] == f;
        assert Params(q)[i] == ParamFor(q, f);
      }
    }
  }

  /** A row that `Matches` meets the clause of every present parameter. */
  lemma ClausesOfMatches(q: ListQuery, row: OrderRow)
    requires Matches(q, row)
    ensures forall f :: Present(q, f) ==> Holds(f, ParamFor(q, f), row)
  {
    forall f | Present(q, f) ensures Holds(f, ParamFor(q, f), row) {
      match f
      case DateFrom =>
      case DateTo =>
      case MachineIs =>
      case MachineTypeIs =>
      case MachineSubtypeIs =>
      case SourceLike =>
      case PriceMin =>
      case PriceMax =>
      case CostOfGoodMin =>
      case CostOfGoodMax =>
      case ShippingCostMin =>
      case ShippingCostMax =>
      case PurchaseLocationLike =>
    }
  }

  /** A row meeting the clause of every present parameter `Matches`. */
  lemma MatchesOfClauses(q: ListQuery, row: OrderRow)
    requires forall f :: Present(q, f) ==> Holds(f, ParamFor(q, f), row)
    ensures Matches(q, row)
  {
    DatesAndNamesOfClauses(q, row);
    MoneyOfClauses(q, row);
  }

  lemma DatesAndNamesOfClauses(q: ListQuery, row: OrderRow)
    requires forall f :: Present(q, f) ==> Holds(f, ParamFor(q, f), row)
    ensures MatchesDatesAndNames(q, row)
  {
    assert Present(q, DateFrom) ==> Holds(DateFrom, ParamFor(q, DateFrom), row);
    assert Present(q, DateTo) ==> Holds(DateTo, ParamFor(q, DateTo), row);
    assert Present(q, MachineIs) ==> Holds(MachineIs, ParamFor(q, MachineIs), row);
    assert Present(q, MachineTypeIs) ==> Holds(MachineTypeIs, ParamFor(q, MachineTypeIs), row);
    assert Present(q, MachineSubtypeIs) ==> Holds(MachineSubtypeIs, ParamFor(q, MachineSubtypeIs), row);
    assert Present(q, SourceLike) ==> Holds(SourceLike, ParamFor(q, SourceLike), row);
    assert Present(q, PurchaseLocationLike) ==> Holds(PurchaseLocationLike, ParamFor(q, PurchaseLocationLike), row);
  }

  lemma MoneyOfClauses(q: ListQuery, row: OrderRow)
    requires forall f :: Present(q, f) ==> Holds(f, ParamFor(q, f), row)
    ensures MatchesMoney(q, row)
  {
    assert Present(q, PriceMin) ==> Holds(PriceMin, ParamFor(q, PriceMin), row);
    assert Present(q, PriceMax) ==> Holds(PriceMax, ParamFor(q, PriceMax), row);
    assert Present(q, CostOfGoodMin) ==> Holds(CostOfGoodMin, ParamFor(q, CostOfGoodMin), row);
    assert Present(q, CostOfGoodMax) ==> Holds(CostOfGoodMax, ParamFor(q, CostOfGoodMax), row);
    assert Present(q, ShippingCostMin) ==> Holds(ShippingCostMin, ParamFor(q, ShippingCostMin), row);
    assert Present(q, ShippingCostMax) ==> Holds(ShippingCostMax, ParamFor(q, ShippingCostMax), row);
  }

  /** Filters combine by AND: the built WHERE holds exactly when the row meets every present parameter. */
  lemma QueryMeansMatches(q: ListQuery, row: OrderRow)
    ensures WhereHolds(Conjuncts(q), Params(q), row) <==> Matches(q, row)
  {
    WhereOverPresent(q, row);
    if Matches(q, row) {
      ClausesOfMatches(q, row);
    }
    if forall f :: Present(q, f) ==> Holds(f, ParamFor(q, f), row) {
      MatchesOfClauses(q, row);
    }
  }

  lemma LeadTailNoPlaceholder(f: ListFilter)
    ensures '?' !in Lead(f) && '?' !in Tail(f)
  {
    DateLeadsNoPlaceholder();
    IdLeadsNoPlaceholder();
    TextLeadsNoPlaceholder();
    PriceLeadsNoPlaceholder();
    CostLeadsNoPlaceholder();
    ShippingLeadsNoPlaceholder();
  }

  lemma DateLeadsNoPlaceholder()
    ensures '?' !in Lead(DateFrom) && '?' !in Lead(DateTo)
  {
    assert '?' !in " AND o.date >= ";
    assert '?' !in " AND o.date <= ";
  }

  lemma IdLeadsNoPlaceholder()
    ensures '?' !in Lead(MachineIs) && '?' !in Lead(MachineTypeIs) && '?' !in Lead(MachineSubtypeIs)
  {
    assert '?' !in " AND o.machine_id = ";
    assert '?' !in " AND o.machine_type_id = ";
    assert '?' !in " AND o.machine_subtype_id = ";
  }

  lemma TextLeadsNoPlaceholder()
    ensures '?' !in Lead(SourceLike) && '?' !in Lead(PurchaseLocationLike)
  {
    assert '?' !in " AND o.source LIKE ";
    assert '?' !in " AND o.purchase_location LIKE ";
  }

  lemma PriceLeadsNoPlaceholder()
    ensures '?' !in Lead(PriceMin) && '?' !in Lead(PriceMax)
  {
    assert '?' !in " AND o.price >= ";
    assert '?' !in " AND o.price <= ";
  }

  lemma CostLeadsNoPlaceholder()
    ensures '?' !in Lead(CostOfGoodMin) && '?' !in Lead(CostOfGoodMax)
  {
    assert '?' !in " AND o.cost_of_good >= ";
    assert '?' !in " AND o.cost_of_good <= ";
  }

  lemma ShippingLeadsNoPlaceholder()
    ensures '?' !in Lead(ShippingCostMin) && '?' !in Lead(ShippingCostMax) && '?' !in Tail(ShippingCostMin)
  {
    assert '?' !in " AND (o.shipping_cost >= ";
    assert '?' !in " AND (o.shipping_cost <= ";
    assert '?' !in " OR o.shipping_cost IS NULL)";
  }

  lemma NotInJoin(c: char, a: string, b: string)
    requires c !in a && c !in b
    ensures c !in a + b
  {
  }

  lemma SelectListNoPlaceholder()
    ensures '?' !in SelectList
  {
    NoPlaceholderInMachineName();
    NoPlaceholderInTypeName();
    NoPlaceholderInSubtypeName();
    NotInJoin('?', "SELECT o.*, m.name as machine_name,", " mt.name as machine_type_name,");
    NotInJoin('?', "SELECT o.*, m.name as machine_name," + " mt.name as machine_type_name,",
              " mst.name as machine_subtype_name");
  }

  lemma NoPlaceholderInMachineName()
    ensures '?' !in "SELECT o.*, m.name as machine_name,"
  {
  }

  lemma NoPlaceholderInTypeName()
    ensures '?' !in " mt.name as machine_type_name,"
  {
  }

  lemma NoPlaceholderInSubtypeName()
    ensures '?' !in " mst.name as machine_subtype_name"
  {
  }

  lemma JoinsNoPlaceholder()
    ensures '?' !in JoinMachines && '?' !in JoinTypes && '?' !in JoinSubtypes
  {
    MachineJoinNoPlaceholder();
    TypeJoinsNoPlaceholder();
  }

  lemma MachineJoinNoPlaceholder()
    ensures '?' !in JoinMachines
  {
    assert '?' !in " FROM orders o" && '?' !in " LEFT JOIN machines m";
    NotInJoin('?', " FROM orders o", " LEFT JOIN machines m");
    assert '?' !in " ON o.machine_id = m.id";
    NotInJoin('?', " FROM orders o" + " LEFT JOIN machines m", " ON o.machine_id = m.id");
  }

  lemma TypeJoinsNoPlaceholder()
    ensures '?' !in JoinTypes && '?' !in JoinSubtypes
  {
    assert '?' !in " LEFT JOIN machine_types mt" && '?' !in " ON o.machine_type_id = mt.id";
    NotInJoin('?', " LEFT JOIN machine_types mt", " ON o.machine_type_id = mt.id");
    assert '?' !in " LEFT JOIN machine_subtypes mst" && '?' !in " ON o.machine_subtype_id = mst.id";
    NotInJoin('?', " LEFT JOIN machine_subtypes mst", " ON o.machine_subtype_id = mst.id");
  }

  lemma SelectTextNoPlaceholder()
    ensures '?' !in SelectText && '?' !in OrderByText
  {
    SelectListNoPlaceholder();
    JoinsNoPlaceholder();
    NotInJoin('?', SelectList, JoinMachines);
    NotInJoin('?', SelectList + JoinMachines, JoinTypes);
    NotInJoin('?', SelectList + JoinMachines + JoinTypes, JoinSubtypes);
    NotInJoin('?', SelectList + JoinMachines + JoinTypes + JoinSubtypes, " WHERE 1=1");
    assert '?' !in " ORDER BY o.date DESC";
  }

  lemma FragmentPlaceholder(f: ListFilter)
    ensures Occurrences('?', Fragment(f)) == 1
  {
    LeadTailNoPlaceholder(f);
    OccurrencesAbsent('?', Lead(f));
    OccurrencesAbsent('?', Tail(f));
    OccurrencesAppend('?', Lead(f), "?");
    OccurrencesAppend('?', Lead(f) + "?", Tail(f));
    assert Occurrences('?', "?") == 1 by {
      assert "?"[1..] == [];
    }
  }

  lemma {:induction false} FragmentsPlaceholders(fs: seq<ListFilter>)
    ensures Occurrences('?', Fragments(fs)) == |fs|
  {
    if fs != [] {
      FragmentsPlaceholders(fs[..|fs| - 1]);
      FragmentPlaceholder(fs[|fs| - 1]);
      OccurrencesAppend('?', Fragments(fs[..|fs| - 1]), Fragment(fs[|fs| - 1]));
    }
  }

  /** Each present filter adds exactly one placeholder: the text has one `?` per bound parameter. */
  lemma PlaceholdersMatchParams(q: ListQuery)
    ensures Occurrences('?', QueryText(Conjuncts(q))) == |Params(q)|
  {
    var c := Conjuncts(q);
    SelectTextNoPlaceholder();
    OccurrencesAbsent('?', SelectText);
    OccurrencesAbsent('?', OrderByText);
    FragmentsPlaceholders(c);
    OccurrencesAppend('?', SelectText, Fragments(c));
    OccurrencesAppend('?', SelectText + Fragments(c), OrderByText);
  }

  lemma {:induction false} PresentAmongSame(q1: ListQuery, q2: ListQuery, fs: seq<ListFilter>)
    requires forall f :: Present(q1, f) <==> Present(q2, f)
    ensures PresentAmong(q1, fs) == PresentAmong(q2, fs)
  {
    if fs != [] {
      PresentAmongSame(q1, q2, fs[..|fs| - 1]);
    }
  }

  /**
   * User values never reach the SQL text: two queries with the same parameters
   * present produce the same text, whatever the values.
   */
  lemma QueryTextIgnoresValues(q1: ListQuery, q2: ListQuery)
    requires forall f :: Present(q1, f) <==> Present(q2, f)
    ensures QueryText(Conjuncts(q1)) == QueryText(Conjuncts(q2))
  {
    PresentAmongSame(q1, q2, AllFilters);
  }

  /** What holds after the tests of the filters `done`: the text, clauses and parameters so far. */
  predicate BuiltFrom(q: ListQuery, done: seq<ListFilter>, head: string, sql: string,
                     conjuncts: seq<ListFilter>, params: seq<Cell>) {
    conjuncts == PresentAmong(q, done) &&
    sql == head + Fragments(conjuncts) &&
    |params| == |conjuncts| &&
    forall i :: 0 <= i < |params| ==> params[i] == ParamFor(q, conjuncts[i])
  }

  lemma PresentAmongSnoc(q: ListQuery, done: seq<ListFilter>, f: ListFilter)
    ensures PresentAmong(q, done + [f]) == PresentAmong(q, done) + (if Present(q, f) then [f] else [])
  {
    assert (done + [f])[..|done|] == done;
  }

  lemma FragmentsSnoc(conjuncts: seq<ListFilter>, f: ListFilter)
    ensures Fragments(conjuncts + [f]) == Fragments(conjuncts) + Fragment(f)
  {
    assert (conjuncts + [f])[..|conjuncts|] == conjuncts;
  }

  lemma ConcatAssoc(a: string, b: string, c: string)
    ensures (a + b) + c == a + (b + c)
  {
  }

  lemma ParamsSnoc(q: ListQuery, f: ListFilter, conjuncts: seq<ListFilter>, params: seq<Cell>)
    requires |params| == |conjuncts|
    requires forall i :: 0 <= i < |params| ==> params[i] == ParamFor(q, conjuncts[i])
    ensures var c, p := conjuncts + [f], params + [ParamFor(q, f)];
      forall i :: 0 <= i < |p| ==> p[i] == ParamFor(q, c[i])
  {
  }

  /** One test of the chain `if (param) { sql += clause; params.push(value) }`. */
  lemma Step(q: ListQuery, done: seq<ListFilter>, f: ListFilter, head: string, sql: string,
             conjuncts: seq<ListFilter>, params: seq<Cell>)
    requires BuiltFrom(q, done, head, sql, conjuncts, params)
    ensures Present(q, f) ==>
      BuiltFrom(q, done + [f], head, sql + Fragment(f), conjuncts + [f], params + [ParamFor(q, f)])
    ensures !Present(q, f) ==> BuiltFrom(q, done + [f], head, sql, conjuncts, params)
  {
    PresentAmongSnoc(q, done, f);
    if Present(q, f) {
      FragmentsSnoc(conjuncts, f);
      ParamsSnoc(q, f, conjuncts, params);
      ConcatAssoc(head, Fragments(conjuncts), Fragment(f));
    }
  }

  /** After the last test the clauses and parameters are those of `q`. */
  lemma Finished(q: ListQuery, sql: string, conjuncts: seq<ListFilter>, params: seq<Cell>)
    requires BuiltFrom(q, AllFilters, SelectText, sql, conjuncts, params)
    ensures conjuncts == Conjuncts(q) && params == Params(q)
    ensures sql + OrderByText == QueryText(conjuncts)
  {
  }

  /** Before the first test: the statement's head, no clauses, no parameters. */
  lemma Started(q: ListQuery)
    ensures BuiltFrom(q, [], SelectText, SelectText, [], [])
  {
    assert SelectText + Fragments([]) == SelectText + [];
  }

  /** One test of the chain: `if (value) { sql += clause; params.push(value) }`. */
  method AddClause(q: ListQuery, f: ListFilter, ghost done: seq<ListFilter>, sql: string,
                   conjuncts: seq<ListFilter>, params: seq<Cell>)
      returns (sql': string, conjuncts': seq<ListFilter>, params': seq<Cell>)
    requires BuiltFrom(q, done, SelectText, sql, conjuncts, params)
    ensures BuiltFrom(q, done + [f], SelectText, sql', conjuncts', params')
    ensures QueryValue(q, f) != "" ==> sql' == sql + Fragment(f) && params' == params + [ParamFor(q, f)]
    ensures QueryValue(q, f) == "" ==> sql' == sql && params' == params
  {
    Step(q, done, f, SelectText, sql, conjuncts, params);
    sql', conjuncts', params' := sql, conjuncts, params;
    if QueryValue(q, f) != "" {
      sql', conjuncts', params' := sql + Fragment(f), conjuncts + [f], params + [ParamFor(q, f)];
    }
  }

  /** The date and id tests. */
  method AddDateAndIdClauses(q: ListQuery, ghost done: seq<ListFilter>, sql: string,
                             conjuncts: seq<ListFilter>, params: seq<Cell>)
      returns (sql': string, conjuncts': seq<ListFilter>, params': seq<Cell>)
    requires BuiltFrom(q, done, SelectText, sql, conjuncts, params)
    ensures BuiltFrom(q, done + [DateFrom] + [DateTo] + [MachineIs] + [MachineTypeIs] + [MachineSubtypeIs],
                      SelectText, sql', conjuncts', params')
  {
    sql', conjuncts', params' := AddClause(q, DateFrom, done, sql, conjuncts, params);
    sql', conjuncts', params' := AddClause(q, DateTo, done + [DateFrom], sql', conjuncts', params');
    sql', conjuncts', params' := AddClause(q, MachineIs, done + [DateFrom] + [DateTo], sql', conjuncts', params');
    sql', conjuncts', params' :=
      AddClause(q, MachineTypeIs, done + [DateFrom] + [DateTo] + [MachineIs], sql', conjuncts', params');
    sql', conjuncts', params' :=
      AddClause(q, MachineSubtypeIs, done + [DateFrom] + [DateTo] + [MachineIs] + [MachineTypeIs],
                sql', conjuncts', params');
  }

  /** The source test and the price and cost-of-good bounds. */
  method AddSourceAndPriceClauses(q: ListQuery, ghost done: seq<ListFilter>, sql: string,
                                  conjuncts: seq<ListFilter>, params: seq<Cell>)
      returns (sql': string, conjuncts': seq<ListFilter>, params': seq<Cell>)
    requires BuiltFrom(q, done, SelectText, sql, conjuncts, params)
    ensures BuiltFrom(q, done + [SourceLike] + [PriceMin] + [PriceMax] + [CostOfGoodMin] + [CostOfGoodMax],
                      SelectText, sql', conjuncts', params')
  {
    sql', conjuncts', params' := AddClause(q, SourceLike, done, sql, conjuncts, params);
    sql', conjuncts', params' := AddClause(q, PriceMin, done + [SourceLike], sql', conjuncts', params');
    sql', conjuncts', params' := AddClause(q, PriceMax, done + [SourceLike] + [PriceMin], sql', conjuncts', params');
    sql', conjuncts', params' :=
      AddClause(q, CostOfGoodMin, done + [SourceLike] + [PriceMin] + [PriceMax], sql', conjuncts', params');
    sql', conjuncts', params' :=
      AddClause(q, CostOfGoodMax, done + [SourceLike] + [PriceMin] + [PriceMax] + [CostOfGoodMin],
                sql', conjuncts', params');
  }

  /** The shipping-cost bounds and the purchase-location test. */
  method AddShippingAndLocationClauses(q: ListQuery, ghost done: seq<ListFilter>, sql: string,
                                       conjuncts: seq<ListFilter>, params: seq<Cell>)
      returns (sql': string, conjuncts': seq<ListFilter>, params': seq<Cell>)
    requires BuiltFrom(q, done, SelectText, sql, conjuncts, params)
    ensures BuiltFrom(q, done + [ShippingCostMin] + [ShippingCostMax] + [PurchaseLocationLike],
                      SelectText, sql', conjuncts', params')
  {
    sql', conjuncts', params' := AddClause(q, ShippingCostMin, done, sql, conjuncts, params);
    sql', conjuncts', params' := AddClause(q, ShippingCostMax, done + [ShippingCostMin], sql', conjuncts', params');
    sql', conjuncts', params' :=
      AddClause(q, PurchaseLocationLike, done + [ShippingCostMin] + [ShippingCostMax], sql', conjuncts', params');
  }

  /**
   * The clause-building part of `GET /`: in the handler's order, each present
   * parameter appends one fragment to the text and one value to the parameters.
   */
  method BuildListQuery(q: ListQuery) returns (sql: string, conjuncts: seq<ListFilter>, params: seq<Cell>)
    ensures conjuncts == Conjuncts(q)
    ensures params == Params(q)
    ensures sql == QueryText(conjuncts)
  {
    sql := SelectText;
    conjuncts := [];
    params := [];
    ghost var done: seq<ListFilter> := [];
    Started(q);
    sql, conjuncts, params := AddDateAndIdClauses(q, done, sql, conjuncts, params);
    done := done + [DateFrom] + [DateTo] + [MachineIs] + [MachineTypeIs] + [MachineSubtypeIs];
    sql, conjuncts, params := AddSourceAndPriceClauses(q, done, sql, conjuncts, params);
    done := done + [SourceLike] + [PriceMin] + [PriceMax] + [CostOfGoodMin] + [CostOfGoodMax];
    sql, conjuncts, params := AddShippingAndLocationClauses(q, done, sql, conjuncts, params);
    done := done + [ShippingCostMin] + [ShippingCostMax] + [PurchaseLocationLike];
    assert done == AllFilters;
    Finished(q, sql, conjuncts, params);
    sql := sql + OrderByText;
  }

  /** `GET /`: the listing with the built clauses and parameters, answered with 200. */
  method ListOrders(db: Database, q: ListQuery) returns (reply: Reply<Body>)
    requires db.Valid()
    ensures reply.status == 200
    ensures reply.body == Rows(OrderByDateDesc(Filter(db.Joined(), (v: OrderView) => Matches(q, v.row))))
  {
    var sql, conjuncts, params := BuildListQuery(q);
    var rows := RunListing(db, conjuncts, params);
    forall v: OrderView ensures WhereHolds(conjuncts, params, v.row) <==> Matches(q, v.row) {
      QueryMeansMatches(q, v.row);
    }
    FilterCongruent(db.Joined(), (v: OrderView) => WhereHolds(conjuncts, params, v.row),
                    (v: OrderView) => Matches(q, v.row));
    reply := Reply(200, Rows(rows));
  }

  /** With no parameter present the listing is every order, joined, latest date first. */
  lemma NoFiltersListEverything(db: Database)
    requires db.Valid()
    ensures OrderByDateDesc(Filter(db.Joined(), (v: OrderView) => Matches(NoFilters, v.row))) ==
      OrderByDateDesc(db.Joined())
  {
    var joined := db.Joined();
    assert forall i :: 0 <= i < |joined| ==> Matches(NoFilters, joined[i].row);
  }

  /** The date filters compare texts: both ends inclusive, in string order. */
  lemma DateRange(from: string, to: string, row: OrderRow)
    requires from != "" && to != ""
    ensures Matches(NoFilters.(dateFrom := from, dateTo := to), row) <==>
      row.date.SqlText? && LexLe(from, row.date.t) && LexLe(row.date.t, to)
  {
  }

  /**
   * An id filter given as a numeral, signed or padded with spaces, keeps
   * exactly the rows with that id.
   */
  lemma MachineIdExact(x: string, row: OrderRow)
    requires x != "" && SqlNumeral(x).Some?
    ensures Matches(NoFilters.(machineId := x), row) <==> row.machineId == SqlInt(SqlNumeral(x).value)
  {
  }

  /**
   * The price range is inclusive at both ends and keeps only integer prices
   * within it; a bound such as `-5` is compared as the number -5.
   */
  lemma PriceRange(lo: string, hi: string, row: OrderRow)
    requires lo != "" && SqlNumeral(lo).Some? && hi != "" && SqlNumeral(hi).Some?
    ensures Matches(NoFilters.(priceMin := lo, priceMax := hi), row) <==>
      row.price.SqlInt? && SqlNumeral(lo).value <= row.price.i <= SqlNumeral(hi).value
  {
  }

  /** `priceMin = priceMax = x` keeps exactly the rows whose price is `x`. */
  lemma PricePoint(x: string, row: OrderRow)
    requires x != "" && SqlNumeral(x).Some?
    ensures Matches(NoFilters.(priceMin := x, priceMax := x), row) <==> row.price == SqlInt(SqlNumeral(x).value)
  {
    PriceRange(x, x, row);
  }

  /** The cost-of-good range is inclusive at both ends. */
  lemma CostOfGoodRange(lo: string, hi: string, row: OrderRow)
    requires lo != "" && SqlNumeral(lo).Some? && hi != "" && SqlNumeral(hi).Some?
    ensures Matches(NoFilters.(costOfGoodMin := lo, costOfGoodMax := hi), row) <==>
      row.costOfGood.SqlInt? && SqlNumeral(lo).value <= row.costOfGood.i <= SqlNumeral(hi).value
  {
  }

  /** A NULL shipping cost passes any shipping range; any other value must lie within it. */
  lemma ShippingRange(lo: string, hi: string, row: OrderRow)
    requires lo != "" && SqlNumeral(lo).Some? && hi != "" && SqlNumeral(hi).Some?
    ensures Matches(NoFilters.(shippingCostMin := lo, shippingCostMax := hi), row) <==>
      row.shippingCost == SqlNull ||
      (row.shippingCost.SqlInt? && SqlNumeral(lo).value <= row.shippingCost.i <= SqlNumeral(hi).value)
  {
    assert NumericAffinity(SqlText(lo)) == SqlInt(SqlNumeral(lo).value);
    assert NumericAffinity(SqlText(hi)) == SqlInt(SqlNumeral(hi).value);
  }

  /** The source filter is a substring test; a NULL source never matches. */
  lemma SourceContains(x: string, row: OrderRow)
    requires x != "" && NoWildcards(x)
    ensures Matches(NoFilters.(source := x), row) <==> row.source.SqlText? && Contains(row.source.t, x)
  {
    if row.source.SqlText? {
      LikeContains(row.source.t, x);
    }
  }

  /** The purchase-location filter is a substring test; a NULL location never matches. */
  lemma PurchaseLocationContains(x: string, row: OrderRow)
    requires x != "" && NoWildcards(x)
    ensures Matches(NoFilters.(purchaseLocation := x), row) <==>
      row.purchaseLocation.SqlText? && Contains(row.purchaseLocation.t, x)
  {
    if row.purchaseLocation.SqlText? {
      LikeContains(row.purchaseLocation.t, x);
    }
  }

  // ---------------------------------------------------------------------------
  // GET /:id
  // ---------------------------------------------------------------------------

  /** `GET /:id`: `SELECT * FROM orders WHERE id = ?`, the bare row (no join), or 404. */
  method GetOrder(db: Database, id: int) returns (reply: Reply<Body>)
    ensures id in db.orders.rows ==> reply == Reply(200, Row(id, db.orders.rows[id]))
    ensures id !in db.orders.rows ==> reply == Reply(404, Error("Order not found"))
  {
    if id !in db.orders.rows {
      return Reply(404, Error("Order not found"));
    }
    reply := Reply(200, Row(id, db.orders.rows[id]));
  }

  // ---------------------------------------------------------------------------
  // POST / and PUT /:id
  // ---------------------------------------------------------------------------

  /** The fields `POST` and `PUT` destructure from the request body. */
  datatype WriteBody = WriteBody(
    date: Json,
    machineId: Json,
    machineTypeId: Json,
    machineSubtypeId: Json,
    source: Json,
    price: Json,
    costOfGood: Json,
    shippingCost: Json,
    phone: Json,
    customerName: Json)

  /** The `details` object of a 400: a message for each missing field, `null` (`None`) for the others. */
  datatype Details = Details(
    date: Option<string>,
    machineId: Option<string>,
    machineTypeId: Option<string>,
    machineSubtypeId: Option<string>,
    source: Option<string>,
    price: Option<string>)

  /** The six required fields: a falsy one is missing. */
  predicate MissingRequired(b: WriteBody) {
    !Truthy(b.date) || !Truthy(b.machineId) || !Truthy(b.machineTypeId) ||
    !Truthy(b.machineSubtypeId) || !Truthy(b.source) || !Truthy(b.price)
  }

  function Required(v: Json, message: string): Option<string> {
    if Truthy(v) then None else Some(message)
  }

  function MissingDetails(b: WriteBody): Details {
    Details(
      Required(b.date, "Date is required"),
      Required(b.machineId, "Machine is required"),
      Required(b.machineTypeId, "Machine type is required"),
      Required(b.machineSubtypeId, "Machine subtype is required"),
      Required(b.source, "Source is required"),
      Required(b.price, "Price is required"))
  }

  /**
   * A write is refused exactly when some entry of `details` is a message;
   * each entry is its field's message exactly when that field is falsy.
   */
  lemma DetailsNameTheMissing(b: WriteBody)
    ensures MissingRequired(b) <==> MissingDetails(b) != Details(None, None, None, None, None, None)
    ensures MissingDetails(b).date.Some? <==> !Truthy(b.date)
    ensures !Truthy(b.date) ==> MissingDetails(b).date == Some("Date is required")
    ensures MissingDetails(b).machineId.Some? <==> !Truthy(b.machineId)
    ensures !Truthy(b.machineId) ==> MissingDetails(b).machineId == Some("Machine is required")
    ensures MissingDetails(b).machineTypeId.Some? <==> !Truthy(b.machineTypeId)
    ensures !Truthy(b.machineTypeId) ==> MissingDetails(b).machineTypeId == Some("Machine type is required")
    ensures MissingDetails(b).machineSubtypeId.Some? <==> !Truthy(b.machineSubtypeId)
    ensures !Truthy(b.machineSubtypeId) ==> MissingDetails(b).machineSubtypeId == Some("Machine subtype is required")
    ensures MissingDetails(b).source.Some? <==> !Truthy(b.source)
    ensures !Truthy(b.source) ==> MissingDetails(b).source == Some("Source is required")
    ensures MissingDetails(b).price.Some? <==> !Truthy(b.price)
    ensures !Truthy(b.price) ==> MissingDetails(b).price == Some("Price is required")
  {
  }

  /**
   * The ten columns the INSERT and the UPDATE set. Falsy `cost_of_good`,
   * `shipping_cost`, `phone` and `customer_name` are stored as NULL (`|| null`).
   */
  function Assigned(base: OrderRow, b: WriteBody): OrderRow {
    base.(date := Bind(b.date), machineId := Bind(b.machineId), machineTypeId := Bind(b.machineTypeId),
          machineSubtypeId := Bind(b.machineSubtypeId), source := Bind(b.source), price := Bind(b.price),
          costOfGood := Bind(OrNull(b.costOfGood)), shippingCost := Bind(OrNull(b.shippingCost)),
          phone := Bind(OrNull(b.phone)), customerName := Bind(OrNull(b.customerName)))
  }

  /** A shipping cost of 0 is stored as NULL; the columns the statement does not name are kept. */
  lemma ZeroShippingStoredAsNull(base: OrderRow, b: WriteBody)
    requires b.shippingCost == Num(0)
    ensures Assigned(base, b).shippingCost == SqlNull
    ensures Assigned(base, b).purchaseLocation == base.purchaseLocation && Assigned(base, b).note == base.note
  {
  }

  /** `POST /`: 400 with `details` when a required field is missing, else one new row and 201. */
  method CreateOrder(db: Database, b: WriteBody, now: Cell) returns (reply: Reply<Body>)
    requires db.Valid()
    modifies db.orders
    ensures db.Valid()
    ensures MissingRequired(b) ==>
      reply == Reply(400, MissingFields("Missing required fields", MissingDetails(b))) &&
      db.orders.rows == old(db.orders.rows) && db.orders.nextId == old(db.orders.nextId)
    ensures !MissingRequired(b) ==>
      reply == Reply(201, Created(old(db.orders.nextId), "Order created successfully")) &&
      old(db.orders.nextId) !in old(db.orders.rows) &&
      db.orders.rows == old(db.orders.rows)[old(db.orders.nextId) := Assigned(Defaults(now), b)]
  {
    if MissingRequired(b) {
      return Reply(400, MissingFields("Missing required fields", MissingDetails(b)));
    }
    var id := db.orders.Insert(Assigned(Defaults(now), b));
    reply := Reply(201, Created(id, "Order created successfully"));
  }

  /** `PUT /:id`: 400 as for `POST`; else the ten columns replaced, 404 when no row changed. */
  method UpdateOrder(db: Database, id: int, b: WriteBody) returns (reply: Reply<Body>)
    requires db.Valid()
    modifies db.orders
    ensures db.Valid() && db.orders.nextId == old(db.orders.nextId)
    ensures MissingRequired(b) ==>
      reply == Reply(400, MissingFields("Missing required fields", MissingDetails(b))) &&
      db.orders.rows == old(db.orders.rows)
    ensures !MissingRequired(b) && id !in old(db.orders.rows) ==>
      reply == Reply(404, Error("Order not found")) && db.orders.rows == old(db.orders.rows)
    ensures !MissingRequired(b) && id in old(db.orders.rows) ==>
      reply == Reply(200, Message("Order updated successfully")) &&
      db.orders.rows == old(db.orders.rows)[id := Assigned(old(db.orders.rows)[id], b)]
  {
    if MissingRequired(b) {
      return Reply(400, MissingFields("Missing required fields", MissingDetails(b)));
    }
    var changes := db.orders.Update(id, row => Assigned(row, b));
    if changes == 0 {
      return Reply(404, Error("Order not found"));
    }
    reply := Reply(200, Message("Order updated successfully"));
  }

  /** `DELETE /:id`: removes the row, 404 when no row changed. */
  method DeleteOrder(db: Database, id: int) returns (reply: Reply<Body>)
    requires db.Valid()
    modifies db.orders
    ensures db.Valid() && db.orders.nextId == old(db.orders.nextId)
    ensures db.orders.rows == old(db.orders.rows) - {id}
    ensures id !in old(db.orders.rows) ==> reply == Reply(404, Error("Order not found"))
    ensures id in old(db.orders.rows) ==> reply == Reply(200, Message("Order deleted successfully"))
  {
    var changes := db.orders.Delete(id);
    if changes == 0 {
      return Reply(404, Error("Order not found"));
    }
    reply := Reply(200, Message("Order deleted successfully"));
  }
}
