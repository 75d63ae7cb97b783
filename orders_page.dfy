/**
 * The orders page `src/pages/Orders.jsx`: the query string it builds from the
 * filter panel, the re-sort of loaded orders, the column chooser, the filter
 * merge and the table's sort state.
 */
module OrdersPage {
  import opened Values
  import opened Seqs

  // ---------------------------------------------------------------------------
  // Filters and the query string
  // ---------------------------------------------------------------------------

  /** A two-ended picker value `[lo, hi]`. */
  datatype Range<T> = Range(lo: T, hi: T)

  /**
   * The `filters` state. A range that is not set (`undefined` or `null`) is
   * `None`; a picked day is its `YYYY-MM-DD` text and an unpicked one `None`.
   */
  datatype Filters = Filters(
    dateRange: Option<Range<Option<string>>>,
    machineId: Json,
    machineTypeId: Json,
    machineSubtypeId: Json,
    source: Json,
    priceRange: Option<Range<Json>>,
    costOfGoodRange: Option<Range<Json>>,
    shippingCostRange: Option<Range<Json>>,
    purchaseLocation: Json)

  /** The state the page starts with. */
  const InitialFilters: Filters :=
    Filters(Some(Range(None, None)), Undefined, Undefined, Undefined, Str(""), None, None, None, Str(""))

  /** `handleResetFilters`: every filter cleared and the date range set to today on both ends. */
  function ResetFilters(today: string): Filters {
    Filters(Some(Range(Some(today), Some(today))), Undefined, Undefined, Undefined, Str(""), None, None, None, Str(""))
  }

  /** The keys `fetchOrders` may append, in the order of its tests. */
  datatype Key =
    | DateFrom | DateTo | MachineId | MachineTypeId | MachineSubtypeId | Source | PriceMin | PriceMax
    | CostOfGoodMin | CostOfGoodMax | ShippingCostMin | ShippingCostMax | PurchaseLocation

  /** The name a key has in the query string. */
  function Name(k: Key): string {
    match k
    case DateFrom => "dateFrom"
    case DateTo => "dateTo"
    case MachineId => "machineId"
    case MachineTypeId => "machineTypeId"
    case MachineSubtypeId => "machineSubtypeId"
    case Source => "source"
    case PriceMin => "priceMin"
    case PriceMax => "priceMax"
    case CostOfGoodMin => "costOfGoodMin"
    case CostOfGoodMax => "costOfGoodMax"
    case ShippingCostMin => "shippingCostMin"
    case ShippingCostMax => "shippingCostMax"
    case PurchaseLocation => "purchaseLocation"
  }

  const AllKeys: seq<Key> :=
    [] + [DateFrom] + [DateTo] + [MachineId] + [MachineTypeId] + [MachineSubtypeId] + [Source] +
    [PriceMin] + [PriceMax] + [CostOfGoodMin] + [CostOfGoodMax] + [ShippingCostMin] + [ShippingCostMax] +
    [PurchaseLocation]

  /** A key's place in the order of the tests. */
  function Rank(k: Key): int {
    match k
    case DateFrom => 0
    case DateTo => 1
    case MachineId => 2
    case MachineTypeId => 3
    case MachineSubtypeId => 4
    case Source => 5
    case PriceMin => 6
    case PriceMax => 7
    case CostOfGoodMin => 8
    case CostOfGoodMax => 9
    case ShippingCostMin => 10
    case ShippingCostMax => 11
    case PurchaseLocation => 12
  }

  /** One `params.append(name, value)`. */
  datatype Param = Param(key: Key, value: Json)

  /** `filters.dateRange && filters.dateRange[0] && filters.dateRange[1]`. */
  predicate BothDates(f: Filters) {
    f.dateRange.Some? && f.dateRange.value.lo.Some? && f.dateRange.value.hi.Some?
  }

  /** `r[0]` of a range, read as `undefined` when the range is not set. */
  function Lo(r: Option<Range<Json>>): Json {
    if r.Some? then r.value.lo else Undefined
  }

  /** `r[1]` of a range, read as `undefined` when the range is not set. */
  function Hi(r: Option<Range<Json>>): Json {
    if r.Some? then r.value.hi else Undefined
  }

  /** A value the test keeps. */
  function If(pass: bool, v: Json): Option<Json> {
    if pass then Some(v) else None
  }

  /**
   * The value the test for `k` appends, or `None` when it appends nothing: the
   * dates only when both ends are picked, the ids and texts when truthy, each
   * money bound when it is not `undefined`.
   */
  function ValueFor(f: Filters, k: Key): Option<Json> {
    match k
    case DateFrom => if BothDates(f) then Some(Str(f.dateRange.value.lo.value)) else None
    case DateTo => if BothDates(f) then Some(Str(f.dateRange.value.hi.value)) else None
    case MachineId => If(Truthy(f.machineId), f.machineId)
    case MachineTypeId => If(Truthy(f.machineTypeId), f.machineTypeId)
    case MachineSubtypeId => If(Truthy(f.machineSubtypeId), f.machineSubtypeId)
    case Source => If(Truthy(f.source), f.source)
    case PriceMin => If(Lo(f.priceRange) != Undefined, Lo(f.priceRange))
    case PriceMax => If(Hi(f.priceRange) != Undefined, Hi(f.priceRange))
    case CostOfGoodMin => If(Lo(f.costOfGoodRange) != Undefined, Lo(f.costOfGoodRange))
    case CostOfGoodMax => If(Hi(f.costOfGoodRange) != Undefined, Hi(f.costOfGoodRange))
    case ShippingCostMin => If(Lo(f.shippingCostRange) != Undefined, Lo(f.shippingCostRange))
    case ShippingCostMax => If(Hi(f.shippingCostRange) != Undefined, Hi(f.shippingCostRange))
    case PurchaseLocation => If(Truthy(f.purchaseLocation), f.purchaseLocation)
  }

  /** The parameters the tests for `keys`, run in that order, append. */
  function EmittedAmong(f: Filters, keys: seq<Key>): seq<Param> {
    if keys == [] then []
    else
      var k := keys[|keys| - 1];
      EmittedAmong(f, keys[..|keys| - 1]) + (if ValueFor(f, k).Some? then [Param(k, ValueFor(f, k).value)] else [])
  }

  /** The query parameters of `fetchOrders`. */
  function QueryParams(f: Filters): seq<Param> {
    EmittedAmong(f, AllKeys)
  }

  /** Keys in the order of the tests, each at most once. */
  predicate RankIncreasing(ps: seq<Param>) {
    forall i, j :: 0 <= i < j < |ps| ==> Rank(ps[i].key) < Rank(ps[j].key)
  }

  lemma {:induction false} EmittedAmongMembers(f: Filters, keys: seq<Key>)
    ensures forall p :: p in EmittedAmong(f, keys) <==> p.key in keys && ValueFor(f, p.key) == Some(p.value)
  {
    if keys != [] {
      EmittedAmongMembers(f, keys[..|keys| - 1]);
      assert keys == keys[..|keys| - 1] + [keys[|keys| - 1]];
    }
  }

  lemma {:induction false} EmittedAmongRanked(f: Filters, keys: seq<Key>)
    requires forall i, j :: 0 <= i < j < |keys| ==> Rank(keys[i]) < Rank(keys[j])
    ensures RankIncreasing(EmittedAmong(f, keys))
  {
    if keys != [] {
      var init := keys[..|keys| - 1];
      var last := keys[|keys| - 1];
      assert forall i, j :: 0 <= i < j < |init| ==> Rank(init[i]) < Rank(init[j]) by {
        forall i, j | 0 <= i < j < |init| ensures Rank(init[i]) < Rank(init[j]) {
          assert init[i] == keys[i] && init[j] == keys[j];
        }
      }
      EmittedAmongRanked(f, init);
      EmittedAmongMembers(f, init);
      var r0 := EmittedAmong(f, init);
      forall i | 0 <= i < |r0| ensures Rank(r0[i].key) < Rank(last) {
        assert r0[i] in r0;
        var k :| 0 <= k < |init| && init[k] == r0[i].key;
        assert init[k] == keys[k];
      }
      var r := EmittedAmong(f, keys);
      if ValueFor(f, last).Some? {
        assert r == r0 + [Param(last, ValueFor(f, last).value)];
        forall i, j | 0 <= i < j < |r| ensures Rank(r[i].key) < Rank(r[j].key) {
          if j == |r0| {
            assert r[i] == r0[i];
          } else {
            assert r[i] == r0[i] && r[j] == r0[j];
          }
        }
      } else {
        assert r == r0;
      }
    }
  }

  /** When no key from index `n` on appends anything, the later tests add nothing. */
  lemma {:induction false} EmittedAmongSkip(f: Filters, keys: seq<Key>, n: nat)
    requires n <= |keys|
    requires forall i :: n <= i < |keys| ==> ValueFor(f, keys[i]).None?
    ensures EmittedAmong(f, keys) == EmittedAmong(f, keys[..n])
  {
    if n < |keys| {
      var init := keys[..|keys| - 1];
      assert init[..n] == keys[..n];
      EmittedAmongSkip(f, init, n);
    } else {
      assert keys[..n] == keys;
    }
  }

  lemma EveryKeyListed(k: Key)
    ensures k in AllKeys && AllKeys[Rank(k)] == k
  {
    match k
    case DateFrom => assert AllKeys[0] == k;
    case DateTo => assert AllKeys[1] == k;
    case MachineId => assert AllKeys[2] == k;
    case MachineTypeId => assert AllKeys[3] == k;
    case MachineSubtypeId => assert AllKeys[4] == k;
    case Source => assert AllKeys[5] == k;
    case PriceMin => assert AllKeys[6] == k;
    case PriceMax => assert AllKeys[7] == k;
    case CostOfGoodMin => assert AllKeys[8] == k;
    case CostOfGoodMax => assert AllKeys[9] == k;
    case ShippingCostMin => assert AllKeys[10] == k;
    case ShippingCostMax => assert AllKeys[11] == k;
    case PurchaseLocation => assert AllKeys[12] == k;
  }

  lemma AllKeysRanked()
    ensures |AllKeys| == 13 && forall i :: 0 <= i < |AllKeys| ==> Rank(AllKeys[i]) == i
  {
  }

  /**
   * A parameter is sent exactly when its test passes, with the tested value;
   * parameters are in the order of the tests and no key appears twice.
   */
  lemma QueryParamsExact(f: Filters)
    ensures forall p :: p in QueryParams(f) <==> ValueFor(f, p.key) == Some(p.value)
    ensures RankIncreasing(QueryParams(f))
    ensures forall i, j :: 0 <= i < j < |QueryParams(f)| ==> QueryParams(f)[i].key != QueryParams(f)[j].key
  {
    EmittedAmongMembers(f, AllKeys);
    forall k ensures k in AllKeys {
      EveryKeyListed(k);
    }
    AllKeysRanked();
    EmittedAmongRanked(f, AllKeys);
  }

  /** `dateFrom` and `dateTo` are sent together, exactly when both ends of the range are picked. */
  lemma DatesTogether(f: Filters)
    ensures BothDates(f) ==>
      Param(DateFrom, Str(f.dateRange.value.lo.value)) in QueryParams(f) &&
      Param(DateTo, Str(f.dateRange.value.hi.value)) in QueryParams(f)
    ensures !BothDates(f) ==> forall p :: p in QueryParams(f) ==> p.key != DateFrom && p.key != DateTo
  {
    QueryParamsExact(f);
  }

  /** The ids and the two texts are sent exactly when truthy, so an id of 0 or an empty text is not. */
  lemma TruthyFiltersSent(f: Filters)
    ensures Param(MachineId, f.machineId) in QueryParams(f) <==> Truthy(f.machineId)
    ensures Param(MachineTypeId, f.machineTypeId) in QueryParams(f) <==> Truthy(f.machineTypeId)
    ensures Param(MachineSubtypeId, f.machineSubtypeId) in QueryParams(f) <==> Truthy(f.machineSubtypeId)
    ensures Param(Source, f.source) in QueryParams(f) <==> Truthy(f.source)
    ensures Param(PurchaseLocation, f.purchaseLocation) in QueryParams(f) <==> Truthy(f.purchaseLocation)
  {
    QueryParamsExact(f);
  }

  /** Each money bound is sent exactly when it is not `undefined`: a bound of 0, or `null`, is sent. */
  lemma BoundsSentWhenDefined(f: Filters)
    ensures Param(PriceMin, Lo(f.priceRange)) in QueryParams(f) <==> Lo(f.priceRange) != Undefined
    ensures Param(PriceMax, Hi(f.priceRange)) in QueryParams(f) <==> Hi(f.priceRange) != Undefined
    ensures Param(CostOfGoodMin, Lo(f.costOfGoodRange)) in QueryParams(f) <==> Lo(f.costOfGoodRange) != Undefined
    ensures Param(CostOfGoodMax, Hi(f.costOfGoodRange)) in QueryParams(f) <==> Hi(f.costOfGoodRange) != Undefined
    ensures Param(ShippingCostMin, Lo(f.shippingCostRange)) in QueryParams(f) <==>
      Lo(f.shippingCostRange) != Undefined
    ensures Param(ShippingCostMax, Hi(f.shippingCostRange)) in QueryParams(f) <==>
      Hi(f.shippingCostRange) != Undefined
  {
    QueryParamsExact(f);
  }

  /** The two kinds of test differ at 0: a machine id of 0 is dropped, a minimum price of 0 is sent. */
  lemma ZeroIdDroppedZeroPriceSent(f: Filters)
    requires f.machineId == Num(0) && f.priceRange.Some? && f.priceRange.value.lo == Num(0)
    ensures forall p :: p in QueryParams(f) ==> p.key != MachineId
    ensures Param(PriceMin, Num(0)) in QueryParams(f)
  {
    QueryParamsExact(f);
  }

  /** The page's first fetch sends no parameter at all. */
  lemma InitialSendsNothing()
    ensures QueryParams(InitialFilters) == []
  {
    AllKeysRanked();
    EmittedAmongSkip(InitialFilters, AllKeys, 0);
  }

  /** The date test alone: both dates or neither. */
  lemma DatesFirst(f: Filters)
    ensures EmittedAmong(f, [] + [DateFrom] + [DateTo]) ==
      if BothDates(f) then [Param(DateFrom, Str(f.dateRange.value.lo.value)), Param(DateTo, Str(f.dateRange.value.hi.value))]
      else []
  {
    var dates := [] + [DateFrom] + [DateTo];
    assert dates[..1] == [DateFrom] && dates[..1][..0] == [];
    assert EmittedAmong(f, [DateFrom]) == if BothDates(f) then [Param(DateFrom, Str(f.dateRange.value.lo.value))] else [];
  }

  /** The filters a reset stores send only today's date as both ends of the range. */
  lemma ResetSendsToday(today: string)
    ensures QueryParams(ResetFilters(today)) == [Param(DateFrom, Str(today)), Param(DateTo, Str(today))]
  {
    var f := ResetFilters(today);
    AllKeysRanked();
    EmittedAmongSkip(f, AllKeys, 2);
    assert AllKeys[..2] == [] + [DateFrom] + [DateTo];
    DatesFirst(f);
  }

  /** What a call of `handleResetFilters` leaves in state, and what its own fetch sends. */
  datatype ResetOutcome = ResetOutcome(stored: Filters, sent: seq<Param>)

  /**
   * `handleResetFilters` as written: `setFilters` only schedules the new
   * state, so the `fetchOrders()` right after it reads the filters of the
   * render the handler belongs to.
   */
  function ResetAsWritten(prev: Filters, today: string): ResetOutcome {
    ResetOutcome(ResetFilters(today), QueryParams(prev))
  }

  /**
   * The reset's fetch agrees with the filters it stores only when the
   * previous filters already sent today's date alone; on the freshly loaded
   * page it sends no date at all.
   */
  lemma ResetFetchIsStale(prev: Filters, today: string)
    ensures ResetAsWritten(prev, today).sent == QueryParams(ResetAsWritten(prev, today).stored) <==>
      QueryParams(prev) == [Param(DateFrom, Str(today)), Param(DateTo, Str(today))]
    ensures ResetAsWritten(InitialFilters, today).sent == []
    ensures QueryParams(ResetAsWritten(InitialFilters, today).stored) != []
  {
    ResetSendsToday(today);
    InitialSendsNothing();
  }

  /** The reset the comment in the handler describes: fetch with the reset filters. */
  function ResetIntended(prev: Filters, today: string): ResetOutcome {
    ResetOutcome(ResetFilters(today), QueryParams(ResetFilters(today)))
  }

  /** The intended reset fetches what it stores, which is today's date alone, whatever came before. */
  lemma ResetIntendedSendsToday(prev: Filters, today: string)
    ensures ResetIntended(prev, today).sent == QueryParams(ResetIntended(prev, today).stored)
    ensures ResetIntended(prev, today).sent == [Param(DateFrom, Str(today)), Param(DateTo, Str(today))]
  {
    ResetSendsToday(today);
  }

  predicate BuiltFrom(f: Filters, done: seq<Key>, params: seq<Param>) {
    params == EmittedAmong(f, done)
  }

  /** One test `if (pass) params.append(name, v)`, for a test whose outcome and value are those of `k`. */
  method AddParam(f: Filters, k: Key, pass: bool, v: Json, ghost done: seq<Key>, params: seq<Param>)
      returns (params': seq<Param>)
    requires BuiltFrom(f, done, params)
    requires ValueFor(f, k) == If(pass, v)
    ensures BuiltFrom(f, done + [k], params')
  {
    assert (done + [k])[..|done|] == done;
    params' := params;
    if pass {
      params' := params + [Param(k, v)];
    }
  }

  /** The machine and source tests, after the date test. */
  method AddMachineAndSource(f: Filters, ghost done: seq<Key>, params: seq<Param>) returns (params': seq<Param>)
    requires BuiltFrom(f, done, params)
    ensures BuiltFrom(f, done + [MachineId] + [MachineTypeId] + [MachineSubtypeId] + [Source], params')
  {
    params' := AddParam(f, MachineId, Truthy(f.machineId), f.machineId, done, params);
    params' := AddParam(f, MachineTypeId, Truthy(f.machineTypeId), f.machineTypeId, done + [MachineId], params');
    params' := AddParam(f, MachineSubtypeId, Truthy(f.machineSubtypeId), f.machineSubtypeId,
                        done + [MachineId] + [MachineTypeId], params');
    params' := AddParam(f, Source, Truthy(f.source), f.source,
                        done + [MachineId] + [MachineTypeId] + [MachineSubtypeId], params');
  }

  /** The price and cost-of-good tests: `if (r && r[0] !== undefined)` and `r[1]` alike. */
  method AddPriceAndCost(f: Filters, ghost done: seq<Key>, params: seq<Param>) returns (params': seq<Param>)
    requires BuiltFrom(f, done, params)
    ensures BuiltFrom(f, done + [PriceMin] + [PriceMax] + [CostOfGoodMin] + [CostOfGoodMax], params')
  {
    params' := AddParam(f, PriceMin, f.priceRange.Some? && f.priceRange.value.lo != Undefined,
                        Lo(f.priceRange), done, params);
    params' := AddParam(f, PriceMax, f.priceRange.Some? && f.priceRange.value.hi != Undefined,
                        Hi(f.priceRange), done + [PriceMin], params');
    params' := AddParam(f, CostOfGoodMin, f.costOfGoodRange.Some? && f.costOfGoodRange.value.lo != Undefined,
                        Lo(f.costOfGoodRange), done + [PriceMin] + [PriceMax], params');
    params' := AddParam(f, CostOfGoodMax, f.costOfGoodRange.Some? && f.costOfGoodRange.value.hi != Undefined,
                        Hi(f.costOfGoodRange), done + [PriceMin] + [PriceMax] + [CostOfGoodMin], params');
  }

  /** The shipping-cost tests and the purchase-location test. */
  method AddShippingAndLocation(f: Filters, ghost done: seq<Key>, params: seq<Param>) returns (params': seq<Param>)
    requires BuiltFrom(f, done, params)
    ensures BuiltFrom(f, done + [ShippingCostMin] + [ShippingCostMax] + [PurchaseLocation], params')
  {
    params' := AddParam(f, ShippingCostMin, f.shippingCostRange.Some? && f.shippingCostRange.value.lo != Undefined,
                        Lo(f.shippingCostRange), done, params);
    params' := AddParam(f, ShippingCostMax, f.shippingCostRange.Some? && f.shippingCostRange.value.hi != Undefined,
                        Hi(f.shippingCostRange), done + [ShippingCostMin], params');
    params' := AddParam(f, PurchaseLocation, Truthy(f.purchaseLocation), f.purchaseLocation,
                        done + [ShippingCostMin] + [ShippingCostMax], params');
  }

  /** The chain of tests in `fetchOrders` that fills the `URLSearchParams`. */
  method BuildOrderParams(f: Filters) returns (params: seq<Param>)
    ensures params == QueryParams(f)
  {
    params := [];
    if f.dateRange.Some? && f.dateRange.value.lo.Some? && f.dateRange.value.hi.Some? {
      params := params + [Param(DateFrom, Str(f.dateRange.value.lo.value))];
      params := params + [Param(DateTo, Str(f.dateRange.value.hi.value))];
    }
    ghost var done: seq<Key> := [] + [DateFrom] + [DateTo];
    DatesFirst(f);
    params := AddMachineAndSource(f, done, params);
    done := done + [MachineId] + [MachineTypeId] + [MachineSubtypeId] + [Source];
    params := AddPriceAndCost(f, done, params);
    done := done + [PriceMin] + [PriceMax] + [CostOfGoodMin] + [CostOfGoodMax];
    params := AddShippingAndLocation(f, done, params);
    done := done + [ShippingCostMin] + [ShippingCostMax] + [PurchaseLocation];
    assert done == AllKeys;
  }

  // ---------------------------------------------------------------------------
  // Filter changes
  // ---------------------------------------------------------------------------

  /** The `changedValues` of the filter form: `Some` for each field it holds. */
  datatype FilterChange = FilterChange(
    dateRange: Option<Option<Range<Option<string>>>>,
    machineId: Option<Json>,
    machineTypeId: Option<Json>,
    machineSubtypeId: Option<Json>,
    source: Option<Json>,
    priceRange: Option<Option<Range<Json>>>,
    costOfGoodRange: Option<Option<Range<Json>>>,
    shippingCostRange: Option<Option<Range<Json>>>,
    purchaseLocation: Option<Json>)

  const NoChange: FilterChange := FilterChange(None, None, None, None, None, None, None, None, None)

  function Over<T>(prior: T, change: Option<T>): T {
    if change.Some? then change.value else prior
  }

  /** `handleFilterChange`: `{ ...prev, ...changedValues }`. */
  function MergeFilters(prev: Filters, ch: FilterChange): Filters {
    Filters(Over(prev.dateRange, ch.dateRange), Over(prev.machineId, ch.machineId),
            Over(prev.machineTypeId, ch.machineTypeId), Over(prev.machineSubtypeId, ch.machineSubtypeId),
            Over(prev.source, ch.source), Over(prev.priceRange, ch.priceRange),
            Over(prev.costOfGoodRange, ch.costOfGoodRange), Over(prev.shippingCostRange, ch.shippingCostRange),
            Over(prev.purchaseLocation, ch.purchaseLocation))
  }

  /** The change holds the field that the test for `k` reads. */
  predicate Touches(ch: FilterChange, k: Key) {
    match k
    case DateFrom => ch.dateRange.Some?
    case DateTo => ch.dateRange.Some?
    case MachineId => ch.machineId.Some?
    case MachineTypeId => ch.machineTypeId.Some?
    case MachineSubtypeId => ch.machineSubtypeId.Some?
    case Source => ch.source.Some?
    case PriceMin => ch.priceRange.Some?
    case PriceMax => ch.priceRange.Some?
    case CostOfGoodMin => ch.costOfGoodRange.Some?
    case CostOfGoodMax => ch.costOfGoodRange.Some?
    case ShippingCostMin => ch.shippingCostRange.Some?
    case ShippingCostMax => ch.shippingCostRange.Some?
    case PurchaseLocation => ch.purchaseLocation.Some?
  }

  /** An empty change keeps the filters; applying the same change twice is applying it once. */
  lemma MergeNothingIdempotent(prev: Filters, ch: FilterChange)
    ensures MergeFilters(prev, NoChange) == prev
    ensures MergeFilters(MergeFilters(prev, ch), ch) == MergeFilters(prev, ch)
  {
  }

  /**
   * After a merge, a key the change leaves alone is sent as before, and a key
   * it touches is sent as the change alone decides, whatever the previous filters.
   */
  lemma MergeKeepsUntouched(prev: Filters, other: Filters, ch: FilterChange, k: Key)
    ensures !Touches(ch, k) ==> ValueFor(MergeFilters(prev, ch), k) == ValueFor(prev, k)
    ensures Touches(ch, k) ==> ValueFor(MergeFilters(prev, ch), k) == ValueFor(MergeFilters(other, ch), k)
  {
  }

  // ---------------------------------------------------------------------------
  // Loaded orders
  // ---------------------------------------------------------------------------

  /** An order as loaded, with its date as `dayjs(date).valueOf()`. */
  datatype LoadedOrder = LoadedOrder(id: int, date: int)

  /** The re-sort effect: a non-empty list sorted by the comparator `b.date - a.date`, latest first. */
  function SortLoaded(orders: seq<LoadedOrder>): (r: seq<LoadedOrder>)
    ensures multiset(r) == multiset(orders) && |r| == |orders|
    ensures forall i, j :: 0 <= i < j < |r| ==> r[i].date >= r[j].date
  {
    var later := (a: LoadedOrder, b: LoadedOrder) => a.date >= b.date;
    if |orders| > 0 then
      assert TotalPreorder(later);
      SortBySorted(orders, later);
      SortBy(orders, later)
    else orders
  }

  // ---------------------------------------------------------------------------
  // Columns
  // ---------------------------------------------------------------------------

  /** The table's column keys, in their order on the page. */
  const OrderColumns: seq<string> :=
    [] + ["date"] + ["machine_name"] + ["machine_type_name"] + ["machine_subtype_name"] + ["customer_name"] +
    ["phone"] + ["source"] + ["price"] + ["cost_of_good"] + ["shipping_cost"] + ["purchase_location"] +
    ["note"] + ["actions"]

  /** `!columnSettings[c]` is false: the setting exists and is true. */
  predicate Shown(settings: map<string, bool>, c: string) {
    c in settings && settings[c]
  }

  /** `handleColumnVisibilityChange`: `{ ...prev, [columnKey]: checked }`. */
  function SetColumnVisibility(prev: map<string, bool>, columnKey: string, checked: bool): (r: map<string, bool>)
    ensures columnKey in r && r[columnKey] == checked
    ensures forall c :: c != columnKey ==> (c in r <==> c in prev)
    ensures forall c :: c != columnKey && c in prev ==> r[c] == prev[c]
  {
    prev[columnKey := checked]
  }

  /** Setting a column back to its previous value restores the settings. */
  lemma SetColumnVisibilityBack(prev: map<string, bool>, columnKey: string, checked: bool)
    requires columnKey in prev
    ensures SetColumnVisibility(SetColumnVisibility(prev, columnKey, checked), columnKey, prev[columnKey]) == prev
  {
    var r := SetColumnVisibility(SetColumnVisibility(prev, columnKey, checked), columnKey, prev[columnKey]);
    assert r.Keys == prev.Keys;
  }

  /** `columns.filter(column => !column.hidden)`. */
  function VisibleColumns(columns: seq<string>, settings: map<string, bool>): (r: seq<string>)
    ensures IsSubseq(r, columns)
    ensures forall c :: c in r <==> c in columns && Shown(settings, c)
  {
    Filter(columns, (c: string) => Shown(settings, c))
  }

  /** The settings the page starts with when none are saved: every column shown. */
  const DefaultColumnSettings: map<string, bool> := map c | c in OrderColumns :: true

  /** With the default settings the table shows every column, in the page's order. */
  lemma DefaultShowsEveryColumn()
    ensures VisibleColumns(OrderColumns, DefaultColumnSettings) == OrderColumns
  {
    assert forall i :: 0 <= i < |OrderColumns| ==> Shown(DefaultColumnSettings, OrderColumns[i]);
  }

  /** Changing one column's setting shows or hides that column and leaves every other column as it was. */
  lemma VisibilityChangeShowsOnlyThat(columns: seq<string>, prev: map<string, bool>, columnKey: string, checked: bool)
    ensures columnKey in columns ==>
      (columnKey in VisibleColumns(columns, SetColumnVisibility(prev, columnKey, checked)) <==> checked)
    ensures forall c :: c != columnKey ==>
      (c in VisibleColumns(columns, SetColumnVisibility(prev, columnKey, checked)) <==>
       c in VisibleColumns(columns, prev))
  {
  }

  // ---------------------------------------------------------------------------
  // Sort state
  // ---------------------------------------------------------------------------

  /** The `sorter` the table reports, and the `sortedInfo` state: `column` is absent when sorting is cleared. */
  datatype Sorter = Sorter(column: Option<string>, columnKey: Json, order: Json)

  /** The initial `sortedInfo`: by date, descending. */
  const DefaultSort: Sorter := Sorter(None, Str("date"), Str("descend"))

  /** `handleTableChange`: the reported sorter when it names a column, else the date/descend default. */
  function TableChange(sorter: Sorter): (r: Sorter)
    ensures sorter.column.Some? ==> r == sorter
    ensures sorter.column.None? ==> r == DefaultSort
  {
    if sorter.column.Some? then sorter else DefaultSort
  }

  /** The sort state never holds a cleared sorter other than date/descend, and a repeated report changes nothing. */
  lemma TableChangeSettles(sorter: Sorter)
    ensures TableChange(sorter).column.None? ==>
      TableChange(sorter).columnKey == Str("date") && TableChange(sorter).order == Str("descend")
    ensures TableChange(TableChange(sorter)) == TableChange(sorter)
  {
  }
}
