/** The finance reports as they are computed: loops over the fetched rows, filling buckets and per-day maps. */
module FinanceServices {
  import opened Sums
  import opened Records
  import opened BusinessDate
  import opened Finance
  import opened StockReports

  function Get<K(==)>(totals: map<K, int>, key: K): int { if key in totals then totals[key] else 0 }

  function Added<K(==)>(totals: map<K, int>, key: K, amount: int): map<K, int>
  {
    totals[key := Get(totals, key) + amount]
  }

  /** Every entry of a map is the total of its group among the rows seen so far. */
  ghost predicate Tallies<T(!new), K(!new)>(totals: map<K, int>, rows: seq<T>, key: T -> K, f: T -> int)
  {
    forall k :: Get(totals, k) == KeyTotal(rows, key, f)(k)
  }

  lemma TallyOne<T(!new), K(!new)>(totals: map<K, int>, rows: seq<T>, key: T -> K, f: T -> int, row: T)
    requires Tallies(totals, rows, key, f)
    ensures f(row) == 0 ==> Tallies(totals, rows + [row], key, f)
    ensures Tallies(Added(totals, key(row), f(row)), rows + [row], key, f)
  {
    forall k ensures KeyTotal(rows + [row], key, f)(k) == KeyTotal(rows, key, f)(k) + OnKey(key, f, k)(row) {
      SumAppend(rows, row, OnKey(key, f, k));
    }
  }

  lemma TallyNone<T(!new), K(!new)>(key: T -> K, f: T -> int)
    ensures Tallies(map[], [], key, f)
  {
  }

  // ---- the summary -------------------------------------------------------

  method TallyBills(r: Report) returns (billed: int, byDay: map<int, int>)
    ensures billed == Sum(r.books.bills, Billed(r))
    ensures Tallies(byDay, r.books.bills, BillDay(), Billed(r))
  {
    var rows := r.books.bills;
    billed, byDay := 0, map[];
    TallyNone(BillDay(), Billed(r));
    for i := 0 to |rows|
      invariant billed == Sum(rows[..i], Billed(r))
      invariant Tallies(byDay, rows[..i], BillDay(), Billed(r))
    {
      TakeMore(rows, i);
      TallyOne(byDay, rows[..i], BillDay(), Billed(r), rows[i]);
      var bill := rows[i];
      if bill.branch in r.scope.branches && InPeriod(r.period, bill.date) {
        billed := billed + bill.total;
        byDay := Added(byDay, bill.date, bill.total);
      }
    }
    assert rows[..|rows|] == rows;
  }

  lemma TallySides(r: Report, rows: seq<ManualEntry>, m: ManualEntry, income: map<int, int>, expense: map<int, int>)
    requires Tallies(income, rows, ManualDay(), Income(r)) && Tallies(expense, rows, ManualDay(), Expense(r))
    ensures Sum(rows + [m], Income(r)) == Sum(rows, Income(r)) + if Posted(r, m) && m.income then m.amount else 0
    ensures Sum(rows + [m], Expense(r)) == Sum(rows, Expense(r)) + if Posted(r, m) && !m.income then m.amount else 0
    ensures Tallies(if Posted(r, m) && m.income then Added(income, m.date, m.amount) else income,
                    rows + [m], ManualDay(), Income(r))
    ensures Tallies(if Posted(r, m) && !m.income then Added(expense, m.date, m.amount) else expense,
                    rows + [m], ManualDay(), Expense(r))
  {
    SumAppend(rows, m, Income(r));
    SumAppend(rows, m, Expense(r));
    TallyOne(income, rows, ManualDay(), Income(r), m);
    TallyOne(expense, rows, ManualDay(), Expense(r), m);
  }

  method TallyManual(r: Report) returns (income: int, expenses: int, incomeByDay: map<int, int>, expenseByDay: map<int, int>)
    ensures income == Sum(r.books.manual, Income(r)) && expenses == Sum(r.books.manual, Expense(r))
    ensures Tallies(incomeByDay, r.books.manual, ManualDay(), Income(r))
    ensures Tallies(expenseByDay, r.books.manual, ManualDay(), Expense(r))
  {
    var rows := r.books.manual;
    income, expenses, incomeByDay, expenseByDay := 0, 0, map[], map[];
    TallyNone(ManualDay(), Income(r));
    TallyNone(ManualDay(), Expense(r));
    for i := 0 to |rows|
      invariant income == Sum(rows[..i], Income(r)) && expenses == Sum(rows[..i], Expense(r))
      invariant Tallies(incomeByDay, rows[..i], ManualDay(), Income(r))
      invariant Tallies(expenseByDay, rows[..i], ManualDay(), Expense(r))
    {
      TakeMore(rows, i);
      TallySides(r, rows[..i], rows[i], incomeByDay, expenseByDay);
      var entry := rows[i];
      if Posted(r, entry) {
        if entry.income {
          income := income + entry.amount;
          incomeByDay := Added(incomeByDay, entry.date, entry.amount);
        } else {
          expenses := expenses + entry.amount;
          expenseByDay := Added(expenseByDay, entry.date, entry.amount);
        }
      }
    }
    assert rows[..|rows|] == rows;
  }

  lemma CostParts(r: Report, e: StockEntry)
    ensures !Counts(r, e) ==> Cogs(r)(e) == 0 && Wasted(r)(e) == 0
    ensures Counts(r, e) ==>
      && Cogs(r)(e) == CogsValue(e.kind, e.delta, UnitCost(r.books.ingredients, e))
      && Wasted(r)(e) == WasteValue(e.kind, e.delta, UnitCost(r.books.ingredients, e))
    ensures Material(r)(e) == Cogs(r)(e) + Wasted(r)(e)
  {
  }

  /** What one row adds to cost of goods and to waste; reversals of either kind come off cost of goods. */
  method PlaceCost(kind: StockType, delta: int, unitCost: int) returns (toCogs: int, toWaste: int)
    ensures toCogs == CogsValue(kind, delta, unitCost) && toWaste == WasteValue(kind, delta, unitCost)
  {
    var value := Abs(delta) * unitCost;
    toCogs, toWaste := 0, 0;
    if kind == SaleDeplete {
      toCogs := value;
    } else if kind in {Waste, YieldTrim} {
      toWaste := value;
    } else if kind in REVERSALS {
      toCogs := -value;
    }
  }

  method TallyStock(r: Report) returns (cogs: int, waste: int, byDay: map<int, int>)
    ensures cogs == Sum(r.books.stock, Cogs(r)) && waste == Sum(r.books.stock, Wasted(r))
    ensures Tallies(byDay, r.books.stock, StockDay(), Material(r))
  {
    var rows := r.books.stock;
    cogs, waste, byDay := 0, 0, map[];
    TallyNone(StockDay(), Material(r));
    for i := 0 to |rows|
      invariant cogs == Sum(rows[..i], Cogs(r)) && waste == Sum(rows[..i], Wasted(r))
      invariant Tallies(byDay, rows[..i], StockDay(), Material(r))
    {
      TakeMore(rows, i);
      TallyOne(byDay, rows[..i], StockDay(), Material(r), rows[i]);
      SumAppend(rows[..i], rows[i], Cogs(r));
      SumAppend(rows[..i], rows[i], Wasted(r));
      CostParts(r, rows[i]);
      var entry := rows[i];
      if Counts(r, entry) {
        var toCogs, toWaste := PlaceCost(entry.kind, entry.delta, UnitCost(r.books.ingredients, entry));
        cogs := cogs + toCogs;
        waste := waste + toWaste;
        byDay := Added(byDay, CalendarDay(entry.at), toCogs + toWaste);
      }
    }
    assert rows[..|rows|] == rows;
  }

  method TallyPayroll(r: Report) returns (payroll: int, byDay: map<int, int>)
    ensures payroll == Sum(r.books.runs, Payroll(r))
    ensures Tallies(byDay, r.books.runs, RunDay(), Payroll(r))
  {
    var rows := r.books.runs;
    payroll, byDay := 0, map[];
    TallyNone(RunDay(), Payroll(r));
    for i := 0 to |rows|
      invariant payroll == Sum(rows[..i], Payroll(r))
      invariant Tallies(byDay, rows[..i], RunDay(), Payroll(r))
    {
      TakeMore(rows, i);
      TallyOne(byDay, rows[..i], RunDay(), Payroll(r), rows[i]);
      var run := rows[i];
      if run.counted && SeesRun(r.scope, run.branch) && InPeriod(r.period, run.periodEnd) {
        payroll := payroll + (run.gross - run.tips);
        byDay := Added(byDay, run.periodEnd, run.gross - run.tips);
      }
    }
    assert rows[..|rows|] == rows;
  }

  /** The per-day maps of a report. */
  datatype DayMaps = DayMaps(billed: map<int, int>, income: map<int, int>, cost: map<int, int>,
                             payroll: map<int, int>, expenses: map<int, int>)

  function RowFrom(m: DayMaps, d: int): DayRow
  {
    DayRowFrom(d, Get(m.billed, d) + Get(m.income, d), Get(m.cost, d), Get(m.payroll, d), Get(m.expenses, d))
  }

  ghost predicate Faithful(r: Report, m: DayMaps) { forall d :: RowFrom(m, d) == DayRowOf(r, d) }

  lemma MapsAreFaithful(r: Report, m: DayMaps)
    requires Tallies(m.billed, r.books.bills, BillDay(), Billed(r))
    requires Tallies(m.income, r.books.manual, ManualDay(), Income(r))
    requires Tallies(m.cost, r.books.stock, StockDay(), Material(r))
    requires Tallies(m.payroll, r.books.runs, RunDay(), Payroll(r))
    requires Tallies(m.expenses, r.books.manual, ManualDay(), Expense(r))
    ensures Faithful(r, m)
  {
  }

  lemma NextRow(r: Report, m: DayMaps, days: seq<int>, day: int, series: seq<DayRow>)
    requires Faithful(r, m) && series == Series(r, days)
    ensures series + [RowFrom(m, day)] == Series(r, days + [day])
  {
    assert (days + [day])[..|days|] == days;
    var row := RowFrom(m, day);
    assert row == DayRowOf(r, day);
  }

  /** One row for every day of the range. */
  method BuildSeries(r: Report, m: DayMaps) returns (series: seq<DayRow>)
    requires Faithful(r, m)
    ensures series == Series(r, DaysOf(r.period))
  {
    series := [];
    var days := DaysOf(r.period);
    for i := 0 to |days|
      invariant series == Series(r, days[..i])
    {
      TakeMore(days, i);
      NextRow(r, m, days[..i], days[i], series);
      series := series + [RowFrom(m, days[i])];
    }
    assert days[..|days|] == days;
  }

  method ComputeCore(r: Report) returns (core: Core, series: seq<DayRow>)
    ensures core == CoreOf(r)
    ensures series == Series(r, DaysOf(r.period))
    ensures Sum(series, NetOf()) == NetProfit(core)
  {
    var billed, billedByDay := TallyBills(r);
    var income, expenses, incomeByDay, expenseByDay := TallyManual(r);
    var cogs, waste, costByDay := TallyStock(r);
    var payroll, payrollByDay := TallyPayroll(r);
    core := Core(Sales(billed, income), Materials(cogs, waste), Spending(payroll, expenses));
    var maps := DayMaps(billedByDay, incomeByDay, costByDay, payrollByDay, expenseByDay);
    MapsAreFaithful(r, maps);
    series := BuildSeries(r, maps);
    SeriesAddsUp(r);
  }

  // ---- the stock reports -------------------------------------------------

  predicate Empty(b: Buckets) { forall i | 0 <= i < 6 :: b[i] == Flow(0, 0) }

  lemma EmptyIsUnique(a: Buckets, b: Buckets)
    requires Empty(a) && Empty(b)
    ensures a == b
  {
  }

  /** One ingredient's running bucket sums. */
  class StockBucket {
    var received: int
    var consumption: int
    var waste: int
    var transfer: int
    var adjustment: int
    var other: int
    var receivedValue: int
    var consumedValue: int
    var wasteValue: int

    function Value(): Buckets
      reads this
    {
      [Flow(received, receivedValue), Flow(consumption, consumedValue), Flow(waste, wasteValue),
       Flow(transfer, 0), Flow(adjustment, 0), Flow(other, 0)]
    }

    constructor ()
      ensures Empty(Value())
    {
      received, consumption, waste, transfer, adjustment, other := 0, 0, 0, 0, 0, 0;
      receivedValue, consumedValue, wasteValue := 0, 0, 0;
    }

    method Add(kind: StockType, delta: int, unitCost: int)
      modifies this
      ensures Value() == Accumulate(old(Value()), kind, delta, unitCost)
    {
      match Classify(kind) {
        case Received =>
          received := received + delta;
          receivedValue := receivedValue + delta * unitCost;
        case Consumption =>
          consumption := consumption + delta;
          consumedValue := consumedValue + -delta * unitCost;
        case Wastage =>
          waste := waste + delta;
          wasteValue := wasteValue + -delta * unitCost;
        case Transferred => transfer := transfer + delta;
        case Adjustment => adjustment := adjustment + delta;
        case Remaining => other := other + delta;
      }
    }
  }

  /** What each ingredient had in stock before the range. */
  method OpeningByIngredient(r: Report) returns (openings: map<Id, int>)
    ensures forall k: Id :: Get(openings, k) == Balance(r, k, r.period.from)
  {
    var rows := r.books.stock;
    openings := map[];
    for i := 0 to |rows|
      invariant forall k: Id :: Get(openings, k) == Sum(rows[..i], Where(Before(r.scope, k, r.period.from), Delta()))
    {
      assert rows[..i + 1][..i] == rows[..i];
      var entry := rows[i];
      if SeesStock(r.scope, entry.branch) && entry.at < DayStart(r.period.from) {
        openings := Added(openings, entry.ingredient, entry.delta);
      }
    }
    assert rows[..|rows|] == rows;
  }

  function Folded(r: Report, rows: seq<StockEntry>, k: Id): Buckets
  {
    BucketsOf(Filter(rows, InRange(r, k)), r.books.ingredients)
  }

  lemma FoldNone(r: Report, rows: seq<StockEntry>, k: Id)
    requires |rows| == 0
    ensures Empty(Folded(r, rows, k))
  {
  }

  lemma FoldOne(r: Report, rows: seq<StockEntry>, e: StockEntry, k: Id)
    ensures InRange(r, k)(e) ==>
      Folded(r, rows + [e], k)
      == Accumulate(Folded(r, rows, k), e.kind, e.delta, UnitCost(r.books.ingredients, e))
    ensures !InRange(r, k)(e) ==> Folded(r, rows + [e], k) == Folded(r, rows, k)
  {
    FilterAppend(rows, e, InRange(r, k));
    BucketsStep(Filter(rows, InRange(r, k)), e, r.books.ingredients);
    assert Filter(rows, InRange(r, k)) + [] == Filter(rows, InRange(r, k));
  }

  ghost predicate HoldsFor(buckets: map<Id, StockBucket>, r: Report, rows: seq<StockEntry>, k: Id)
    reads buckets.Values
  {
    if k in buckets then buckets[k].Value() == Folded(r, rows, k) else Empty(Folded(r, rows, k))
  }

  ghost predicate Unshared(buckets: map<Id, StockBucket>)
  {
    forall j, k | j in buckets && k in buckets && j != k :: buckets[j] != buckets[k]
  }

  lemma SkipEntry(r: Report, buckets: map<Id, StockBucket>, rows: seq<StockEntry>, e: StockEntry)
    requires forall k: Id :: HoldsFor(buckets, r, rows, k)
    requires !Counts(r, e)
    ensures forall k: Id :: HoldsFor(buckets, r, rows + [e], k)
  {
    forall k: Id ensures HoldsFor(buckets, r, rows + [e], k) {
      assert HoldsFor(buckets, r, rows, k);
      FoldOne(r, rows, e, k);
    }
  }

  /** Adding an entry to its own ingredient's object leaves every other object as it was. */
  method AddToOwn(r: Report, buckets: map<Id, StockBucket>, ghost rows: seq<StockEntry>, e: StockEntry)
    requires Unshared(buckets) && Counts(r, e) && e.ingredient in buckets
    requires forall k: Id :: HoldsFor(buckets, r, rows, k)
    modifies buckets[e.ingredient]
    ensures forall k: Id :: HoldsFor(buckets, r, rows + [e], k)
  {
    assert HoldsFor(buckets, r, rows, e.ingredient);
    buckets[e.ingredient].Add(e.kind, e.delta, UnitCost(r.books.ingredients, e));
    forall k: Id ensures HoldsFor(buckets, r, rows + [e], k) {
      assert old(HoldsFor(buckets, r, rows, k));
      FoldOne(r, rows, e, k);
    }
  }

  /** One object per ingredient met, none shared, each holding the sums of its own entries. */
  method BucketsByIngredient(r: Report) returns (buckets: map<Id, StockBucket>)
    ensures forall k: Id :: HoldsFor(buckets, r, r.books.stock, k)
  {
    var rows := r.books.stock;
    buckets := map[];
    forall k: Id ensures HoldsFor(buckets, r, rows[..0], k) {
      FoldNone(r, rows[..0], k);
    }
    for i := 0 to |rows|
      invariant Unshared(buckets) && forall k | k in buckets :: fresh(buckets[k])
      invariant forall k: Id :: HoldsFor(buckets, r, rows[..i], k)
    {
      var e := rows[i];
      var own := e.ingredient;
      if Counts(r, e) {
        assert HoldsFor(buckets, r, rows[..i], own);
        if own !in buckets {
          label before:
          var empty := new StockBucket();
          EmptyIsUnique(empty.Value(), Folded(r, rows[..i], own));
          ghost var met := buckets;
          buckets := buckets[own := empty];
          forall k: Id ensures HoldsFor(buckets, r, rows[..i], k) {
            assert old@before(HoldsFor(met, r, rows[..i], k));
          }
        }
        AddToOwn(r, buckets, rows[..i], e);
      } else {
        SkipEntry(r, buckets, rows[..i], e);
      }
      TakeMore(rows, i);
    }
    assert rows[..|rows|] == rows;
  }

  method BucketOf(r: Report, buckets: map<Id, StockBucket>, k: Id) returns (bucket: Buckets)
    requires HoldsFor(buckets, r, r.books.stock, k)
    ensures bucket == Folded(r, r.books.stock, k)
  {
    if k in buckets {
      bucket := buckets[k].Value();
    } else {
      var empty := new StockBucket();
      EmptyIsUnique(empty.Value(), Folded(r, r.books.stock, k));
      bucket := empty.Value();
    }
  }

  lemma RowIs(r: Report, k: Id, opening: int, bucket: Buckets)
    requires opening == Balance(r, k, r.period.from) && bucket == Folded(r, r.books.stock, k)
    ensures MovementOf(r, k) == Movement(k, opening, bucket, opening + NetOfBuckets(bucket))
  {
  }

  lemma NextMovement(r: Report, k: Id, opening: int, bucket: Buckets, row: Movement)
    requires opening == Balance(r, k, r.period.from) && bucket == Folded(r, r.books.stock, k)
    requires row == Movement(k, opening, bucket, opening + NetOfBuckets(bucket))
    ensures Movements(r, k + 1) == Movements(r, k) + ReportLine(row)
  {
    RowIs(r, k, opening, bucket);
  }

  method PushMovement(rows: seq<Movement>, row: Movement) returns (more: seq<Movement>)
    ensures more == rows + ReportLine(row)
  {
    var net := NetOfBuckets(row.buckets);
    more := rows;
    if !(row.opening == 0 && net == 0) {
      more := more + [row];
    }
  }

  /** A row for every ingredient that opened at something or moved. */
  method ComputeIngredientMovements(r: Report) returns (rows: seq<Movement>)
    ensures rows == Movements(r, |r.books.ingredients|)
  {
    var openings := OpeningByIngredient(r);
    var buckets := BucketsByIngredient(r);
    rows := [];
    for k := 0 to |r.books.ingredients|
      invariant forall j: Id :: HoldsFor(buckets, r, r.books.stock, j)
      invariant rows == Movements(r, k)
    {
      var bucket := BucketOf(r, buckets, k);
      var opening := Get(openings, k);
      var row := Movement(k, opening, bucket, opening + NetOfBuckets(bucket));
      NextMovement(r, k, opening, bucket, row);
      rows := PushMovement(rows, row);
    }
  }

  datatype DayTotals = DayTotals(moved: Moved, net: int)

  /** What the rows seen so far make of one day of an ingredient. */
  function DayTotalsOf(r: Report, rows: seq<StockEntry>, k: Id, d: int): DayTotals
  {
    DayTotals(MovedOn(r, rows, k, d), Sum(rows, OnKey(StockDay(), Own(r, k), d)))
  }

  function DayAfter(day: DayTotals, e: StockEntry): DayTotals
  {
    var family := Classify(e.kind);
    var moved := day.moved;
    DayTotals(Moved(moved.received + (if family == Family.Received then e.delta else 0),
                    moved.consumed + (if family == Consumption then -e.delta else 0),
                    moved.wasted + (if family == Wastage then -e.delta else 0)), day.net + e.delta)
  }

  lemma DayOne(r: Report, rows: seq<StockEntry>, e: StockEntry, k: Id, d: int)
    ensures DayTotalsOf(r, rows + [e], k, d)
            == if InRange(r, k)(e) && CalendarDay(e.at) == d then DayAfter(DayTotalsOf(r, rows, k, d), e)
               else DayTotalsOf(r, rows, k, d)
  {
    SumAppend(rows, e, FamilyOn(r, k, Family.Received, d));
    SumAppend(rows, e, FamilyOn(r, k, Consumption, d));
    SumAppend(rows, e, FamilyOn(r, k, Wastage, d));
    SumAppend(rows, e, OnKey(StockDay(), Own(r, k), d));
  }

  method EmptyDays(p: Period) returns (days: map<int, DayTotals>)
    ensures forall d :: d in days <==> InPeriod(p, d)
    ensures forall d | d in days :: days[d] == DayTotals(Moved(0, 0, 0), 0)
  {
    days := map[];
    var cursor := p.from;
    while cursor <= p.to
      invariant p.from <= cursor
      invariant forall d :: d in days <==> InPeriod(Period(p.from, cursor - 1), d)
      invariant forall d | d in days :: days[d] == DayTotals(Moved(0, 0, 0), 0)
      invariant cursor <= p.to + 1 || days == map[]
      decreases p.to - cursor
    {
      days := days[cursor := DayTotals(Moved(0, 0, 0), 0)];
      cursor := cursor + 1;
    }
  }

  ghost predicate DayHolds(days: map<int, DayTotals>, r: Report, rows: seq<StockEntry>, k: Id, d: int)
  {
    d in days ==> days[d] == DayTotalsOf(r, rows, k, d)
  }

  lemma TallyDay(days: map<int, DayTotals>, r: Report, rows: seq<StockEntry>, e: StockEntry, k: Id, d: int)
    requires DayHolds(days, r, rows, k, d) && InRange(r, k)(e)
    ensures var day := CalendarDay(e.at);
      DayHolds(if day in days then days[day := DayAfter(days[day], e)] else days, r, rows + [e], k, d)
  {
    DayOne(r, rows, e, k, d);
  }

  /** One entry of the ingredient added to its day. */
  method AddToDay(days: map<int, DayTotals>, r: Report, ghost rows: seq<StockEntry>, e: StockEntry, k: Id)
    returns (more: map<int, DayTotals>)
    requires InRange(r, k)(e) && forall d :: DayHolds(days, r, rows, k, d)
    ensures more.Keys == days.Keys && forall d :: DayHolds(more, r, rows + [e], k, d)
  {
    var day := CalendarDay(e.at);
    more := days;
    if day in more {
      more := more[day := DayAfter(more[day], e)];
    }
    forall d ensures DayHolds(more, r, rows + [e], k, d) {
      TallyDay(days, r, rows, e, k, d);
    }
  }

  lemma SkipDay(days: map<int, DayTotals>, r: Report, rows: seq<StockEntry>, e: StockEntry, k: Id)
    requires !InRange(r, k)(e) && forall d :: DayHolds(days, r, rows, k, d)
    ensures forall d :: DayHolds(days, r, rows + [e], k, d)
  {
    forall d ensures DayHolds(days, r, rows + [e], k, d) {
      assert DayHolds(days, r, rows, k, d);
      DayOne(r, rows, e, k, d);
    }
  }

  lemma EmptyDay(r: Report, rows: seq<StockEntry>, k: Id, d: int)
    requires |rows| == 0
    ensures DayTotalsOf(r, rows, k, d) == DayTotals(Moved(0, 0, 0), 0)
  {
  }

  /** A zero row for every day of the range, then one pass over the ingredient's entries. */
  method TallyDays(r: Report, k: Id) returns (days: map<int, DayTotals>, bucket: StockBucket)
    ensures fresh(bucket) && bucket.Value() == Folded(r, r.books.stock, k)
    ensures forall d :: d in days <==> InPeriod(r.period, d)
    ensures forall d :: DayHolds(days, r, r.books.stock, k, d)
  {
    var rows := r.books.stock;
    days := EmptyDays(r.period);
    bucket := new StockBucket();
    FoldNone(r, rows[..0], k);
    EmptyIsUnique(bucket.Value(), Folded(r, rows[..0], k));
    forall d ensures DayHolds(days, r, rows[..0], k, d) {
      EmptyDay(r, rows[..0], k, d);
    }
    for i := 0 to |rows|
      invariant fresh(bucket) && bucket.Value() == Folded(r, rows[..i], k)
      invariant forall d :: d in days <==> InPeriod(r.period, d)
      invariant forall d :: DayHolds(days, r, rows[..i], k, d)
    {
      var e := rows[i];
      FoldOne(r, rows[..i], e, k);
      if e.ingredient == k && Counts(r, e) {
        bucket.Add(e.kind, e.delta, UnitCost(r.books.ingredients, e));
        days := AddToDay(days, r, rows[..i], e, k);
      } else {
        SkipDay(days, r, rows[..i], e, k);
      }
      TakeMore(rows, i);
    }
    assert rows[..|rows|] == rows;
  }

  datatype Usage = Usage(movement: Movement, series: seq<UsageDay>)

  method OpeningOf(r: Report, k: Id) returns (opening: int)
    ensures opening == Balance(r, k, r.period.from)
  {
    var rows := r.books.stock;
    opening := 0;
    for i := 0 to |rows|
      invariant opening == Sum(rows[..i], Where(Before(r.scope, k, r.period.from), Delta()))
    {
      assert rows[..i + 1][..i] == rows[..i];
      var e := rows[i];
      if e.ingredient == k && SeesStock(r.scope, e.branch) && e.at < DayStart(r.period.from) {
        opening := opening + e.delta;
      }
    }
    assert rows[..|rows|] == rows;
  }

  lemma NextUsageDay(r: Report, k: Id, days: seq<int>, d: int, running: int)
    requires running == Balance(r, k, r.period.from) + Sum(days + [d], DayNet(r, k))
    ensures var day := DayTotalsOf(r, r.books.stock, k, d);
      UsageSeries(r, k, days + [d])
      == UsageSeries(r, k, days) + [UsageDay(d, day.moved, running)]
  {
    assert (days + [d])[..|days|] == days;
  }

  /** The running balance, carried from day to day. */
  method BuildUsageSeries(r: Report, k: Id, opening: int, days: map<int, DayTotals>) returns (series: seq<UsageDay>)
    requires opening == Balance(r, k, r.period.from)
    requires forall d :: d in days <==> InPeriod(r.period, d)
    requires forall d :: DayHolds(days, r, r.books.stock, k, d)
    ensures series == UsageSeries(r, k, DaysOf(r.period))
  {
    var order := DaysOf(r.period);
    series := [];
    var running := opening;
    for i := 0 to |order|
      invariant series == UsageSeries(r, k, order[..i])
      invariant running == opening + Sum(order[..i], DayNet(r, k))
    {
      TakeMore(order, i);
      assert order[i] in days && DayHolds(days, r, r.books.stock, k, order[i]);
      var day := days[order[i]];
      SumAppend(order[..i], order[i], DayNet(r, k));
      running := running + day.net;
      NextUsageDay(r, k, order[..i], order[i], running);
      series := series + [UsageDay(order[i], day.moved, running)];
    }
    assert order[..|order|] == order;
  }

  /** The per-day drill-down of one ingredient. */
  method ComputeIngredientUsage(r: Report, k: Id) returns (usage: Option<Usage>)
    ensures usage.None? <==> k >= |r.books.ingredients|
    ensures usage.Some? ==> usage.value.movement == MovementOf(r, k)
    ensures usage.Some? ==> usage.value.series == UsageSeries(r, k, DaysOf(r.period))
  {
    if k >= |r.books.ingredients| {
      return None;
    }
    var opening := OpeningOf(r, k);
    var days, bucket := TallyDays(r, k);
    var net := NetOfBuckets(bucket.Value());
    var series := BuildUsageSeries(r, k, opening, days);
    RowIs(r, k, opening, bucket.Value());
    usage := Some(Usage(Movement(k, opening, bucket.Value(), opening + net), series));
  }
}
