/** The finance reports over bills, payroll, manual entries and the stock ledger, before rounding. */
module Finance {
  import opened Sums
  import opened Records
  import opened BusinessDate

  // ---- rows --------------------------------------------------------------

  datatype StockType =
    | Receive | Opening | TransferIn | TransferReturn | TransferOut | CountAdjust | TransferShortage
    | SaleDeplete | Waste | YieldTrim | Reversal | SaleDepleteReversal | WasteReversal
    | OtherType(name: string)

  /** A stock ledger row; rows of the main warehouse carry no branch. */
  datatype StockEntry = StockEntry(branch: Option<Id>, ingredient: Id, at: int, kind: StockType, delta: int,
                                   unitCost: Option<int>)
  datatype Ingredient = Ingredient(unitCost: Option<int>)
  datatype PayrollRun = PayrollRun(branch: Option<Id>, periodEnd: int, gross: int, tips: int, counted: bool)
  datatype ManualEntry = ManualEntry(branch: Id, date: int, income: bool, amount: int, posted: bool)

  datatype Books = Books(bills: seq<Bill>, runs: seq<PayrollRun>, manual: seq<ManualEntry>,
                         stock: seq<StockEntry>, ingredients: seq<Ingredient>)

  datatype Scope = Scope(branches: seq<Id>, tenantWidePayroll: bool, warehouseLedger: bool)
  datatype Period = Period(from: int, to: int)
  /** What a report is asked for. */
  datatype Report = Report(books: Books, scope: Scope, period: Period)

  predicate InPeriod(p: Period, day: int) { p.from <= day <= p.to }

  predicate SeesRun(scope: Scope, branch: Option<Id>)
  {
    match branch case None => scope.tenantWidePayroll case Some(b) => b in scope.branches
  }

  predicate SeesStock(scope: Scope, branch: Option<Id>)
  {
    match branch case None => scope.warehouseLedger case Some(b) => b in scope.branches
  }

  /** The ledger is read between the first and last millisecond of the period, not by business date. */
  predicate DuringPeriod(p: Period, at: int) { DayStart(p.from) <= at <= DayEnd(p.to) }

  predicate Counts(r: Report, e: StockEntry) { SeesStock(r.scope, e.branch) && DuringPeriod(r.period, e.at) }

  function UnitCost(ingredients: seq<Ingredient>, e: StockEntry): int
  {
    if e.unitCost.Some? then e.unitCost.value
    else if e.ingredient < |ingredients| then ingredients[e.ingredient].unitCost.GetOr(0)
    else 0
  }

  function Abs(x: int): int { if x < 0 then -x else x }

  // ---- profit ------------------------------------------------------------

  const REVERSALS: set<StockType> := {Reversal, SaleDepleteReversal, WasteReversal}

  function CogsValue(kind: StockType, delta: int, unitCost: int): int
  {
    if kind == SaleDeplete then Abs(delta) * unitCost
    else if kind in REVERSALS then -(Abs(delta) * unitCost)
    else 0
  }

  function WasteValue(kind: StockType, delta: int, unitCost: int): int
  {
    if kind in {Waste, YieldTrim} then Abs(delta) * unitCost else 0
  }

  function Cogs(r: Report): StockEntry -> int
  {
    (e: StockEntry) => if Counts(r, e) then CogsValue(e.kind, e.delta, UnitCost(r.books.ingredients, e)) else 0
  }

  function Wasted(r: Report): StockEntry -> int
  {
    (e: StockEntry) => if Counts(r, e) then WasteValue(e.kind, e.delta, UnitCost(r.books.ingredients, e)) else 0
  }

  function Material(r: Report): StockEntry -> int { (e: StockEntry) => Cogs(r)(e) + Wasted(r)(e) }

  function Billed(r: Report): Bill -> int
  {
    (b: Bill) => if b.branch in r.scope.branches && InPeriod(r.period, b.date) then b.total else 0
  }

  predicate Posted(r: Report, m: ManualEntry)
  {
    m.posted && m.branch in r.scope.branches && InPeriod(r.period, m.date)
  }

  function Income(r: Report): ManualEntry -> int
  {
    (m: ManualEntry) => if Posted(r, m) && m.income then m.amount else 0
  }

  function Expense(r: Report): ManualEntry -> int
  {
    (m: ManualEntry) => if Posted(r, m) && !m.income then m.amount else 0
  }

  function Payroll(r: Report): PayrollRun -> int
  {
    (p: PayrollRun) =>
      if p.counted && SeesRun(r.scope, p.branch) && InPeriod(r.period, p.periodEnd) then p.gross - p.tips else 0
  }

  function BillDay(): Bill -> int { (b: Bill) => b.date }
  function ManualDay(): ManualEntry -> int { (m: ManualEntry) => m.date }
  function RunDay(): PayrollRun -> int { (p: PayrollRun) => p.periodEnd }
  function StockDay(): StockEntry -> int { (e: StockEntry) => CalendarDay(e.at) }

  datatype Sales = Sales(billed: int, otherIncome: int)
  datatype Materials = Materials(cogs: int, waste: int)
  datatype Spending = Spending(payroll: int, manual: int)
  datatype Core = Core(sales: Sales, materials: Materials, spending: Spending)

  function Revenue(core: Core): int { core.sales.billed + core.sales.otherIncome }
  function MaterialCost(core: Core): int { core.materials.cogs + core.materials.waste }
  function NetProfit(core: Core): int
  {
    Revenue(core) - MaterialCost(core) - (core.spending.payroll + core.spending.manual)
  }

  function SalesOf(r: Report): Sales { Sales(Sum(r.books.bills, Billed(r)), Sum(r.books.manual, Income(r))) }
  function MaterialsOf(r: Report): Materials { Materials(Sum(r.books.stock, Cogs(r)), Sum(r.books.stock, Wasted(r))) }
  function SpendingOf(r: Report): Spending { Spending(Sum(r.books.runs, Payroll(r)), Sum(r.books.manual, Expense(r))) }

  function CoreOf(r: Report): Core { Core(SalesOf(r), MaterialsOf(r), SpendingOf(r)) }

  /** One day of the series; `spending.manual` includes the payroll, as the printed expenses do. */
  datatype DayRow = DayRow(day: int, revenue: int, material: int, spending: Spending, net: int)

  function DayRevenue(r: Report, d: int): int
  {
    KeyTotal(r.books.bills, BillDay(), Billed(r))(d) + KeyTotal(r.books.manual, ManualDay(), Income(r))(d)
  }

  function DayRowFrom(d: int, revenue: int, material: int, payroll: int, expenses: int): DayRow
  {
    DayRow(d, revenue, material, Spending(payroll, expenses + payroll), revenue - material - expenses - payroll)
  }

  function DayRowOf(r: Report, d: int): DayRow
  {
    DayRowFrom(d, DayRevenue(r, d), KeyTotal(r.books.stock, StockDay(), Material(r))(d),
               KeyTotal(r.books.runs, RunDay(), Payroll(r))(d), KeyTotal(r.books.manual, ManualDay(), Expense(r))(d))
  }

  /** The days of a period, in order. */
  function DaysOf(p: Period): (days: seq<int>)
    ensures |days| == if p.from <= p.to then p.to - p.from + 1 else 0
    ensures forall i | 0 <= i < |days| :: days[i] == p.from + i
    decreases p.to - p.from
  {
    if p.from > p.to then [] else DaysOf(Period(p.from, p.to - 1)) + [p.to]
  }

  function Series(r: Report, days: seq<int>): (series: seq<DayRow>)
    ensures |series| == |days|
  {
    if |days| == 0 then []
    else
      var n := |days| - 1;
      Series(r, days[..n]) + [DayRowOf(r, days[n])]
  }

  function NetOf(): DayRow -> int { (row: DayRow) => row.net }

  // ---- the series adds up to the totals ----------------------------------

  lemma DaysCover(p: Period, day: int)
    ensures Distinct(DaysOf(p))
    ensures day in DaysOf(p) <==> InPeriod(p, day)
  {
    if InPeriod(p, day) {
      assert DaysOf(p)[day - p.from] == day;
    }
  }

  lemma StockSplits(r: Report, f: StockEntry -> int)
    requires forall e | e in r.books.stock && f(e) != 0 :: Counts(r, e)
    ensures Sum(DaysOf(r.period), KeyTotal(r.books.stock, StockDay(), f)) == Sum(r.books.stock, f)
  {
    DaysCover(r.period, 0);
    forall e | e in r.books.stock && f(e) != 0 ensures StockDay()(e) in DaysOf(r.period) {
      InRangeIff(e.at, r.period.from, r.period.to);
      DaysCover(r.period, StockDay()(e));
    }
    SplitByKey(r.books.stock, StockDay(), f, DaysOf(r.period));
  }

  lemma BillsSplit(r: Report)
    ensures Sum(DaysOf(r.period), KeyTotal(r.books.bills, BillDay(), Billed(r))) == Sum(r.books.bills, Billed(r))
  {
    DaysCover(r.period, 0);
    forall b | b in r.books.bills && Billed(r)(b) != 0 ensures BillDay()(b) in DaysOf(r.period) {
      DaysCover(r.period, b.date);
    }
    SplitByKey(r.books.bills, BillDay(), Billed(r), DaysOf(r.period));
  }

  lemma ManualSplits(r: Report, f: ManualEntry -> int)
    requires forall m | m in r.books.manual && f(m) != 0 :: Posted(r, m)
    ensures Sum(DaysOf(r.period), KeyTotal(r.books.manual, ManualDay(), f)) == Sum(r.books.manual, f)
  {
    DaysCover(r.period, 0);
    forall m | m in r.books.manual && f(m) != 0 ensures ManualDay()(m) in DaysOf(r.period) {
      DaysCover(r.period, m.date);
    }
    SplitByKey(r.books.manual, ManualDay(), f, DaysOf(r.period));
  }

  lemma RunsSplit(r: Report)
    ensures Sum(DaysOf(r.period), KeyTotal(r.books.runs, RunDay(), Payroll(r))) == Sum(r.books.runs, Payroll(r))
  {
    DaysCover(r.period, 0);
    forall p | p in r.books.runs && Payroll(r)(p) != 0 ensures RunDay()(p) in DaysOf(r.period) {
      DaysCover(r.period, p.periodEnd);
    }
    SplitByKey(r.books.runs, RunDay(), Payroll(r), DaysOf(r.period));
  }

  lemma MaterialIsCogsAndWaste(r: Report)
    ensures Sum(r.books.stock, Material(r)) == MaterialCost(CoreOf(r))
  {
    SumLinear(r.books.stock, Material(r), Cogs(r), Wasted(r), Zero());
    SumZero(r.books.stock, Zero());
  }

  lemma MaterialSplits(r: Report)
    ensures Sum(DaysOf(r.period), KeyTotal(r.books.stock, StockDay(), Material(r))) == MaterialCost(CoreOf(r))
  {
    forall e | e in r.books.stock && !Counts(r, e) ensures Material(r)(e) == 0 {
      assert Cogs(r)(e) == 0 && Wasted(r)(e) == 0;
    }
    StockSplits(r, Material(r));
    MaterialIsCogsAndWaste(r);
  }

  /** The nets of some days are the group totals of those days, put together. */
  lemma {:induction false} SeriesNet(r: Report, days: seq<int>)
    ensures Sum(Series(r, days), NetOf())
            == Sum(days, KeyTotal(r.books.bills, BillDay(), Billed(r)))
             + Sum(days, KeyTotal(r.books.manual, ManualDay(), Income(r)))
             - Sum(days, KeyTotal(r.books.stock, StockDay(), Material(r)))
             - Sum(days, KeyTotal(r.books.manual, ManualDay(), Expense(r)))
             - Sum(days, KeyTotal(r.books.runs, RunDay(), Payroll(r)))
  {
    if |days| > 0 {
      var n := |days| - 1;
      SeriesNet(r, days[..n]);
      SumAppend(Series(r, days[..n]), DayRowOf(r, days[n]), NetOf());
    }
  }

  /** The daily net profits of any range add up to its net profit. */
  lemma SeriesAddsUp(r: Report)
    ensures Sum(Series(r, DaysOf(r.period)), NetOf()) == NetProfit(CoreOf(r))
  {
    SeriesNet(r, DaysOf(r.period));
    BillsSplit(r);
    ManualSplits(r, Income(r));
    ManualSplits(r, Expense(r));
    RunsSplit(r);
    MaterialSplits(r);
  }

  function RevenueThen(): DayRow -> int { (row: DayRow) => row.revenue }
  function MaterialThen(): DayRow -> int { (row: DayRow) => row.material }
  function PayrollThen(): DayRow -> int { (row: DayRow) => row.spending.payroll }
  function SpentThen(): DayRow -> int { (row: DayRow) => row.spending.manual }

  lemma {:induction false} ColumnsOfDays(r: Report, days: seq<int>)
    ensures Sum(Series(r, days), RevenueThen())
            == Sum(days, KeyTotal(r.books.bills, BillDay(), Billed(r)))
               + Sum(days, KeyTotal(r.books.manual, ManualDay(), Income(r)))
    ensures Sum(Series(r, days), MaterialThen()) == Sum(days, KeyTotal(r.books.stock, StockDay(), Material(r)))
    ensures Sum(Series(r, days), PayrollThen()) == Sum(days, KeyTotal(r.books.runs, RunDay(), Payroll(r)))
    ensures Sum(Series(r, days), SpentThen())
            == Sum(days, KeyTotal(r.books.runs, RunDay(), Payroll(r)))
               + Sum(days, KeyTotal(r.books.manual, ManualDay(), Expense(r)))
  {
    if |days| > 0 {
      var n := |days| - 1;
      ColumnsOfDays(r, days[..n]);
      assert Series(r, days)[..n] == Series(r, days[..n]);
    }
  }

  /** Each column of the daily series adds up to its total; the printed expenses of a day include its payroll. */
  lemma ColumnsAddUp(r: Report)
    ensures var series, core := Series(r, DaysOf(r.period)), CoreOf(r);
      && Sum(series, RevenueThen()) == Revenue(core)
      && Sum(series, MaterialThen()) == MaterialCost(core)
      && Sum(series, PayrollThen()) == core.spending.payroll
      && Sum(series, SpentThen()) == core.spending.payroll + core.spending.manual
  {
    ColumnsOfDays(r, DaysOf(r.period));
    BillsSplit(r);
    ManualSplits(r, Income(r));
    ManualSplits(r, Expense(r));
    RunsSplit(r);
    MaterialSplits(r);
  }

  // ---- the tenant and its branches ---------------------------------------

  /** The report of one branch inside a tenant report: neither tenant-wide payroll nor the warehouse ledger. */
  function Rollup(r: Report, branch: Id): Report { r.(scope := Scope([branch], false, false)) }

  function RollupNet(r: Report): Id -> int { (b: Id) => NetProfit(CoreOf(Rollup(r, b))) }

  function BranchlessPayroll(r: Report): PayrollRun -> int
  {
    (p: PayrollRun) => if p.branch.None? then Payroll(r)(p) else 0
  }

  function BranchlessMaterial(r: Report): StockEntry -> int
  {
    (e: StockEntry) => if e.branch.None? then Material(r)(e) else 0
  }

  /** What no branch answers for. */
  function Branchless(r: Report): int
  {
    Sum(r.books.runs, BranchlessPayroll(r)) + Sum(r.books.stock, BranchlessMaterial(r))
  }

  function OfBranch<T>(branch: T -> Option<Id>, f: T -> int): T -> int
  {
    x => if branch(x).Some? then f(x) else 0
  }

  function BranchKey<T>(branch: T -> Option<Id>): T -> Id { x => branch(x).GetOr(0) }

  /** Rows that carry a branch split over the branches; `part(b)` is what branch b's own report makes of a row. */
  lemma SplitByBranch<T>(rows: seq<T>, branch: T -> Option<Id>, f: T -> int, none: T -> int,
                         branches: seq<Id>, part: Id -> T -> int, total: Id -> int)
    requires Distinct(branches)
    requires forall x | x in rows && branch(x).Some? && f(x) != 0 :: branch(x).value in branches
    requires forall x | x in rows :: none(x) == if branch(x).None? then f(x) else 0
    requires forall b, x | b in branches && x in rows :: part(b)(x) == if branch(x) == Some(b) then f(x) else 0
    requires forall b | b in branches :: total(b) == Sum(rows, part(b))
    ensures Sum(rows, f) == Sum(branches, total) + Sum(rows, none)
  {
    var held := OfBranch(branch, f);
    SumLinear(rows, f, held, none, Zero());
    SumZero(rows, Zero());
    SplitByKey(rows, BranchKey(branch), held, branches);
    forall b | b in branches ensures total(b) == KeyTotal(rows, BranchKey(branch), held)(b) {
      SumCongruent(rows, part(b), OnKey(BranchKey(branch), held, b));
    }
    SumCongruent(branches, total, KeyTotal(rows, BranchKey(branch), held));
  }

  function BillBranch(): Bill -> Option<Id> { (b: Bill) => Some(b.branch) }
  function ManualBranch(): ManualEntry -> Option<Id> { (m: ManualEntry) => Some(m.branch) }
  function RunBranch(): PayrollRun -> Option<Id> { (p: PayrollRun) => p.branch }
  function StockBranch(): StockEntry -> Option<Id> { (e: StockEntry) => e.branch }

  function BilledIn(r: Report): Id -> int { (b: Id) => CoreOf(Rollup(r, b)).sales.billed }
  function IncomeIn(r: Report): Id -> int { (b: Id) => CoreOf(Rollup(r, b)).sales.otherIncome }
  function ExpenseIn(r: Report): Id -> int { (b: Id) => CoreOf(Rollup(r, b)).spending.manual }
  function PayrollIn(r: Report): Id -> int { (b: Id) => CoreOf(Rollup(r, b)).spending.payroll }
  function MaterialIn(r: Report): Id -> int { (b: Id) => MaterialCost(CoreOf(Rollup(r, b))) }

  lemma BranchesSplitSales(r: Report)
    requires Distinct(r.scope.branches)
    ensures CoreOf(r).sales.billed == Sum(r.scope.branches, BilledIn(r))
    ensures CoreOf(r).sales.otherIncome == Sum(r.scope.branches, IncomeIn(r))
    ensures CoreOf(r).spending.manual == Sum(r.scope.branches, ExpenseIn(r))
  {
    SplitByBranch(r.books.bills, BillBranch(), Billed(r), Zero(), r.scope.branches,
                  b => Billed(Rollup(r, b)), BilledIn(r));
    SumZero(r.books.bills, Zero());
    SplitByBranch(r.books.manual, ManualBranch(), Income(r), Zero(), r.scope.branches,
                  b => Income(Rollup(r, b)), IncomeIn(r));
    SplitByBranch(r.books.manual, ManualBranch(), Expense(r), Zero(), r.scope.branches,
                  b => Expense(Rollup(r, b)), ExpenseIn(r));
    SumZero(r.books.manual, Zero());
  }

  lemma BranchesSplitCosts(r: Report)
    requires Distinct(r.scope.branches)
    ensures CoreOf(r).spending.payroll == Sum(r.scope.branches, PayrollIn(r)) + Sum(r.books.runs, BranchlessPayroll(r))
    ensures MaterialCost(CoreOf(r)) == Sum(r.scope.branches, MaterialIn(r)) + Sum(r.books.stock, BranchlessMaterial(r))
  {
    SplitByBranch(r.books.runs, RunBranch(), Payroll(r), BranchlessPayroll(r), r.scope.branches,
                  b => Payroll(Rollup(r, b)), PayrollIn(r));
    MaterialIsCogsAndWaste(r);
    forall b ensures MaterialIn(r)(b) == Sum(r.books.stock, Material(Rollup(r, b))) {
      MaterialIsCogsAndWaste(Rollup(r, b));
    }
    SplitByBranch(r.books.stock, StockBranch(), Material(r), BranchlessMaterial(r), r.scope.branches,
                  b => Material(Rollup(r, b)), MaterialIn(r));
  }

  lemma {:induction false} RollupNets(r: Report, branches: seq<Id>)
    ensures Sum(branches, RollupNet(r))
            == Sum(branches, BilledIn(r)) + Sum(branches, IncomeIn(r)) - Sum(branches, MaterialIn(r))
             - Sum(branches, PayrollIn(r)) - Sum(branches, ExpenseIn(r))
  {
    if |branches| > 0 {
      RollupNets(r, branches[..|branches| - 1]);
    }
  }

  /** The tenant's net profit is its branches' net profits less what no branch answers for. */
  lemma TenantIsItsBranches(r: Report)
    requires Distinct(r.scope.branches)
    ensures NetProfit(CoreOf(r)) == Sum(r.scope.branches, RollupNet(r)) - Branchless(r)
  {
    BranchesSplitSales(r);
    BranchesSplitCosts(r);
    RollupNets(r, r.scope.branches);
  }

  // ---- ranges ------------------------------------------------------------

  datatype Span = Day | Week | Month
  datatype RangeQuery = RangeQuery(from: Option<int>, to: Option<int>, date: Option<int>, span: Option<Span>)

  function ResolveRange(q: RangeQuery, today: int): Period
  {
    if q.from.Some? && q.to.Some? then
      if q.from.value > q.to.value then Period(q.to.value, q.from.value) else Period(q.from.value, q.to.value)
    else
      var to := q.date.GetOr(today);
      match q.span.GetOr(Day)
      case Day => Period(to, to)
      case Week => Period(to - 6, to)
      case Month => Period(to - 29, to)
  }

  /** Every range a query resolves to has days, so its last day exists, and it is what the two ends span. */
  lemma RangesHaveDays(q: RangeQuery, today: int)
    ensures var days := DaysOf(ResolveRange(q, today));
      && |days| >= 1
      && (q.from.Some? && q.to.Some? ==> |days| == Abs(q.to.value - q.from.value) + 1
                                         && q.from.value in days && q.to.value in days)
      && (!(q.from.Some? && q.to.Some?) ==>
            days[|days| - 1] == q.date.GetOr(today)
            && |days| == match q.span.GetOr(Day) case Day => 1 case Week => 7 case Month => 30)
  {
    if q.from.Some? && q.to.Some? {
      DaysCover(ResolveRange(q, today), q.from.value);
      DaysCover(ResolveRange(q, today), q.to.value);
    }
  }
}
