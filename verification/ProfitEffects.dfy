/** What one bill, payroll run, manual entry or stock row is worth to the profit of a report. */
module ProfitEffects {
  import opened Sums
  import opened Records
  import opened BusinessDate
  import opened Finance

  function Profit(r: Report): int { NetProfit(CoreOf(r)) }

  // ---- payroll -----------------------------------------------------------

  /** A counted run of the period, of a branch of the report or of the whole tenant where the report takes those. */
  predicate PaidRun(r: Report, p: PayrollRun)
  {
    && p.counted && r.period.from <= p.periodEnd <= r.period.to
    && (p.branch.None? ==> r.scope.tenantWidePayroll) && (p.branch.Some? ==> p.branch.value in r.scope.branches)
  }

  function GrossPaid(r: Report): PayrollRun -> int { (p: PayrollRun) => if PaidRun(r, p) then p.gross else 0 }
  function TipsPaid(r: Report): PayrollRun -> int { (p: PayrollRun) => if PaidRun(r, p) then p.tips else 0 }

  /** Payroll is what the runs paid out, less the tips in it. */
  lemma PayrollLeavesTips(r: Report)
    ensures CoreOf(r).spending.payroll + Sum(r.books.runs, TipsPaid(r)) == Sum(r.books.runs, GrossPaid(r))
  {
    SumLinear(r.books.runs, Payroll(r), GrossPaid(r), Zero(), TipsPaid(r));
    SumZero(r.books.runs, Zero());
  }

  function WithRun(r: Report, i: nat, row: PayrollRun): Report
    requires i < |r.books.runs|
  {
    r.(books := r.books.(runs := r.books.runs[i := row]))
  }

  /** Gross pay costs profit, and tips in it do not. */
  lemma RunCosts(r: Report, i: nat, gross: int, tips: int)
    requires i < |r.books.runs|
    ensures var run := r.books.runs[i];
      Profit(WithRun(r, i, run.(gross := run.gross + gross, tips := run.tips + tips)))
      == Profit(r) - if PaidRun(r, run) then gross - tips else 0
  {
    var run := r.books.runs[i];
    var after := WithRun(r, i, run.(gross := run.gross + gross, tips := run.tips + tips));
    SumUpdate(r.books.runs, i, after.books.runs[i], Payroll(r));
    SumCongruent(after.books.runs, Payroll(after), Payroll(r));
    SameMaterial(r, after);
    SameSales(r, after);
  }

  // ---- what the other rows make of it ------------------------------------

  lemma SameMaterial(r: Report, after: Report)
    requires after.scope == r.scope && after.period == r.period
    requires after.books.stock == r.books.stock && after.books.ingredients == r.books.ingredients
    ensures MaterialsOf(after) == MaterialsOf(r)
  {
    SumCongruent(r.books.stock, Cogs(after), Cogs(r));
    SumCongruent(r.books.stock, Wasted(after), Wasted(r));
  }

  lemma SameManual(r: Report, after: Report)
    requires after.scope == r.scope && after.period == r.period && after.books.manual == r.books.manual
    ensures SalesOf(after).otherIncome == SalesOf(r).otherIncome
    ensures SpendingOf(after).manual == SpendingOf(r).manual
  {
    SumCongruent(r.books.manual, Income(after), Income(r));
    SumCongruent(r.books.manual, Expense(after), Expense(r));
  }

  lemma SamePayroll(r: Report, after: Report)
    requires after.scope == r.scope && after.period == r.period && after.books.runs == r.books.runs
    ensures SpendingOf(after).payroll == SpendingOf(r).payroll
  {
    SumCongruent(r.books.runs, Payroll(after), Payroll(r));
  }

  lemma SameSales(r: Report, after: Report)
    requires after.scope == r.scope && after.period == r.period
    requires after.books.bills == r.books.bills && after.books.manual == r.books.manual
    ensures SalesOf(after) == SalesOf(r) && SpendingOf(after).manual == SpendingOf(r).manual
  {
    SumCongruent(r.books.bills, Billed(after), Billed(r));
    SameManual(r, after);
  }

  // ---- bills and manual entries ------------------------------------------

  /** A bill is revenue of its branch and day, paid or not. */
  lemma BillEarns(r: Report, bill: Bill)
    ensures Profit(r.(books := r.books.(bills := r.books.bills + [bill])))
            == Profit(r) + if bill.branch in r.scope.branches && r.period.from <= bill.date <= r.period.to then bill.total
                           else 0
  {
    var after := r.(books := r.books.(bills := r.books.bills + [bill]));
    SumAppend(r.books.bills, bill, Billed(r));
    SumCongruent(after.books.bills, Billed(after), Billed(r));
    SameMaterial(r, after);
    SameManual(r, after);
    SamePayroll(r, after);
  }

  /** A posted entry adds its amount to profit or takes it, by its kind; an entry not posted does nothing. */
  lemma EntryEarnsOrCosts(r: Report, entry: ManualEntry)
    ensures Profit(r.(books := r.books.(manual := r.books.manual + [entry])))
            == Profit(r) + if !entry.posted || entry.branch !in r.scope.branches
                              || !(r.period.from <= entry.date <= r.period.to) then 0
                           else if entry.income then entry.amount else -entry.amount
  {
    var after := r.(books := r.books.(manual := r.books.manual + [entry]));
    SumAppend(r.books.manual, entry, Income(r));
    SumAppend(r.books.manual, entry, Expense(r));
    SumCongruent(after.books.manual, Income(after), Income(r));
    SumCongruent(after.books.manual, Expense(after), Expense(r));
    SumCongruent(r.books.bills, Billed(after), Billed(r));
    SameMaterial(r, after);
    SamePayroll(r, after);
  }

  // ---- stock rows --------------------------------------------------------

  function WithStock(r: Report, e: StockEntry): Report { r.(books := r.books.(stock := r.books.stock + [e])) }

  /** The row's own unit cost, or else its ingredient's, or else nothing. */
  predicate PricedAt(ingredients: seq<Ingredient>, e: StockEntry, price: int)
  {
    if e.unitCost.Some? then price == e.unitCost.value
    else if e.ingredient < |ingredients| && ingredients[e.ingredient].unitCost.Some? then
      price == ingredients[e.ingredient].unitCost.value
    else price == 0
  }

  /** A row of a branch of the report, or of the warehouse where the report takes it, on a day of the period. */
  predicate SeenRow(r: Report, e: StockEntry)
  {
    && r.period.from <= CalendarDay(e.at) <= r.period.to
    && (e.branch.None? ==> r.scope.warehouseLedger) && (e.branch.Some? ==> e.branch.value in r.scope.branches)
  }

  lemma SeenRowCounts(r: Report, e: StockEntry, price: int)
    requires PricedAt(r.books.ingredients, e, price)
    ensures Counts(r, e) <==> SeenRow(r, e)
    ensures UnitCost(r.books.ingredients, e) == price
  {
    InRangeIff(e.at, r.period.from, r.period.to);
  }

  /** What was sold and what was wasted of the stock a row moves, at its price; reversals give back. */
  lemma StockRowCosts(r: Report, e: StockEntry, price: int)
    requires PricedAt(r.books.ingredients, e, price)
    ensures var before, after := CoreOf(r).materials, CoreOf(WithStock(r, e)).materials;
      var size := if e.delta < 0 then -e.delta else e.delta;
      && after.cogs == before.cogs + (if !SeenRow(r, e) then 0
                                      else if e.kind == SaleDeplete then size * price
                                      else if e.kind in {Reversal, SaleDepleteReversal, WasteReversal} then -(size * price)
                                      else 0)
      && after.waste == before.waste + (if SeenRow(r, e) && e.kind in {Waste, YieldTrim} then size * price else 0)
  {
    var after := WithStock(r, e);
    SeenRowCounts(r, e, price);
    SumAppend(r.books.stock, e, Cogs(r));
    SumAppend(r.books.stock, e, Wasted(r));
    SumCongruent(after.books.stock, Cogs(after), Cogs(r));
    SumCongruent(after.books.stock, Wasted(after), Wasted(r));
  }

  /** Selling or wasting stock costs profit its value, and a reversal gives that back. */
  lemma StockRowMovesProfit(r: Report, e: StockEntry, price: int)
    requires PricedAt(r.books.ingredients, e, price)
    requires e.kind in {SaleDeplete, Waste, YieldTrim} ==> e.delta <= 0
    requires e.kind in {Reversal, SaleDepleteReversal, WasteReversal} ==> e.delta >= 0
    ensures Profit(WithStock(r, e))
            == Profit(r) + if SeenRow(r, e) && e.kind in {SaleDeplete, Waste, YieldTrim, Reversal, SaleDepleteReversal,
                                                          WasteReversal}
                           then e.delta * price else 0
  {
    var after := WithStock(r, e);
    StockRowCosts(r, e, price);
    assert -e.delta * price == -(e.delta * price);
    SameSales(r, after);
    SamePayroll(r, after);
  }
}
