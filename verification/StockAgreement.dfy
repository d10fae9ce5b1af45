/** How the stock reports agree with the cost totals one by one, and with each other day by day. */
module StockAgreement {
  import opened Sums
  import opened Records
  import opened Finance
  import opened StockReports
  import opened BusinessDate
  import opened ProfitEffects

  // ---- cost of sales and waste, apart ------------------------------------

  function ConsumedValue(r: Report): Id -> int { (k: Id) => MovementOf(r, k).buckets[1].value }
  function WastedValue(r: Report): Id -> int { (k: Id) => MovementOf(r, k).buckets[2].value }

  /** Stock given back by reversals of waste, valued. */
  function WasteGivenBack(r: Report): StockEntry -> int
  {
    (e: StockEntry) =>
      if Counts(r, e) && e.kind == WasteReversal then e.delta * UnitCost(r.books.ingredients, e) else 0
  }

  /** Sales that add stock and reversals that take it, valued. */
  function WrongSold(r: Report): StockEntry -> int
  {
    (e: StockEntry) =>
      if Counts(r, e) && ((e.kind == SaleDeplete && e.delta > 0)
                          || (e.kind in {Reversal, SaleDepleteReversal, WasteReversal} && e.delta < 0))
      then e.delta * UnitCost(r.books.ingredients, e) else 0
  }

  /** Waste that adds stock, valued. */
  function WrongWaste(r: Report): StockEntry -> int
  {
    (e: StockEntry) =>
      if Counts(r, e) && e.kind in {Waste, YieldTrim} && e.delta > 0
      then e.delta * UnitCost(r.books.ingredients, e) else 0
  }

  function Valued(r: Report, family: Family): StockEntry -> int
  {
    Where(InScope(r), ValueIn(r.books.ingredients, family))
  }

  /** The value of one family over all ingredients is its value over all rows in scope. */
  lemma FamilySplits(r: Report, family: Family, total: Id -> int)
    requires Registered(r.books)
    requires forall k: Id :: total(k) == FlowOf(Filter(r.books.stock, InRange(r, k)), r.books.ingredients, family).value
    ensures Sum(Ids(|r.books.ingredients|), total) == Sum(r.books.stock, Valued(r, family))
  {
    var value, ids := ValueIn(r.books.ingredients, family), Ids(|r.books.ingredients|);
    forall e | e in r.books.stock ensures EntryIngredient()(e) in ids {
      assert ids[e.ingredient] == e.ingredient;
    }
    SplitByKey(r.books.stock, EntryIngredient(), Valued(r, family), ids);
    forall k: Id ensures total(k) == KeyTotal(r.books.stock, EntryIngredient(), Valued(r, family))(k) {
      SumWhere(r.books.stock, InRange(r, k), value);
      CostOfKey(r, k, value);
    }
    SumCongruent(ids, total, KeyTotal(r.books.stock, EntryIngredient(), Valued(r, family)));
  }

  lemma SoldOne(r: Report, e: StockEntry)
    ensures Cogs(r)(e) == Valued(r, Consumption)(e) + Doubled(WrongSold(r))(e) - WasteGivenBack(r)(e)
  {
    var price := UnitCost(r.books.ingredients, e);
    SizeValue(e.delta, price);
    assert Cogs(r)(e) == if Counts(r, e) then CogsValue(e.kind, e.delta, price) else 0;
  }

  lemma WastedOne(r: Report, e: StockEntry)
    ensures Wasted(r)(e) == Valued(r, Wastage)(e) + Doubled(WrongWaste(r))(e) + WasteGivenBack(r)(e)
  {
    var price := UnitCost(r.books.ingredients, e);
    SizeValue(e.delta, price);
    assert Wasted(r)(e) == if Counts(r, e) then WasteValue(e.kind, e.delta, price) else 0;
  }

  /**
   The cost of goods sold is the consumed value over all ingredients, less what reversals of waste gave back,
   which the movements report takes off waste; a row with the wrong sign counts twice.
   */
  lemma CostOfSalesGap(r: Report)
    requires Registered(r.books)
    ensures CoreOf(r).materials.cogs
            == Sum(Ids(|r.books.ingredients|), ConsumedValue(r)) - Sum(r.books.stock, WasteGivenBack(r))
               + 2 * Sum(r.books.stock, WrongSold(r))
  {
    FamilySplits(r, Consumption, ConsumedValue(r));
    forall e | e in r.books.stock
      ensures Cogs(r)(e) == Valued(r, Consumption)(e) + Doubled(WrongSold(r))(e) - WasteGivenBack(r)(e)
    {
      SoldOne(r, e);
    }
    SumLinear(r.books.stock, Cogs(r), Valued(r, Consumption), Doubled(WrongSold(r)), WasteGivenBack(r));
    SumDoubled(r.books.stock, WrongSold(r));
  }

  function WasteBesides(r: Report): StockEntry -> int
  {
    (e: StockEntry) => Doubled(WrongWaste(r))(e) + WasteGivenBack(r)(e)
  }

  /** Waste is the wasted value over all ingredients, without what reversals of waste gave back. */
  lemma WasteGap(r: Report)
    requires Registered(r.books)
    ensures CoreOf(r).materials.waste
            == Sum(Ids(|r.books.ingredients|), WastedValue(r)) + Sum(r.books.stock, WasteGivenBack(r))
               + 2 * Sum(r.books.stock, WrongWaste(r))
  {
    FamilySplits(r, Wastage, WastedValue(r));
    forall e | e in r.books.stock
      ensures Wasted(r)(e) == Valued(r, Wastage)(e) + WasteBesides(r)(e) - Zero<StockEntry>()(e)
    {
      WastedOne(r, e);
    }
    SumLinear(r.books.stock, Wasted(r), Valued(r, Wastage), WasteBesides(r), Zero());
    SumLinear(r.books.stock, WasteBesides(r), Doubled(WrongWaste(r)), WasteGivenBack(r), Zero());
    SumZero(r.books.stock, Zero());
    SumDoubled(r.books.stock, WrongWaste(r));
  }

  // ---- the usage series and the movements report -------------------------

  function ReceivedThen(): UsageDay -> int { (day: UsageDay) => day.moved.received }
  function ConsumedThen(): UsageDay -> int { (day: UsageDay) => day.moved.consumed }
  function WastedThen(): UsageDay -> int { (day: UsageDay) => day.moved.wasted }

  function FamilyOf(r: Report, k: Id, family: Family): StockEntry -> int { Where(InRange(r, k), InFamily(family)) }

  lemma {:induction false} SeriesTotals(r: Report, k: Id, days: seq<int>)
    ensures Sum(UsageSeries(r, k, days), ReceivedThen())
            == Sum(days, KeyTotal(r.books.stock, StockDay(), FamilyOf(r, k, Family.Received)))
    ensures Sum(UsageSeries(r, k, days), ConsumedThen())
            == -Sum(days, KeyTotal(r.books.stock, StockDay(), FamilyOf(r, k, Consumption)))
    ensures Sum(UsageSeries(r, k, days), WastedThen())
            == -Sum(days, KeyTotal(r.books.stock, StockDay(), FamilyOf(r, k, Wastage)))
  {
    if |days| > 0 {
      var n := |days| - 1;
      SeriesTotals(r, k, days[..n]);
      assert UsageSeries(r, k, days)[..n] == UsageSeries(r, k, days[..n]);
    }
  }

  lemma FamilyByDay(r: Report, k: Id, family: Family)
    ensures Sum(DaysOf(r.period), KeyTotal(r.books.stock, StockDay(), FamilyOf(r, k, family)))
            == FlowOf(Filter(r.books.stock, InRange(r, k)), r.books.ingredients, family).qty
  {
    forall e | e in r.books.stock && FamilyOf(r, k, family)(e) != 0 ensures Counts(r, e) {
      assert InRange(r, k)(e);
    }
    StockSplits(r, FamilyOf(r, k, family));
    SumWhere(r.books.stock, InRange(r, k), InFamily(family));
  }

  /** Day by day the usage series receives, consumes and wastes what the movements report shows for the range. */
  lemma SeriesMovesTheBuckets(r: Report, k: Id)
    ensures var series, buckets := UsageSeries(r, k, DaysOf(r.period)), MovementOf(r, k).buckets;
      && Sum(series, ReceivedThen()) == buckets[0].qty
      && Sum(series, ConsumedThen()) == -buckets[1].qty
      && Sum(series, WastedThen()) == -buckets[2].qty
  {
    SeriesTotals(r, k, DaysOf(r.period));
    FamilyByDay(r, k, Family.Received);
    FamilyByDay(r, k, Consumption);
    FamilyByDay(r, k, Wastage);
  }

  // ---- one row in the movements report -----------------------------------

  lemma {:induction false} FilterCongruent<T>(s: seq<T>, p: T -> bool, q: T -> bool)
    requires forall x | x in s :: p(x) == q(x)
    ensures Filter(s, p) == Filter(s, q)
  {
    if |s| > 0 {
      FilterCongruent(s[..|s| - 1], p, q);
    }
  }

  /** Where the movements report puts a kind of row: received, consumed, wasted, transferred, adjusted or other. */
  function ColumnOf(kind: StockType): nat
  {
    if kind == Receive then 0
    else if kind in {SaleDeplete, SaleDepleteReversal, Reversal} then 1
    else if kind in {Waste, YieldTrim, WasteReversal} then 2
    else if kind in {TransferIn, TransferReturn, TransferOut} then 3
    else if kind in {CountAdjust, TransferShortage} then 4
    else 5
  }

  lemma RowInRange(r: Report, e: StockEntry, k: Id)
    ensures Filter(WithStock(r, e).books.stock, InRange(WithStock(r, e), k))
            == Filter(r.books.stock, InRange(r, k)) + if e.ingredient == k && Counts(r, e) then [e] else []
  {
    var after := WithStock(r, e);
    FilterAppend(r.books.stock, e, InRange(r, k));
    FilterCongruent(after.books.stock, InRange(after, k), InRange(r, k));
  }

  lemma RowOpens(r: Report, e: StockEntry, k: Id)
    ensures MovementOf(WithStock(r, e), k).opening
            == MovementOf(r, k).opening
               + if e.ingredient == k && SeesStock(r.scope, e.branch) && CalendarDay(e.at) < r.period.from then e.delta
                 else 0
  {
    BeforeIff(e.at, r.period.from);
    SumAppend(r.books.stock, e, Where(Before(r.scope, k, r.period.from), Delta()));
  }

  function ColumnValue(column: nat, delta: int, price: int): int
  {
    if column == 0 then delta * price else if column in {1, 2} then -(delta * price) else 0
  }

  lemma ColumnMoves(b: Buckets, kind: StockType, delta: int, price: int)
    ensures var column := ColumnOf(kind);
      Accumulate(b, kind, delta, price)
      == b[column := Flow(b[column].qty + delta, b[column].value + ColumnValue(column, delta, price))]
    ensures NetOfBuckets(Accumulate(b, kind, delta, price)) == NetOfBuckets(b) + delta
  {
    assert -delta * price == -(delta * price);
    assert Slot(Classify(kind)) == ColumnOf(kind);
  }

  lemma RowAccumulates(r: Report, e: StockEntry)
    requires Counts(r, e)
    ensures MovementOf(WithStock(r, e), e.ingredient).buckets
            == Accumulate(MovementOf(r, e.ingredient).buckets, e.kind, e.delta, UnitCost(r.books.ingredients, e))
  {
    RowInRange(r, e, e.ingredient);
    BucketsStep(Filter(r.books.stock, InRange(r, e.ingredient)), e, r.books.ingredients);
  }

  lemma ClosingAdds(r: Report, k: Id)
    ensures MovementOf(r, k).closing == MovementOf(r, k).opening + NetOfBuckets(MovementOf(r, k).buckets)
  {
  }

  /**
   A stock row moves one column of its ingredient by its quantity, purchases adding value and use taking it; a
   row before the period moves the opening instead, and closing is opening plus all columns.
   */
  lemma RowMovesColumn(r: Report, e: StockEntry, price: int)
    requires PricedAt(r.books.ingredients, e, price) && SeenRow(r, e)
    ensures var before, after := MovementOf(r, e.ingredient), MovementOf(WithStock(r, e), e.ingredient);
      var column := ColumnOf(e.kind);
      && after.buckets == before.buckets[column := Flow(before.buckets[column].qty + e.delta,
                                                        before.buckets[column].value + ColumnValue(column, e.delta, price))]
      && after.opening == before.opening && after.closing == before.closing + e.delta
  {
    var before := MovementOf(r, e.ingredient).buckets;
    SeenRowCounts(r, e, price);
    RowAccumulates(r, e);
    RowOpens(r, e, e.ingredient);
    ColumnMoves(before, e.kind, e.delta, price);
    ClosingAdds(r, e.ingredient);
    ClosingAdds(WithStock(r, e), e.ingredient);
  }

  /** A row of another ingredient, or one the report does not see, changes no column. */
  lemma OtherRowsSpareColumns(r: Report, e: StockEntry, k: Id)
    requires e.ingredient != k || !Counts(r, e)
    ensures MovementOf(WithStock(r, e), k).buckets == MovementOf(r, k).buckets
  {
    RowInRange(r, e, k);
    assert Filter(r.books.stock, InRange(r, k)) + [] == Filter(r.books.stock, InRange(r, k));
  }

  // ---- which rows the report shows ---------------------------------------

  lemma {:induction false} ShownIngredients(r: Report, upto: nat, m: Movement)
    ensures m in Movements(r, upto) <==> m.ingredient < upto && m == MovementOf(r, m.ingredient) && Reported(m)
  {
    if upto > 0 {
      ShownIngredients(r, upto - 1, m);
    }
  }

  /** The report leaves out exactly the ingredients whose stock was nothing at both ends of the period. */
  lemma LeftOutIff(r: Report, upto: nat, k: Id)
    requires k < upto
    ensures MovementOf(r, k) !in Movements(r, upto) <==> MovementOf(r, k).opening == 0 && MovementOf(r, k).closing == 0
  {
    ShownIngredients(r, upto, MovementOf(r, k));
    ClosingAdds(r, k);
  }
}
