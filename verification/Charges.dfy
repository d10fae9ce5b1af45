/** What a bill charges: every unit of every item owed, and nothing else. */
module Charges {
  import opened Sums
  import opened Records
  import opened Billing

  // ---- one line ----------------------------------------------------------

  /** A line charges each unit its price and each modifier of each unit, and no unit costs nothing. */
  lemma LineChargesUnits(item: Item, modifier: int)
    ensures LineTotal(item.(quantity := 0)) == 0
    ensures LineTotal(item.(quantity := 1, modifiers := [])) == item.unitPrice
    ensures LineTotal(item.(quantity := item.quantity + 1))
            == LineTotal(item) + item.unitPrice + Sum(item.modifiers, Self())
    ensures LineTotal(item.(modifiers := item.modifiers + [modifier])) == LineTotal(item) + modifier * item.quantity
  {
    var unit := item.unitPrice + Sum(item.modifiers, Self());
    SumAppend(item.modifiers, modifier, Self());
    assert unit * (item.quantity + 1) == unit * item.quantity + unit;
    assert (unit + modifier) * item.quantity == unit * item.quantity + modifier * item.quantity;
  }

  // ---- all lines of a bill -----------------------------------------------

  function ItemValue(): Item -> int { (item: Item) => LineTotal(item) }

  /** Lines do not depend on items nobody charged. */
  lemma SameLines(items: seq<Item>, other: seq<Item>, charged: seq<Id>, bill: Id)
    requires forall k | 0 <= k < |charged| :: charged[k] < |items| && charged[k] < |other|
                                              && items[charged[k]] == other[charged[k]]
    ensures LinesFor(items, charged, bill) == LinesFor(other, charged, bill)
  {
  }

  lemma OneLineMore(items: seq<Item>, charged: seq<Id>, i: Id, bill: Id)
    requires i < |items| && forall k | 0 <= k < |charged| :: charged[k] < |items|
    ensures Sum(LinesFor(items, charged + [i], bill), LineAmount())
            == Sum(LinesFor(items, charged, bill), LineAmount()) + ItemValue()(items[i])
  {
    assert (charged + [i])[..|charged|] == charged;
    SumAppend(LinesFor(items, charged, bill), BillLine(bill, i, ItemValue()(items[i])), LineAmount());
  }

  /** The lines of the selected items add up to what those items cost. */
  lemma {:induction false} LinesOfSelected(items: seq<Item>, p: Item -> bool, bill: Id)
    ensures Sum(LinesFor(items, Positions(items, p), bill), LineAmount()) == Sum(items, Where(p, ItemValue()))
  {
    if |items| > 0 {
      var n := |items| - 1;
      var rest := Positions(items[..n], p);
      LinesOfSelected(items[..n], p, bill);
      SameLines(items, items[..n], rest, bill);
      if p(items[n]) { OneLineMore(items, rest, n, bill); }
    }
  }

  /** What a session owes. */
  function Owed(items: seq<Item>, session: Id): int { Sum(items, Where(OwedBy(session), ItemValue())) }

  /** Everything a bill needs except a total that is not negative. */
  ghost predicate Billable(db: Db, c: Context, request: Id, expected: int)
  {
    && request < |db.floor.requests| && db.floor.requests[request].branch == c.branch
    && db.floor.requests[request].status == Pending
    && db.floor.requests[request].session < |db.floor.sessions|
    && !HasBill(db.billing.bills, db.floor.requests[request].session)
    && db.floor.sessions[db.floor.requests[request].session].version == expected
    && Positions(db.floor.items, OwedBy(db.floor.requests[request].session)) != []
  }

  lemma BillableIsAnswered(db: Db, c: Context, request: Id, expected: int)
    requires Billable(db, c, request, expected)
    ensures var session := db.floor.requests[request].session;
      var lines := LinesFor(db.floor.items, Positions(db.floor.items, OwedBy(session)), |db.billing.bills|);
      var row := Bill(c.branch, db.floor.sessions[session].date, session, Generated, Sum(lines, LineAmount()), 0, 1);
      GenerateBill(db, c, request, expected).1
      == if row.total < 0 then Refused(CheckViolated) else Done(BillAnswer(|db.billing.bills|, row))
  {
  }

  /** Bill generation asks for exactly what is owed, and is refused if that is below zero. */
  lemma BilledOrRefused(db: Db, c: Context, request: Id, expected: int)
    requires Billable(db, c, request, expected)
    ensures var outcome := GenerateBill(db, c, request, expected).1;
      var owed := Owed(db.floor.items, db.floor.requests[request].session);
      if owed < 0 then outcome == Refused(CheckViolated) else outcome.Done? && outcome.answer.billRow.total == owed
  {
    BillableIsAnswered(db, c, request, expected);
    LinesOfSelected(db.floor.items, OwedBy(db.floor.requests[request].session), |db.billing.bills|);
  }

  lemma BilledWasBillable(db: Db, c: Context, request: Id, expected: int)
    requires GenerateBill(db, c, request, expected).1.Done?
    ensures Billable(db, c, request, expected)
  {
  }

  /** A generated bill asks for exactly what its session owes. */
  lemma BillAsksWhatIsOwed(db: Db, c: Context, request: Id, expected: int)
    requires GenerateBill(db, c, request, expected).1.Done?
    ensures var bill := GenerateBill(db, c, request, expected).1.answer.billRow;
      && bill.total == Owed(db.floor.items, db.floor.requests[request].session)
      && bill.amountPaid == 0 && bill.session == db.floor.requests[request].session
  {
    BilledWasBillable(db, c, request, expected);
    BillableIsAnswered(db, c, request, expected);
    BilledOrRefused(db, c, request, expected);
  }

  lemma {:induction false} SameSelection(items: seq<Item>, i: Id, row: Item, p: Item -> bool)
    requires i < |items| && p(row) == p(items[i])
    ensures Positions(items[i := row], p) == Positions(items, p)
  {
    var n := |items| - 1;
    if i == n {
      assert items[i := row][..n] == items[..n];
    } else {
      assert items[i := row][..n] == items[..n][i := row];
      SameSelection(items[..n], i, row, p);
    }
  }

  function OneMore(db: Db, i: Id): Db
    requires i < |db.floor.items|
  {
    var item := db.floor.items[i];
    db.(floor := db.floor.(items := db.floor.items[i := item.(quantity := item.quantity + 1)]))
  }

  /** What a session owes with one more unit of one item. */
  lemma OwedWithOneMore(db: Db, i: Id, session: Id)
    requires i < |db.floor.items|
    ensures var item := db.floor.items[i];
      Owed(OneMore(db, i).floor.items, session)
      == Owed(db.floor.items, session)
         + if item.session == session && !item.cancelled && item.state != Cancelled then
             item.unitPrice + Sum(item.modifiers, Self())
           else 0
  {
    var item := db.floor.items[i];
    LineChargesUnits(item, 0);
    SumUpdate(db.floor.items, i, item.(quantity := item.quantity + 1), Where(OwedBy(session), ItemValue()));
  }

  lemma OneMoreStaysBillable(db: Db, c: Context, request: Id, expected: int, i: Id)
    requires Billable(db, c, request, expected) && i < |db.floor.items|
    ensures Billable(OneMore(db, i), c, request, expected)
  {
    SameSelection(db.floor.items, i, OneMore(db, i).floor.items[i], OwedBy(db.floor.requests[request].session));
  }

  /**
   One more unit of an item raises the bill by that unit with its modifiers if the item is owed, and leaves the
   bill as it was otherwise; a total that would go below zero is refused.
   */
  lemma OneMoreIsBilled(db: Db, c: Context, request: Id, expected: int, i: Id)
    requires GenerateBill(db, c, request, expected).1.Done? && i < |db.floor.items|
    ensures var item, session := db.floor.items[i], db.floor.requests[request].session;
      var total := GenerateBill(db, c, request, expected).1.answer.billRow.total
                   + if item.session == session && !item.cancelled && item.state != Cancelled then
                       item.unitPrice + Sum(item.modifiers, Self())
                     else 0;
      var outcome := GenerateBill(OneMore(db, i), c, request, expected).1;
      if total < 0 then outcome == Refused(CheckViolated) else outcome.Done? && outcome.answer.billRow.total == total
  {
    BilledWasBillable(db, c, request, expected);
    BilledOrRefused(db, c, request, expected);
    OwedWithOneMore(db, i, db.floor.requests[request].session);
    OneMoreStaysBillable(db, c, request, expected, i);
    BilledOrRefused(OneMore(db, i), c, request, expected);
  }

  // ---- counter sales -----------------------------------------------------

  function SaleValue(): SaleLine -> int { (line: SaleLine) => line.quantity * line.unitPrice }

  lemma SoldValue(branch: Id, session: Id, line: SaleLine)
    ensures ItemValue()(Item(branch, session, line.quantity, line.unitPrice, [], Served, false)) == SaleValue()(line)
  {
  }

  /** One more line of a sale is one more line of its bill. */
  lemma SaleLineAdds(before: seq<Item>, branch: Id, session: Id, sale: seq<SaleLine>, bill: Id)
    requires |sale| > 0
    ensures var n := |sale| - 1;
      Sum(LinesFor(before + SaleItems(branch, session, sale), Upto(|before|, |sale|), bill), LineAmount())
      == Sum(LinesFor(before + SaleItems(branch, session, sale[..n]), Upto(|before|, n), bill), LineAmount())
         + SaleValue()(sale[n])
  {
    var n := |sale| - 1;
    var items, fewer := before + SaleItems(branch, session, sale), before + SaleItems(branch, session, sale[..n]);
    var sold := Item(branch, session, sale[n].quantity, sale[n].unitPrice, [], Served, false);
    assert items == fewer + [sold];
    SameLines(items, fewer, Upto(|before|, n), bill);
    OneLineMore(items, Upto(|before|, n), |before| + n, bill);
    SoldValue(branch, session, sale[n]);
  }

  lemma {:induction false} SaleLinesSum(before: seq<Item>, branch: Id, session: Id, sale: seq<SaleLine>, bill: Id)
    ensures var items := before + SaleItems(branch, session, sale);
      Sum(LinesFor(items, Upto(|before|, |sale|), bill), LineAmount()) == Sum(sale, SaleValue())
  {
    if |sale| > 0 {
      SaleLinesSum(before, branch, session, sale[..|sale| - 1], bill);
      SaleLineAdds(before, branch, session, sale, bill);
    }
  }

  /** A counter sale on a usable table bills quantity times price over its lines, unless that is below zero. */
  lemma SaleAsksItsLines(db: Db, c: Context, now: int, today: int, table: Id, sale: seq<SaleLine>)
    requires table < |db.floor.tables|
    requires db.floor.tables[table].branch == c.branch && db.floor.tables[table].status != Retired
    ensures var total := Sum(sale, SaleValue());
      var outcome := CounterSale(db, c, now, today, table, sale).1;
      if total < 0 then outcome == Refused(CheckViolated) else outcome.Done? && outcome.answer.billRow.total == total
  {
    SaleLinesSum(db.floor.items, c.branch, |db.floor.sessions|, sale, |db.billing.bills|);
  }

  lemma OneMoreValue(sale: seq<SaleLine>, i: nat)
    requires i < |sale|
    ensures Sum(sale[i := sale[i].(quantity := sale[i].quantity + 1)], SaleValue())
            == Sum(sale, SaleValue()) + sale[i].unitPrice
  {
    var row := sale[i].(quantity := sale[i].quantity + 1);
    SumUpdate(sale, i, row, SaleValue());
    assert row.quantity * row.unitPrice == sale[i].quantity * sale[i].unitPrice + sale[i].unitPrice;
  }

  /** One more unit on one line of a sale raises its bill by that line's price. */
  lemma OneMoreIsSold(db: Db, c: Context, now: int, today: int, table: Id, sale: seq<SaleLine>, i: nat)
    requires i < |sale| && sale[i].unitPrice >= 0
    requires CounterSale(db, c, now, today, table, sale).1.Done?
    ensures var more := sale[i := sale[i].(quantity := sale[i].quantity + 1)];
      var outcome := CounterSale(db, c, now, today, table, more).1;
      outcome.Done? && outcome.answer.billRow.total
      == CounterSale(db, c, now, today, table, sale).1.answer.billRow.total + sale[i].unitPrice
  {
    OneMoreValue(sale, i);
    SaleAsksItsLines(db, c, now, today, table, sale);
    SaleAsksItsLines(db, c, now, today, table, sale[i := sale[i].(quantity := sale[i].quantity + 1)]);
  }
}
