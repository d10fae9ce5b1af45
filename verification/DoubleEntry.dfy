/** What drops, disputes and the cash ledger keep: one balanced pair per received drop, and conservation. */
module DoubleEntry {
  import opened Sums
  import opened Records
  import opened CashCustody
  import opened DailyClose

  // ---- the ledger records exactly the received drops ---------------------

  function ForDrop(drop: Id): Entry -> bool { (e: Entry) => e.source == FromDrop(drop) }

  /** The entries a drop row accounts for: none before receipt, then one OUT/IN pair. */
  function EntriesOf(drop: Id, row: Drop): seq<Entry>
  {
    if row.status == Received && row.resolution.Some? && row.drawer.Some? then
      [OutEntry(row.branch, drop, row, row.resolution.value),
       InEntry(row.branch, drop, row, row.resolution.value, row.drawer.value)]
    else []
  }

  ghost predicate DropFits(row: Drop, drawers: nat)
  {
    && row.declared > 0
    && (row.drawer.Some? ==> row.drawer.value < drawers)
    && (row.status == Received ==> row.resolution.Some? && row.resolution.value >= 0 && row.drawer.Some?)
    && (row.status == Disputed ==> row.drawer.Some?)
  }

  ghost predicate DisputeFits(row: Dispute, drops: seq<Drop>)
  {
    && row.drop < |drops|
    && row.branch == drops[row.drop].branch
    && row.counted >= 0 && row.declared == drops[row.drop].declared
    && row.variance == row.counted - row.declared
  }

  ghost predicate EntryFits(e: Entry, drops: seq<Drop>)
  {
    if e.source.FromDrop? then e.source.drop < |drops|
    else e.entryType !in {DropOut, DropIn}
  }

  ghost predicate CashAgrees(cash: Custody)
  {
    && (forall k | 0 <= k < |cash.drops| :: DropFits(cash.drops[k], |cash.drawers|))
    && (forall k | 0 <= k < |cash.disputes| :: DisputeFits(cash.disputes[k], cash.drops))
    && (forall k | 0 <= k < |cash.ledger| :: EntryFits(cash.ledger[k], cash.drops))
    && (forall k | 0 <= k < |cash.drops| ::
          Filter(cash.ledger, ForDrop(k)) == EntriesOf(k, cash.drops[k]))
  }

  // ---- steps -------------------------------------------------------------

  lemma NoEntriesYet(ledger: seq<Entry>, drops: seq<Drop>, k: Id)
    requires forall i | 0 <= i < |ledger| :: EntryFits(ledger[i], drops)
    requires k >= |drops|
    ensures Filter(ledger, ForDrop(k)) == []
  {
    FilterNone(ledger, ForDrop(k));
  }

  lemma {:induction false} FilterNone<T>(s: seq<T>, p: T -> bool)
    requires forall i | 0 <= i < |s| :: !p(s[i])
    ensures Filter(s, p) == []
  {
    if |s| > 0 {
      FilterNone(s[..|s| - 1], p);
    }
  }

  lemma InitiateKeeps(db: Db, c: Context, amount: int)
    requires CashAgrees(db.custody)
    ensures CashAgrees(InitiateDrop(db, c, amount).0.custody)
  {
    var after := InitiateDrop(db, c, amount).0.custody;
    if InitiateDrop(db, c, amount).1.Done? {
      NoEntriesYet(db.custody.ledger, db.custody.drops, |db.custody.drops|);
      forall k | 0 <= k < |after.disputes| ensures DisputeFits(after.disputes[k], after.drops) {
        assert DisputeFits(db.custody.disputes[k], db.custody.drops);
      }
      forall k | 0 <= k < |after.ledger| ensures EntryFits(after.ledger[k], after.drops) {
        assert EntryFits(db.custody.ledger[k], db.custody.drops);
      }
    }
  }

  lemma DrawerKeeps(cash: Custody, c: Context)
    requires CashAgrees(cash) && EnsureDrawer(cash, c).DrawerReady?
    ensures var ready := EnsureDrawer(cash, c);
      CashAgrees(ready.custody) && ready.drawer < |ready.custody.drawers|
      && ready.custody.drops == cash.drops && ready.custody.ledger == cash.ledger
      && ready.custody.disputes == cash.disputes && ready.custody.shifts == cash.shifts
  {
    var ready := EnsureDrawer(cash, c);
    forall k | 0 <= k < |cash.drops| ensures DropFits(cash.drops[k], |ready.custody.drawers|) {
      assert DropFits(cash.drops[k], |cash.drawers|);
    }
  }

  ghost predicate SameDrop(a: Drop, b: Drop)
  {
    a.branch == b.branch && a.date == b.date && a.shift == b.shift && a.declared == b.declared
  }

  lemma DropRestatedKeepsRows(cash: Custody, drop: Id, row: Drop)
    requires CashAgrees(cash) && drop < |cash.drops| && SameDrop(row, cash.drops[drop])
    requires DropFits(row, |cash.drawers|)
    ensures var drops := cash.drops[drop := row];
      (forall k | 0 <= k < |drops| :: DropFits(drops[k], |cash.drawers|))
      && (forall k | 0 <= k < |cash.disputes| :: DisputeFits(cash.disputes[k], drops))
      && (forall k | 0 <= k < |cash.ledger| :: EntryFits(cash.ledger[k], drops))
  {
    var drops := cash.drops[drop := row];
    forall k | 0 <= k < |cash.disputes| ensures DisputeFits(cash.disputes[k], drops) {
      assert DisputeFits(cash.disputes[k], cash.drops);
    }
    forall k | 0 <= k < |cash.ledger| ensures EntryFits(cash.ledger[k], drops) {
      assert EntryFits(cash.ledger[k], cash.drops);
    }
  }

  lemma PairFiltered(ledger: seq<Entry>, branch: Id, drop: Id, row: Drop, amount: int, drawer: Id, k: Id)
    ensures Filter(WriteReceiveLedger(ledger, branch, drop, row, amount, drawer), ForDrop(k))
            == Filter(ledger, ForDrop(k))
               + (if k == drop then [OutEntry(branch, drop, row, amount), InEntry(branch, drop, row, amount, drawer)]
                  else [])
  {
    FilterAppend(ledger, OutEntry(branch, drop, row, amount), ForDrop(k));
    FilterAppend(ledger + [OutEntry(branch, drop, row, amount)], InEntry(branch, drop, row, amount, drawer), ForDrop(k));
  }

  lemma AcceptKeeps(cash: Custody, drop: Id, row: Drop, amount: int, drawer: Id)
    requires CashAgrees(cash) && drop < |cash.drops| && SameDrop(row, cash.drops[drop])
    requires cash.drops[drop].status != Received && amount >= 0 && drawer < |cash.drawers|
    ensures CashAgrees(AcceptInto(cash, row.branch, drop, row, amount, drawer))
  {
    var after := AcceptInto(cash, row.branch, drop, row, amount, drawer);
    assert DropFits(cash.drops[drop], |cash.drawers|);
    DropRestatedKeepsRows(cash, drop, Accepted(row, amount, drawer));
    forall k | 0 <= k < |cash.drops|
      ensures Filter(after.ledger, ForDrop(k)) == EntriesOf(k, after.drops[k])
    {
      PairFiltered(cash.ledger, row.branch, drop, row, amount, drawer, k);
    }
    forall k | 0 <= k < |after.ledger| ensures EntryFits(after.ledger[k], after.drops) {
      if k < |cash.ledger| {
        assert EntryFits(cash.ledger[k], after.drops);
      }
    }
  }

  lemma QuestionKeeps(cash: Custody, drop: Id, row: Drop, counted: int, drawer: Id)
    requires CashAgrees(cash) && drop < |cash.drops| && row == cash.drops[drop]
    requires row.status == Initiated && counted >= 0 && drawer < |cash.drawers|
    ensures CashAgrees(QuestionFrom(cash, row.branch, drop, row, counted, drawer))
  {
    DropRestatedKeepsRows(cash, drop, Questioned(row, counted, drawer));
  }

  lemma ReceiveKeeps(db: Db, c: Context, drop: Id, counted: int, expected: int)
    requires CashAgrees(db.custody)
    ensures CashAgrees(ReceiveDrop(db, c, drop, counted, expected).0.custody)
  {
    if ReceiveDrop(db, c, drop, counted, expected).1.Done? {
      var row := db.custody.drops[drop];
      DrawerKeeps(db.custody, c);
      var ready := EnsureDrawer(db.custody, c);
      if counted == row.declared {
        AcceptKeeps(ready.custody, drop, row.(counted := Some(counted)), counted, ready.drawer);
      } else {
        QuestionKeeps(ready.custody, drop, row, counted, ready.drawer);
      }
    }
  }

  lemma ResolveKeeps(db: Db, c: Context, dispute: Id, how: Resolution)
    requires CashAgrees(db.custody)
    ensures CashAgrees(ResolveDispute(db, c, dispute, how).0.custody)
  {
    if ResolveDispute(db, c, dispute, how).1.Done? {
      var open := db.custody.disputes[dispute];
      var row := db.custody.drops[open.drop];
      assert DisputeFits(open, db.custody.drops) && DropFits(row, |db.custody.drawers|);
      var amount := ResolvedAmount(open, how).value;
      AcceptKeeps(db.custody, open.drop, row, amount, row.drawer.value);
      var mid := AcceptInto(db.custody, row.branch, open.drop, row, amount, row.drawer.value);
      assert DisputeFits(mid.disputes[dispute], mid.drops);
    }
  }

  // ---- environment: postings that are not drops --------------------------

  lemma PostKeeps(cash: Custody, entry: Entry)
    requires CashAgrees(cash) && entry.source == Elsewhere && entry.entryType !in {DropOut, DropIn}
    ensures CashAgrees(cash.(ledger := cash.ledger + [entry]))
  {
    forall k | 0 <= k < |cash.drops|
      ensures Filter(cash.ledger + [entry], ForDrop(k)) == EntriesOf(k, cash.drops[k])
    {
      FilterAppend(cash.ledger, entry, ForDrop(k));
    }
  }

  lemma MoreDrawersKeep(cash: Custody, drawers: seq<Drawer>)
    requires CashAgrees(cash) && |cash.drawers| <= |drawers|
    ensures CashAgrees(cash.(drawers := drawers))
  {
    forall k | 0 <= k < |cash.drops| ensures DropFits(cash.drops[k], |drawers|) {
      assert DropFits(cash.drops[k], |cash.drawers|);
    }
  }

  // ---- any total over drop entries is a total over received drops --------

  function ShareOf(g: Entry -> int, drop: Id): Entry -> int
  {
    (e: Entry) => if e.source == FromDrop(drop) then g(e) else 0
  }

  function ShareBelow(g: Entry -> int, n: nat): Entry -> int
  {
    (e: Entry) => if e.source.FromDrop? && e.source.drop < n then g(e) else 0
  }

  lemma OneDropTotal(cash: Custody, g: Entry -> int, k: Id)
    requires CashAgrees(cash) && k < |cash.drops|
    ensures Sum(cash.ledger, ShareOf(g, k)) == Sum(EntriesOf(k, cash.drops[k]), g)
  {
    SumFiltered(cash.ledger, ForDrop(k), ShareOf(g, k));
    SumCongruent(EntriesOf(k, cash.drops[k]), ShareOf(g, k), g);
  }

  lemma {:induction false} DropsBelow(cash: Custody, g: Entry -> int, h: Drop -> int, n: nat)
    requires CashAgrees(cash) && n <= |cash.drops|
    requires forall k | 0 <= k < |cash.drops| :: Sum(EntriesOf(k, cash.drops[k]), g) == h(cash.drops[k])
    ensures Sum(cash.ledger, ShareBelow(g, n)) == Sum(cash.drops[..n], h)
  {
    if n == 0 {
      SumZero(cash.ledger, ShareBelow(g, 0));
    } else {
      DropsBelow(cash, g, h, n - 1);
      OneDropTotal(cash, g, n - 1);
      SumLinear(cash.ledger, ShareBelow(g, n), ShareBelow(g, n - 1), ShareOf(g, n - 1), Zero());
      SumZero(cash.ledger, Zero());
      assert cash.drops[..n][..n - 1] == cash.drops[..n - 1];
    }
  }

  /**
   The bridge between ledger and drop table: if h says what each drop row contributes to g, the ledger
   total of g is the drop total of h.
   */
  lemma LedgerMirrorsDrops(cash: Custody, g: Entry -> int, h: Drop -> int)
    requires CashAgrees(cash)
    requires forall e | e in cash.ledger && e.source == Elsewhere :: g(e) == 0
    requires forall k | 0 <= k < |cash.drops| :: Sum(EntriesOf(k, cash.drops[k]), g) == h(cash.drops[k])
    ensures Sum(cash.ledger, g) == Sum(cash.drops, h)
  {
    var n := |cash.drops|;
    DropsBelow(cash, g, h, n);
    assert cash.drops[..n] == cash.drops;
    forall e | e in cash.ledger ensures g(e) == ShareBelow(g, n)(e) {
      var i :| 0 <= i < |cash.ledger| && cash.ledger[i] == e;
      assert EntryFits(cash.ledger[i], cash.drops);
    }
    SumCongruent(cash.ledger, g, ShareBelow(g, n));
  }

  lemma PairSum(a: Entry, b: Entry, g: Entry -> int)
    ensures Sum([a, b], g) == g(a) + g(b)
  {
    SumAppend([a], b, g);
    SumAppend([], a, g);
    assert [] + [a] == [a] && [a] + [b] == [a, b];
  }

  lemma EntriesSum(drop: Id, row: Drop, g: Entry -> int)
    ensures Sum(EntriesOf(drop, row), g)
            == if row.status == Received && row.resolution.Some? && row.drawer.Some? then
                 g(OutEntry(row.branch, drop, row, row.resolution.value))
                 + g(InEntry(row.branch, drop, row, row.resolution.value, row.drawer.value))
               else 0
  {
    if row.status == Received && row.resolution.Some? && row.drawer.Some? {
      PairSum(OutEntry(row.branch, drop, row, row.resolution.value),
              InEntry(row.branch, drop, row, row.resolution.value, row.drawer.value), g);
    }
  }

  // ---- main results ------------------------------------------------------

  /** A drop is received exactly when the ledger holds entries for it, and then it holds its pair alone. */
  lemma ReceivedIffPaired(cash: Custody, drop: Id)
    requires CashAgrees(cash) && drop < |cash.drops|
    ensures var row := cash.drops[drop];
      var posted := Filter(cash.ledger, ForDrop(drop));
      && (row.status == Received <==> |posted| == 2)
      && (row.status != Received <==> posted == [])
      && (row.status == Received ==>
            && row.resolution.Some? && row.drawer.Some?
            && posted[0] == Entry(row.branch, row.date, WaiterShift(row.shift), DropOut,
                                  -row.resolution.value, FromDrop(drop))
            && posted[1] == Entry(row.branch, row.date, CashierDrawer(row.drawer.value), DropIn,
                                  row.resolution.value, FromDrop(drop)))
  {
    assert DropFits(cash.drops[drop], |cash.drawers|);
  }

  function DropMoney(): Entry -> int { (e: Entry) => if e.source.FromDrop? then e.amount else 0 }
  function Nothing(): Drop -> int { (d: Drop) => 0 }

  /** Drops move cash; they create none. */
  lemma DropEntriesBalance(cash: Custody)
    requires CashAgrees(cash)
    ensures Sum(cash.ledger, DropMoney()) == 0
  {
    forall k | 0 <= k < |cash.drops| ensures Sum(EntriesOf(k, cash.drops[k]), DropMoney()) == 0 {
      EntriesSum(k, cash.drops[k], DropMoney());
    }
    LedgerMirrorsDrops(cash, DropMoney(), Nothing());
    SumZero(cash.drops, Nothing());
  }

  /** The DROP_IN amounts posted for a shift: those whose drop the shift made. */
  function PostedFor(drops: seq<Drop>, shift: Id): Entry -> int
  {
    (e: Entry) => if e.source.FromDrop? && e.entryType == DropIn && e.source.drop < |drops|
                     && drops[e.source.drop].shift == shift
      then e.amount else 0
  }

  lemma PostedIsDropped(cash: Custody, shift: Id)
    requires CashAgrees(cash)
    ensures Sum(cash.ledger, PostedFor(cash.drops, shift)) == Dropped(cash.drops, shift)
  {
    forall k | 0 <= k < |cash.drops|
      ensures Sum(EntriesOf(k, cash.drops[k]), PostedFor(cash.drops, shift)) == DroppedBy(shift)(cash.drops[k])
    {
      assert DropFits(cash.drops[k], |cash.drawers|);
      EntriesSum(k, cash.drops[k], PostedFor(cash.drops, shift));
    }
    LedgerMirrorsDrops(cash, PostedFor(cash.drops, shift), DroppedBy(shift));
  }

  /**
   Conservation of a waiter's cash: what the shift collected, with handovers, is its unclamped pouch plus
   its open drops plus the cash posted into drawers for it, whatever amounts disputes were resolved at.
   */
  lemma CashConserved(payments: seq<Payment>, cash: Custody, branch: Id, shift: Id)
    requires CashAgrees(cash)
    ensures Collected(payments, branch, shift) + HandoverNet(cash.ledger, shift)
            == Pouch(payments, cash, branch, shift)
               + PendingDrops(cash.drops, shift) + DisputedDrops(cash.drops, shift)
               + Sum(cash.ledger, PostedFor(cash.drops, shift))
  {
    PostedIsDropped(cash, shift);
  }

  /** The ledger path and the drop-table fallback of a drawer's expected cash are the same amount. */
  lemma PathsAgree(cash: Custody, drawer: Id)
    requires CashAgrees(cash)
    ensures LedgerDrops(cash, drawer) == TableDrops(cash, drawer)
  {
    forall k | 0 <= k < |cash.drops|
      ensures Sum(EntriesOf(k, cash.drops[k]), IntoDrawer(drawer)) == ReceivedInto(drawer)(cash.drops[k])
    {
      assert DropFits(cash.drops[k], |cash.drawers|);
      EntriesSum(k, cash.drops[k], IntoDrawer(drawer));
    }
    forall e | e in cash.ledger && e.source == Elsewhere ensures IntoDrawer(drawer)(e) == 0 {
      var i :| 0 <= i < |cash.ledger| && cash.ledger[i] == e;
      assert EntryFits(cash.ledger[i], cash.drops);
    }
    LedgerMirrorsDrops(cash, IntoDrawer(drawer), ReceivedInto(drawer));
  }

  // ---- the drawer floor --------------------------------------------------

  function TableDropsIn(cash: Custody): Id -> int { (k: Id) => TableDrops(cash, k) }
  function OtherIn(cash: Custody): Id -> int { (k: Id) => OtherCash(cash, k) }

  /** Received in one of the day's drawers, whatever day the drop was declared on. */
  function ReceivedAmong(drawers: seq<Id>): Drop -> int
  {
    (d: Drop) => if d.status == Received && d.drawer.Some? && d.drawer.value in drawers then AcceptedAmount(d) else 0
  }

  function IntoOne(d: Drop): Id -> int { (k: Id) => ReceivedInto(k)(d) }

  lemma {:induction false} OneDrawerEach(d: Drop, drawers: seq<Id>)
    requires forall i, j | 0 <= i < j < |drawers| :: drawers[i] != drawers[j]
    ensures Sum(drawers, IntoOne(d)) == ReceivedAmong(drawers)(d)
  {
    if |drawers| > 0 {
      var n := |drawers| - 1;
      OneDrawerEach(d, drawers[..n]);
      assert drawers == drawers[..n] + [drawers[n]];
      assert drawers[n] !in drawers[..n];
      assert IntoOne(d)(drawers[n]) == ReceivedInto(drawers[n])(d);
      assert d.drawer.Some? ==> (d.drawer.value in drawers <==> d.drawer.value in drawers[..n] || d.drawer.value == drawers[n]);
      assert ReceivedAmong(drawers)(d) == ReceivedAmong(drawers[..n])(d) + ReceivedInto(drawers[n])(d);
    }
  }

  lemma {:induction false} DrawersShareDrops(cash: Custody, drops: seq<Drop>, drawers: seq<Id>)
    requires forall i, j | 0 <= i < j < |drawers| :: drawers[i] != drawers[j]
    ensures Sum(drawers, TableDropsIn(cash.(drops := drops))) == Sum(drops, ReceivedAmong(drawers))
  {
    var here := TableDropsIn(cash.(drops := drops));
    if |drops| == 0 {
      SumZero(drawers, here);
    } else {
      var n := |drops| - 1;
      DrawersShareDrops(cash, drops[..n], drawers);
      OneDrawerEach(drops[n], drawers);
      SumLinear(drawers, here, TableDropsIn(cash.(drops := drops[..n])), IntoOne(drops[n]), Zero());
      SumZero(drawers, Zero());
    }
  }

  /** Declared that day but received into a drawer of another day. */
  function ReceivedElsewhere(branch: Id, date: int, drawers: seq<Id>): Drop -> int
  {
    (d: Drop) => if d.branch == branch && d.date == date && ReceivedAmong(drawers)(d) == 0
      then ReceivedOn(branch, date)(d) else 0
  }

  /** Received into a drawer of the day but declared on another day or in another branch. */
  function ReceivedFromOthers(branch: Id, date: int, drawers: seq<Id>): Drop -> int
  {
    (d: Drop) => if d.branch == branch && d.date == date then 0 else ReceivedAmong(drawers)(d)
  }

  /**
   Exactly how far the sum of the sessions' expected cash is above the drawer floor, so the floor acts
   exactly when the right-hand side is negative.
   */
  lemma FloorGap(cash: Custody, branch: Id, date: int)
    requires CashAgrees(cash)
    ensures var drawers := DayDrawers(cash, branch, date);
      SumOfSessions(cash, branch, date) - DrawerFloor(cash, branch, date)
      == Sum(drawers, OtherIn(cash))
         + Sum(cash.drops, ReceivedFromOthers(branch, date, drawers))
         - Sum(cash.drops, ReceivedElsewhere(branch, date, drawers))
  {
    var drawers := DayDrawers(cash, branch, date);
    var sessions := Sum(drawers, ExpectedIn(cash));
    SessionsSplit(cash, drawers);
    DrawersShareDrops(cash, cash.drops, drawers);
    assert cash.(drops := cash.drops) == cash;
    SumLinear(cash.drops, Shifted(branch, date, drawers), ReceivedAmong(drawers),
              ReceivedElsewhere(branch, date, drawers), ReceivedFromOthers(branch, date, drawers));
    forall d | d in cash.drops ensures Shifted(branch, date, drawers)(d) == ReceivedOn(branch, date)(d) {
      var k :| 0 <= k < |cash.drops| && cash.drops[k] == d;
      assert DropFits(cash.drops[k], |cash.drawers|);
    }
    SumCongruent(cash.drops, Shifted(branch, date, drawers), ReceivedOn(branch, date));
  }

  function Shifted(branch: Id, date: int, drawers: seq<Id>): Drop -> int
  {
    (d: Drop) => ReceivedAmong(drawers)(d) + ReceivedElsewhere(branch, date, drawers)(d)
                 - ReceivedFromOthers(branch, date, drawers)(d)
  }

  function FloatAndDrops(cash: Custody): Id -> int { (k: Id) => FloatIn(cash)(k) + TableDropsIn(cash)(k) }

  lemma SessionsSplit(cash: Custody, drawers: seq<Id>)
    requires CashAgrees(cash)
    requires forall i | 0 <= i < |drawers| :: drawers[i] < |cash.drawers|
    ensures Sum(drawers, ExpectedIn(cash))
            == Sum(drawers, FloatIn(cash)) + Sum(drawers, TableDropsIn(cash)) + Sum(drawers, OtherIn(cash))
  {
    forall k | k in drawers
      ensures ExpectedIn(cash)(k) == FloatAndDrops(cash)(k) + OtherIn(cash)(k)
    {
      var i :| 0 <= i < |drawers| && drawers[i] == k;
      PathsAgree(cash, k);
      assert ExpectedIn(cash)(k) == SessionExpected(cash, k);
      assert TableDropsIn(cash)(k) == TableDrops(cash, k) && OtherIn(cash)(k) == OtherCash(cash, k);
      assert FloatIn(cash)(k) == cash.drawers[k].openingFloat;
    }
    SumLinear(drawers, ExpectedIn(cash), FloatAndDrops(cash), OtherIn(cash), Zero());
    SumLinear(drawers, FloatAndDrops(cash), FloatIn(cash), TableDropsIn(cash), Zero());
    SumZero(drawers, Zero());
  }

  /** The correction changes nothing when the day's drops were received that day and no drawer paid out. */
  lemma FloorIdle(cash: Custody, branch: Id, date: int)
    requires CashAgrees(cash)
    requires forall d | d in cash.drops && d.branch == branch && d.date == date && d.status == Received ::
      d.drawer.Some? && d.drawer.value in DayDrawers(cash, branch, date)
    requires forall e | e in cash.ledger && e.holder.CashierDrawer? && e.entryType !in {DropIn, OpeningFloat} ::
      e.amount >= 0
    ensures CashierExpected(cash, branch, date) == SumOfSessions(cash, branch, date)
  {
    var drawers := DayDrawers(cash, branch, date);
    FloorGap(cash, branch, date);
    forall k | k in drawers ensures OtherIn(cash)(k) >= 0 {
      SumNonNegative(cash.ledger, OtherInDrawer(k));
    }
    SumNonNegative(drawers, OtherIn(cash));
    forall d | d in cash.drops
      ensures ReceivedFromOthers(branch, date, drawers)(d) >= 0 && ReceivedElsewhere(branch, date, drawers)(d) == 0
    {
      var k :| 0 <= k < |cash.drops| && cash.drops[k] == d;
      assert DropFits(cash.drops[k], |cash.drawers|);
      assert d.status == Received ==> AcceptedAmount(d) >= 0;
      assert ReceivedAmong(drawers)(d) >= 0;
    }
    SumNonNegative(cash.drops, ReceivedFromOthers(branch, date, drawers));
    SumZero(cash.drops, ReceivedElsewhere(branch, date, drawers));
  }
}
