/** The two stock reports of the finance module, and how they agree with each other and with its cost totals. */
module StockReports {
  import opened Sums
  import opened Records
  import opened BusinessDate
  import opened Finance

  // ---- buckets -----------------------------------------------------------

  datatype Family = Received | Consumption | Wastage | Transferred | Adjustment | Remaining

  function Classify(kind: StockType): Family
  {
    match kind
    case Receive => Family.Received
    case SaleDeplete | SaleDepleteReversal | Reversal => Consumption
    case Waste | YieldTrim | WasteReversal => Wastage
    case TransferIn | TransferReturn | TransferOut => Transferred
    case CountAdjust | TransferShortage => Adjustment
    case Opening => Remaining
    case OtherType(_) => Remaining
  }

  /** A signed quantity, and its value. */
  datatype Flow = Flow(qty: int, value: int)

  /** One flow per family, in the order of the families. */
  type Buckets = b: seq<Flow> | |b| == 6 witness seq(6, _ => Flow(0, 0))

  function Slot(family: Family): (i: nat)
    ensures i < 6
  {
    match family
    case Received => 0
    case Consumption => 1
    case Wastage => 2
    case Transferred => 3
    case Adjustment => 4
    case Remaining => 5
  }

  /** Purchases add value, consumption and waste count what they take as positive, the rest is not valued. */
  function Worth(family: Family, delta: int, unitCost: int): int
  {
    match family
    case Received => delta * unitCost
    case Consumption => -delta * unitCost
    case Wastage => -delta * unitCost
    case Transferred => 0
    case Adjustment => 0
    case Remaining => 0
  }

  function Accumulate(b: Buckets, kind: StockType, delta: int, unitCost: int): Buckets
  {
    var family := Classify(kind);
    var flow := b[Slot(family)];
    b[Slot(family) := Flow(flow.qty + delta, flow.value + Worth(family, delta, unitCost))]
  }

  function InFamily(family: Family): StockEntry -> int
  {
    (e: StockEntry) => if Classify(e.kind) == family then e.delta else 0
  }

  function ValueIn(ingredients: seq<Ingredient>, family: Family): StockEntry -> int
  {
    (e: StockEntry) =>
      if Classify(e.kind) == family then Worth(family, e.delta, UnitCost(ingredients, e)) else 0
  }

  function FlowOf(entries: seq<StockEntry>, ingredients: seq<Ingredient>, family: Family): Flow
  {
    Flow(Sum(entries, InFamily(family)), Sum(entries, ValueIn(ingredients, family)))
  }

  /** What some entries come to, family by family. */
  function BucketsOf(entries: seq<StockEntry>, ingredients: seq<Ingredient>): Buckets
  {
    [FlowOf(entries, ingredients, Family.Received), FlowOf(entries, ingredients, Consumption),
     FlowOf(entries, ingredients, Wastage), FlowOf(entries, ingredients, Transferred),
     FlowOf(entries, ingredients, Adjustment), FlowOf(entries, ingredients, Remaining)]
  }

  lemma FlowStep(entries: seq<StockEntry>, e: StockEntry, ingredients: seq<Ingredient>, family: Family)
    ensures var before, after := FlowOf(entries, ingredients, family), FlowOf(entries + [e], ingredients, family);
      && (Classify(e.kind) == family ==>
            after == Flow(before.qty + e.delta,
                          before.value + Worth(family, e.delta, UnitCost(ingredients, e))))
      && (Classify(e.kind) != family ==> after == before)
  {
    SumAppend(entries, e, InFamily(family));
    SumAppend(entries, e, ValueIn(ingredients, family));
  }

  /** Accumulating entries one at a time gives their totals by family. */
  lemma BucketsStep(entries: seq<StockEntry>, e: StockEntry, ingredients: seq<Ingredient>)
    ensures BucketsOf(entries + [e], ingredients)
            == Accumulate(BucketsOf(entries, ingredients), e.kind, e.delta, UnitCost(ingredients, e))
  {
    FlowStep(entries, e, ingredients, Family.Received);
    FlowStep(entries, e, ingredients, Consumption);
    FlowStep(entries, e, ingredients, Wastage);
    FlowStep(entries, e, ingredients, Transferred);
    FlowStep(entries, e, ingredients, Adjustment);
    FlowStep(entries, e, ingredients, Remaining);
  }

  /** The net change in stock. */
  function NetOfBuckets(b: Buckets): int
  {
    b[0].qty + b[1].qty + b[2].qty + b[3].qty + b[4].qty + b[5].qty
  }

  /** Consumed plus wasted value. */
  function CostOfBuckets(b: Buckets): int { b[1].value + b[2].value }

  function Delta(): StockEntry -> int { (e: StockEntry) => e.delta }

  /** The value taken out of stock by consumption and waste, reversals giving back. */
  function CostValue(ingredients: seq<Ingredient>): StockEntry -> int
  {
    (e: StockEntry) =>
      if Classify(e.kind) in {Consumption, Wastage} then -e.delta * UnitCost(ingredients, e) else 0
  }

  lemma {:induction false} FamiliesHoldAll(entries: seq<StockEntry>)
    ensures Sum(entries, InFamily(Family.Received)) + Sum(entries, InFamily(Consumption))
            + Sum(entries, InFamily(Wastage)) + Sum(entries, InFamily(Transferred))
            + Sum(entries, InFamily(Adjustment)) + Sum(entries, InFamily(Remaining))
            == Sum(entries, Delta())
  {
    if |entries| > 0 {
      FamiliesHoldAll(entries[..|entries| - 1]);
    }
  }

  lemma ValuesHoldCost(entries: seq<StockEntry>, ingredients: seq<Ingredient>)
    ensures Sum(entries, ValueIn(ingredients, Consumption)) + Sum(entries, ValueIn(ingredients, Wastage))
            == Sum(entries, CostValue(ingredients))
  {
    SumLinear(entries, CostValue(ingredients), ValueIn(ingredients, Consumption), ValueIn(ingredients, Wastage), Zero());
    SumZero(entries, Zero());
  }

  /** Every entry lands in exactly one of the six buckets, and its cost in at most one. */
  lemma BucketsHoldAll(entries: seq<StockEntry>, ingredients: seq<Ingredient>)
    ensures NetOfBuckets(BucketsOf(entries, ingredients)) == Sum(entries, Delta())
    ensures CostOfBuckets(BucketsOf(entries, ingredients)) == Sum(entries, CostValue(ingredients))
  {
    FamiliesHoldAll(entries);
    ValuesHoldCost(entries, ingredients);
  }

  // ---- the movements report ----------------------------------------------

  function InRange(r: Report, k: Id): StockEntry -> bool
  {
    (e: StockEntry) => e.ingredient == k && Counts(r, e)
  }

  function Before(scope: Scope, k: Id, day: int): StockEntry -> bool
  {
    (e: StockEntry) => e.ingredient == k && SeesStock(scope, e.branch) && e.at < DayStart(day)
  }

  /** The stock of an ingredient at the start of a day. */
  function Balance(r: Report, k: Id, day: int): int
  {
    Sum(r.books.stock, Where(Before(r.scope, k, day), Delta()))
  }

  datatype Movement = Movement(ingredient: Id, opening: int, buckets: Buckets, closing: int)

  function MovementOf(r: Report, k: Id): Movement
  {
    var opening := Balance(r, k, r.period.from);
    var buckets := BucketsOf(Filter(r.books.stock, InRange(r, k)), r.books.ingredients);
    Movement(k, opening, buckets, opening + NetOfBuckets(buckets))
  }

  /** Rows that open at nothing and net to nothing are not reported. */
  predicate Reported(m: Movement) { !(m.opening == 0 && NetOfBuckets(m.buckets) == 0) }

  function ReportLine(m: Movement): seq<Movement> { if Reported(m) then [m] else [] }

  function Movements(r: Report, upto: nat): seq<Movement>
  {
    if upto == 0 then [] else Movements(r, upto - 1) + ReportLine(MovementOf(r, upto - 1))
  }

  // ---- material cost -----------------------------------------------------

  predicate Depletes(kind: StockType) { kind in {SaleDeplete, Waste, YieldTrim} }

  /** A depletion that adds stock or a reversal that takes it. */
  predicate WrongSign(e: StockEntry)
  {
    (Depletes(e.kind) && e.delta > 0) || (e.kind in REVERSALS && e.delta < 0)
  }

  function WrongSigned(r: Report): StockEntry -> int
  {
    (e: StockEntry) =>
      if Counts(r, e) && WrongSign(e) then e.delta * UnitCost(r.books.ingredients, e) else 0
  }

  function Ids(n: nat): (ids: seq<Id>)
    ensures |ids| == n
    ensures forall i | 0 <= i < n :: ids[i] == i
  {
    if n == 0 then [] else Ids(n - 1) + [n - 1]
  }

  function EntryIngredient(): StockEntry -> Id { (e: StockEntry) => e.ingredient }

  function IngredientCost(r: Report): Id -> int
  {
    (k: Id) => CostOfBuckets(MovementOf(r, k).buckets)
  }

  function InScope(r: Report): StockEntry -> bool { (e: StockEntry) => Counts(r, e) }

  /** Every ledger row names an ingredient of the tenant. */
  ghost predicate Registered(books: Books)
  {
    forall e | e in books.stock :: e.ingredient < |books.ingredients|
  }

  lemma IngredientCostSums(r: Report, k: Id)
    ensures IngredientCost(r)(k)
            == Sum(r.books.stock, Where(InRange(r, k), CostValue(r.books.ingredients)))
  {
    BucketsHoldAll(Filter(r.books.stock, InRange(r, k)), r.books.ingredients);
    SumWhere(r.books.stock, InRange(r, k), CostValue(r.books.ingredients));
  }

  lemma CostOfKey(r: Report, k: Id, f: StockEntry -> int)
    ensures Sum(r.books.stock, Where(InRange(r, k), f))
            == KeyTotal(r.books.stock, EntryIngredient(), Where(InScope(r), f))(k)
  {
    SumCongruent(r.books.stock, Where(InRange(r, k), f), OnKey(EntryIngredient(), Where(InScope(r), f), k));
  }

  lemma IngredientsSplitCost(r: Report)
    requires Registered(r.books)
    ensures Sum(Ids(|r.books.ingredients|), IngredientCost(r))
            == Sum(r.books.stock, Where(InScope(r), CostValue(r.books.ingredients)))
  {
    var cost := CostValue(r.books.ingredients);
    var counted := Where(InScope(r), cost);
    var ids := Ids(|r.books.ingredients|);
    forall e | e in r.books.stock ensures EntryIngredient()(e) in ids {
      assert ids[e.ingredient] == e.ingredient;
    }
    SplitByKey(r.books.stock, EntryIngredient(), counted, ids);
    forall k: Id ensures IngredientCost(r)(k) == KeyTotal(r.books.stock, EntryIngredient(), counted)(k) {
      IngredientCostSums(r, k);
      CostOfKey(r, k, cost);
    }
    SumCongruent(ids, IngredientCost(r), KeyTotal(r.books.stock, EntryIngredient(), counted));
  }

  function Doubled(f: StockEntry -> int): StockEntry -> int { (e: StockEntry) => 2 * f(e) }

  lemma {:induction false} SumDoubled(s: seq<StockEntry>, f: StockEntry -> int)
    ensures Sum(s, Doubled(f)) == 2 * Sum(s, f)
  {
    if |s| > 0 {
      SumDoubled(s[..|s| - 1], f);
    }
  }

  /** The size of a signed quantity, valued. */
  lemma SizeValue(delta: int, unitCost: int)
    ensures -delta * unitCost == -(delta * unitCost)
    ensures Abs(delta) * unitCost == if delta < 0 then -(delta * unitCost) else delta * unitCost
  {
  }

  lemma MaterialOfOne(r: Report, e: StockEntry)
    ensures Material(r)(e) == Where(InScope(r), CostValue(r.books.ingredients))(e) + Doubled(WrongSigned(r))(e)
  {
    SizeValue(e.delta, UnitCost(r.books.ingredients, e));
    var v := e.delta * UnitCost(r.books.ingredients, e);
    if !Counts(r, e) {
      assert Cogs(r)(e) == 0 && Wasted(r)(e) == 0 && !InScope(r)(e);
    } else {
      assert Cogs(r)(e) == CogsValue(e.kind, e.delta, UnitCost(r.books.ingredients, e));
      assert Wasted(r)(e) == WasteValue(e.kind, e.delta, UnitCost(r.books.ingredients, e));
      assert InScope(r)(e);
      assert WrongSigned(r)(e) == if WrongSign(e) then v else 0;
    }
  }

  /**
   The cost totals and the movements report put reversals of waste in different places, and one takes the
   size of a quantity where the other takes its sign. They differ by twice the value of the wrong-signed
   rows, over all ingredients, whether reported or not.
   */
  lemma MaterialCostGap(r: Report)
    requires Registered(r.books)
    ensures MaterialCost(CoreOf(r))
            == Sum(Ids(|r.books.ingredients|), IngredientCost(r)) + 2 * Sum(r.books.stock, WrongSigned(r))
  {
    MaterialIsCogsAndWaste(r);
    IngredientsSplitCost(r);
    forall e | e in r.books.stock
      ensures Material(r)(e) == Where(InScope(r), CostValue(r.books.ingredients))(e) + Doubled(WrongSigned(r))(e)
                                - Zero<StockEntry>()(e)
    {
      MaterialOfOne(r, e);
    }
    SumLinear(r.books.stock, Material(r), Where(InScope(r), CostValue(r.books.ingredients)),
              Doubled(WrongSigned(r)), Zero());
    SumZero(r.books.stock, Zero());
    SumDoubled(r.books.stock, WrongSigned(r));
  }

  lemma NoneWrongSigned(r: Report)
    requires forall e | e in r.books.stock && Counts(r, e) :: !WrongSign(e)
    ensures Sum(r.books.stock, WrongSigned(r)) == 0
  {
    SumZero(r.books.stock, WrongSigned(r));
  }

  /** With depletions and waste never adding stock and reversals never taking it, the two agree. */
  lemma MaterialCostAgrees(r: Report)
    requires Registered(r.books)
    requires forall e | e in r.books.stock && Counts(r, e) :: !WrongSign(e)
    ensures MaterialCost(CoreOf(r)) == Sum(Ids(|r.books.ingredients|), IngredientCost(r))
  {
    MaterialCostGap(r);
    NoneWrongSigned(r);
  }

  function MovementCost(): Movement -> int
  {
    (m: Movement) => CostOfBuckets(m.buckets)
  }

  function DroppedCost(r: Report): Id -> int
  {
    (k: Id) => if Reported(MovementOf(r, k)) then 0 else IngredientCost(r)(k)
  }

  /** The rows the report leaves out take their cost with them. */
  lemma {:induction false} ReportedCost(r: Report, upto: nat)
    ensures Sum(Movements(r, upto), MovementCost()) + Sum(Ids(upto), DroppedCost(r)) == Sum(Ids(upto), IngredientCost(r))
  {
    if upto > 0 {
      ReportedCost(r, upto - 1);
      var row := MovementOf(r, upto - 1);
      SumAppend(Movements(r, upto - 1), row, MovementCost());
      assert Movements(r, upto - 1) + [] == Movements(r, upto - 1);
      assert Ids(upto)[..upto - 1] == Ids(upto - 1);
    }
  }

  /** Five units bought and used up inside the range. */
  function UsedUp(): Report
  {
    Report(Books([], [], [], [StockEntry(Some(0), 0, 0, Receive, 5, Some(2)),
                              StockEntry(Some(0), 0, 1, SaleDeplete, -5, Some(2))], [Ingredient(None)]),
           Scope([0], false, false), Period(0, 0))
  }

  lemma TwoRows(first: StockEntry, second: StockEntry, f: StockEntry -> int)
    ensures Sum([first, second], f) == f(first) + f(second)
  {
    assert [first, second] == [first] + [second];
    assert [first][..0] == [];
    SumAppend([first], second, f);
  }

  lemma UsedUpNets()
    ensures !Reported(MovementOf(UsedUp(), 0))
  {
    var r := UsedUp();
    var stock := r.books.stock;
    ClosingMoves(r, 0);
    TwoRows(stock[0], stock[1], Where(Before(r.scope, 0, 0), Delta()));
    TwoRows(stock[0], stock[1], Own(r, 0));
    assert InRange(r, 0)(stock[0]) && InRange(r, 0)(stock[1]);
  }

  lemma UsedUpCosts()
    ensures Sum(UsedUp().books.stock, Material(UsedUp())) == 10
  {
    var r := UsedUp();
    var stock := r.books.stock;
    TwoRows(stock[0], stock[1], Material(r));
    assert Cogs(r)(stock[0]) == 0 && Wasted(r)(stock[0]) == 0;
    assert Cogs(r)(stock[1]) == 10 && Wasted(r)(stock[1]) == 0;
  }

  lemma NoRowAlone(r: Report)
    requires |r.books.ingredients| == 1 && !Reported(MovementOf(r, 0))
    ensures Movements(r, |r.books.ingredients|) == []
  {
    assert Movements(r, 0) == [];
  }

  /** An ingredient that nets to nothing has cost and no row, so reported rows can fall short of the total. */
  lemma UsedUpIsDropped(r: Report)
    requires r == UsedUp()
    ensures Movements(r, |r.books.ingredients|) == []
    ensures Sum(r.books.stock, Material(r)) == 10
  {
    UsedUpNets();
    UsedUpCosts();
    NoRowAlone(r);
  }

  // ---- stock value -------------------------------------------------------

  function MovementValue(kind: StockType, delta: int, unitCost: int): int
  {
    if kind == Receive || kind in {TransferIn, TransferReturn} then Abs(delta) * unitCost
    else if kind == TransferOut then -(Abs(delta) * unitCost)
    else if kind in {CountAdjust, TransferShortage} then delta * unitCost
    else -CogsValue(kind, delta, unitCost) - WasteValue(kind, delta, unitCost)
  }

  /** The net change of stock value the summary works back from to an opening value. */
  function NetMovement(r: Report): StockEntry -> int
  {
    (e: StockEntry) => if Counts(r, e) then MovementValue(e.kind, e.delta, UnitCost(r.books.ingredients, e)) else 0
  }

  predicate Movable(kind: StockType) { kind != Opening && !kind.OtherType? }

  function SignedValue(r: Report): StockEntry -> int
  {
    (e: StockEntry) =>
      if Counts(r, e) && Movable(e.kind) then e.delta * UnitCost(r.books.ingredients, e) else 0
  }

  predicate Backwards(e: StockEntry)
  {
    WrongSign(e) || (e.kind in {Receive, TransferIn, TransferReturn} && e.delta < 0)
    || (e.kind == TransferOut && e.delta > 0)
  }

  function BackwardValue(r: Report): StockEntry -> int
  {
    (e: StockEntry) =>
      if Counts(r, e) && Backwards(e) then e.delta * UnitCost(r.books.ingredients, e) else 0
  }

  lemma MovementOfOne(r: Report, e: StockEntry)
    ensures NetMovement(r)(e) == SignedValue(r)(e) - Doubled(BackwardValue(r))(e)
  {
    var u := UnitCost(r.books.ingredients, e);
    assert -e.delta * u == -(e.delta * u);
  }

  /** The summary's net movement is the signed value of the stock moved, less twice that of backward rows. */
  lemma NetMovementGap(r: Report)
    ensures Sum(r.books.stock, NetMovement(r))
            == Sum(r.books.stock, SignedValue(r)) - 2 * Sum(r.books.stock, BackwardValue(r))
  {
    forall e | e in r.books.stock
      ensures NetMovement(r)(e) == SignedValue(r)(e) + Zero<StockEntry>()(e) - Doubled(BackwardValue(r))(e)
    {
      MovementOfOne(r, e);
    }
    SumLinear(r.books.stock, NetMovement(r), SignedValue(r), Zero(), Doubled(BackwardValue(r)));
    SumZero(r.books.stock, Zero());
    SumDoubled(r.books.stock, BackwardValue(r));
  }

  // ---- the usage series --------------------------------------------------

  datatype Moved = Moved(received: int, consumed: int, wasted: int)
  datatype UsageDay = UsageDay(day: int, moved: Moved, closing: int)

  function Own(r: Report, k: Id): StockEntry -> int { Where(InRange(r, k), Delta()) }

  /** What happens to an ingredient on one day of the range. */
  function DayNet(r: Report, k: Id): int -> int { KeyTotal(r.books.stock, StockDay(), Own(r, k)) }

  function FamilyOn(r: Report, k: Id, family: Family, d: int): StockEntry -> int
  {
    OnKey(StockDay(), Where(InRange(r, k), InFamily(family)), d)
  }

  /** What some of the rows make of one day: received, consumed and wasted quantities. */
  function MovedOn(r: Report, rows: seq<StockEntry>, k: Id, d: int): Moved
  {
    Moved(Sum(rows, FamilyOn(r, k, Family.Received, d)), -Sum(rows, FamilyOn(r, k, Consumption, d)),
          -Sum(rows, FamilyOn(r, k, Wastage, d)))
  }

  function UsageSeries(r: Report, k: Id, days: seq<int>): (series: seq<UsageDay>)
    ensures |series| == |days|
  {
    if |days| == 0 then []
    else
      var n := |days| - 1;
      var d := days[n];
      UsageSeries(r, k, days[..n])
      + [UsageDay(d, MovedOn(r, r.books.stock, k, d), Balance(r, k, r.period.from) + Sum(days, DayNet(r, k)))]
  }

  /** The days of a range up to its i-th. */
  lemma DaysUpTo(p: Period, i: nat, day: int)
    requires i < |DaysOf(p)| && day == p.from + i
    ensures DaysOf(p)[..i + 1] == DaysOf(Period(p.from, day)) && day <= p.to
  {
    var days, upTo := DaysOf(p), DaysOf(Period(p.from, day));
    assert |upTo| == i + 1 && day <= p.to;
    forall j | 0 <= j <= i ensures upTo[j] == days[j] {
      assert days[j] == p.from + j;
    }
  }

  lemma {:induction false} SeriesPrefix(r: Report, k: Id, days: seq<int>, i: nat)
    requires i < |days|
    ensures UsageSeries(r, k, days)[i].closing == Balance(r, k, r.period.from) + Sum(days[..i + 1], DayNet(r, k))
  {
    var n := |days| - 1;
    if i == n {
      assert days[..i + 1] == days;
    } else {
      SeriesPrefix(r, k, days[..n], i);
      assert days[..n][..i + 1] == days[..i + 1];
    }
  }

  lemma BeforeOrDuring(r: Report, part: Report, k: Id)
    requires part == r.(period := Period(r.period.from, part.period.to))
    requires r.period.from <= part.period.to + 1
    ensures Balance(r, k, part.period.to + 1)
            == Balance(r, k, r.period.from) + Sum(r.books.stock, Own(part, k))
  {
    var last := part.period.to;
    forall e: StockEntry
      ensures Where(Before(r.scope, k, last + 1), Delta())(e)
              == Where(Before(r.scope, k, r.period.from), Delta())(e) + Own(part, k)(e) - Zero<StockEntry>()(e)
    {
      BeforeIff(e.at, last + 1);
      BeforeIff(e.at, r.period.from);
      InRangeIff(e.at, r.period.from, last);
    }
    SumLinear(r.books.stock, Where(Before(r.scope, k, last + 1), Delta()),
              Where(Before(r.scope, k, r.period.from), Delta()), Own(part, k), Zero());
    SumZero(r.books.stock, Zero());
  }

  lemma OwnSplits(r: Report, k: Id)
    ensures Sum(DaysOf(r.period), DayNet(r, k)) == Sum(r.books.stock, Own(r, k))
  {
    forall e | e in r.books.stock && Own(r, k)(e) != 0 ensures Counts(r, e) {
      assert InRange(r, k)(e);
    }
    StockSplits(r, Own(r, k));
  }

  /** A day nets to the same however long the range around it is. */
  lemma SameDayNet(r: Report, part: Report, k: Id, d: int)
    requires part == r.(period := part.period)
    requires InPeriod(r.period, d) && InPeriod(part.period, d)
    ensures DayNet(part, k)(d) == DayNet(r, k)(d)
  {
    forall e: StockEntry
      ensures OnKey(StockDay(), Own(part, k), d)(e) == OnKey(StockDay(), Own(r, k), d)(e)
    {
      InRangeIff(e.at, part.period.from, part.period.to);
      InRangeIff(e.at, r.period.from, r.period.to);
    }
    SumCongruent(r.books.stock, OnKey(StockDay(), Own(part, k), d), OnKey(StockDay(), Own(r, k), d));
  }

  /** Stock moves from the start of one day to the start of another by the days between. */
  lemma BalanceMoves(r: Report, k: Id, last: int)
    requires r.period.from <= last + 1 && last <= r.period.to
    ensures Balance(r, k, last + 1)
            == Balance(r, k, r.period.from) + Sum(DaysOf(Period(r.period.from, last)), DayNet(r, k))
  {
    BalanceMovesTo(r, r.(period := Period(r.period.from, last)), k);
  }

  lemma BalanceMovesTo(r: Report, part: Report, k: Id)
    requires part == r.(period := Period(r.period.from, part.period.to))
    requires r.period.from <= part.period.to + 1 && part.period.to <= r.period.to
    ensures Balance(r, k, part.period.to + 1)
            == Balance(r, k, r.period.from) + Sum(DaysOf(part.period), DayNet(r, k))
  {
    BeforeOrDuring(r, part, k);
    OwnSplits(part, k);
    forall d | d in DaysOf(part.period) ensures DayNet(part, k)(d) == DayNet(r, k)(d) {
      DaysCover(part.period, d);
      SameDayNet(r, part, k, d);
    }
    SumCongruent(DaysOf(part.period), DayNet(part, k), DayNet(r, k));
  }

  /** Every running balance of the usage series is the stock at the start of the following day. */
  lemma SeriesShowsBalances(r: Report, k: Id, i: nat, day: int)
    requires i < |DaysOf(r.period)| && day == r.period.from + i
    ensures UsageSeries(r, k, DaysOf(r.period))[i].closing == Balance(r, k, day + 1)
  {
    SeriesPrefix(r, k, DaysOf(r.period), i);
    DaysUpTo(r.period, i, day);
    BalanceMoves(r, k, day);
  }

  lemma ClosingMoves(r: Report, k: Id)
    ensures MovementOf(r, k).closing == Balance(r, k, r.period.from) + Sum(r.books.stock, Own(r, k))
  {
    BucketsHoldAll(Filter(r.books.stock, InRange(r, k)), r.books.ingredients);
    SumWhere(r.books.stock, InRange(r, k), Delta());
  }

  lemma ClosingIsBalance(r: Report, k: Id)
    requires r.period.from <= r.period.to
    ensures MovementOf(r, k).closing == Balance(r, k, r.period.to + 1)
  {
    ClosingMoves(r, k);
    BalanceMoves(r, k, r.period.to);
    OwnSplits(r, k);
    assert Period(r.period.from, r.period.to) == r.period;
  }

  /** The movements report closes at the stock the next range opens with, however long that range is. */
  lemma ClosingOpensNext(r: Report, next: Report, k: Id)
    requires r.period.from <= r.period.to
    requires next.books == r.books && next.scope == r.scope && next.period.from == r.period.to + 1
    ensures MovementOf(next, k).opening == MovementOf(r, k).closing
  {
    ClosingIsBalance(r, k);
  }

  /** The two reports agree: the series ends where the movements report closes. */
  lemma ReportsAgree(r: Report, k: Id, last: nat)
    requires last + 1 == |DaysOf(r.period)|
    ensures UsageSeries(r, k, DaysOf(r.period))[last].closing == MovementOf(r, k).closing
  {
    var end := Balance(r, k, r.period.to + 1);
    SeriesShowsBalances(r, k, last, r.period.to);
    assert UsageSeries(r, k, DaysOf(r.period))[last].closing == end;
    ClosingIsBalance(r, k);
  }

  /** Each entry of the range falls on exactly one day of the series, and entries outside it on none. */
  lemma OneDayEach(r: Report, at: int)
    ensures Distinct(DaysOf(r.period))
    ensures DuringPeriod(r.period, at) <==> CalendarDay(at) in DaysOf(r.period)
  {
    InRangeIff(at, r.period.from, r.period.to);
    DaysCover(r.period, CalendarDay(at));
  }
}
