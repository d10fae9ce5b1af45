/** The backup scheduler: one evaluation per timer tick, remembering only a day of the month and an hour. */
module BackupCron {
  import opened Calendar

  datatype Interval = Manual | Daily | TwiceDaily | Weekly
  datatype Settings = Settings(enabled: bool, interval: Interval, sendHour: nat)

  /** The wall clock in Addis Ababa when the timer fires. */
  datatype Tick = Tick(day: nat, hour: nat)

  datatype Memory = Memory(lastRunDay: int, lastRunHour: int)

  const FRESH: Memory := Memory(-1, -1)

  function SecondHour(s: Settings): nat { (s.sendHour + 12) % 24 }

  function ShouldRun(s: Settings, m: Memory, t: Tick): bool
  {
    s.enabled && match s.interval
                 case Manual => false
                 case Daily => t.hour == s.sendHour && m.lastRunDay != DayOfMonth(t.day)
                 case TwiceDaily =>
                   (t.hour == s.sendHour || t.hour == SecondHour(s)) && m.lastRunHour != t.hour
                 case Weekly =>
                   DayOfWeek(t.day) == SUNDAY && t.hour == s.sendHour && m.lastRunDay != DayOfMonth(t.day)
  }

  function Remember(s: Settings, m: Memory, t: Tick): Memory
  {
    if ShouldRun(s, m, t) then Memory(DayOfMonth(t.day), t.hour) else m
  }

  class BackupCronService {
    var lastRunDay: int
    var lastRunHour: int

    function Marks(): Memory
      reads this
    {
      Memory(lastRunDay, lastRunHour)
    }

    constructor ()
      ensures Marks() == FRESH
    {
      lastRunDay, lastRunHour := -1, -1;
    }

    /** `run` says whether the backup of all tenants is triggered. */
    method EvaluateSchedule(settings: Settings, now: Tick) returns (run: bool)
      modifies this
      ensures run == ShouldRun(settings, old(Marks()), now)
      ensures Marks() == Remember(settings, old(Marks()), now)
    {
      if !settings.enabled || settings.interval == Manual {
        return false;
      }
      var dayOfWeek, currentDay := DayOfWeek(now.day), DayOfMonth(now.day);
      run := false;
      if settings.interval == Daily {
        if now.hour == settings.sendHour && lastRunDay != currentDay {
          run := true;
        }
      } else if settings.interval == TwiceDaily {
        var secondHour := (settings.sendHour + 12) % 24;
        if (now.hour == settings.sendHour || now.hour == secondHour) && lastRunHour != now.hour {
          run := true;
        }
      } else if dayOfWeek == SUNDAY && now.hour == settings.sendHour && lastRunDay != currentDay {
        run := true;
      }
      if run {
        lastRunDay := currentDay;
        lastRunHour := now.hour;
      }
    }
  }

  // ---- slots -------------------------------------------------------------

  predicate Due(s: Settings, t: Tick)
  {
    s.enabled && match s.interval
                 case Manual => false
                 case Daily => t.hour == s.sendHour
                 case TwiceDaily => t.hour == s.sendHour || t.hour == SecondHour(s)
                 case Weekly => DayOfWeek(t.day) == SUNDAY && t.hour == s.sendHour
  }

  /** Due ticks of one slot belong to the same scheduled run; slots are numbered in order of time. */
  function Slot(s: Settings, t: Tick): nat
  {
    match s.interval
    case Manual => 0
    case Daily => t.day
    case TwiceDaily => 2 * t.day + (if t.hour < 12 then 0 else 1)
    case Weekly => (t.day + 4) / 7
  }

  /** The mark a run in the slot of this tick leaves behind. */
  function Mark(s: Settings, t: Tick): int
  {
    if s.interval == TwiceDaily then t.hour else DayOfMonth(t.day)
  }

  function MarkIn(s: Settings, m: Memory): int
  {
    if s.interval == TwiceDaily then m.lastRunHour else m.lastRunDay
  }

  predicate InTime(a: Tick, b: Tick) { a.day < b.day || (a.day == b.day && a.hour <= b.hour) }

  /** A due tick runs exactly when the last run left another mark. */
  lemma RunsIffMarkDiffers(s: Settings, m: Memory, t: Tick)
    ensures ShouldRun(s, m, t) <==> Due(s, t) && MarkIn(s, m) != Mark(s, t)
    ensures MarkIn(s, Remember(s, m, t)) == if ShouldRun(s, m, t) then Mark(s, t) else MarkIn(s, m)
  {
  }

  /** What the slots of due ticks mean: the calendar day, the Sunday, or the day and hour. */
  lemma SlotsSeparate(s: Settings, a: Tick, b: Tick)
    requires s.sendHour < 24 && Due(s, a) && Due(s, b)
    ensures Slot(s, a) == Slot(s, b) <==> a == b
    ensures InTime(a, b) <==> Slot(s, a) <= Slot(s, b)
    ensures Slot(s, a) == Slot(s, b) ==> Mark(s, a) == Mark(s, b)
  {
  }

  /** Neighbouring slots leave different marks, over month ends and year ends too. */
  lemma NeighboursDiffer(s: Settings, a: Tick, b: Tick)
    requires s.sendHour < 24 && Due(s, a) && Due(s, b)
    requires Slot(s, b) == Slot(s, a) + 1
    ensures Mark(s, a) != Mark(s, b)
  {
    if s.interval == Daily {
      DayOfMonthMovesOn(a.day, 1);
    } else if s.interval == Weekly {
      assert b.day == a.day + 7;
      DayOfMonthMovesOn(a.day, 7);
    }
  }

  // ---- runs --------------------------------------------------------------

  /** Tick times never go back. */
  predicate Ordered(ticks: seq<Tick>)
  {
    forall i, j | 0 <= i < j < |ticks| :: InTime(ticks[i], ticks[j])
  }

  function MemoryAfter(s: Settings, ticks: seq<Tick>): Memory
  {
    if |ticks| == 0 then FRESH
    else Remember(s, MemoryAfter(s, ticks[..|ticks| - 1]), ticks[|ticks| - 1])
  }

  /** Whether the i-th tick triggers a backup. */
  predicate Fires(s: Settings, ticks: seq<Tick>, i: nat)
    requires i < |ticks|
  {
    ShouldRun(s, MemoryAfter(s, ticks[..i]), ticks[i])
  }

  /** A tick of the same slot as an earlier due tick is held back: the tick just before it left their mark. */
  lemma HeldBack(s: Settings, ticks: seq<Tick>, i: nat, j: nat)
    requires Ordered(ticks) && i < j < |ticks| && Due(s, ticks[i])
    ensures ticks[i] == ticks[j] ==> !Fires(s, ticks, j)
  {
    RunsIffMarkDiffers(s, MemoryAfter(s, ticks[..j - 1]), ticks[j - 1]);
    assert ticks[..j][..j - 1] == ticks[..j - 1];
  }

  /**
   At most one run per slot: DAILY per calendar day, WEEKLY per Sunday, TWICE_DAILY per due hour, whatever ticks
   were missed before.
   */
  lemma AtMostOncePerSlot(s: Settings, ticks: seq<Tick>, i: nat, j: nat)
    requires s.sendHour < 24 && Ordered(ticks) && i < j < |ticks|
    requires Fires(s, ticks, i) && Fires(s, ticks, j)
    ensures Slot(s, ticks[i]) < Slot(s, ticks[j])
  {
    HeldBack(s, ticks, i, j);
    SlotsSeparate(s, ticks[i], ticks[j]);
  }

  // ---- exactly once ------------------------------------------------------

  predicate Earlier(s: Settings, ticks: seq<Tick>, i: nat, slot: nat)
  {
    exists j :: 0 <= j < i && j < |ticks| && Due(s, ticks[j]) && Slot(s, ticks[j]) == slot
  }

  /** No due slot goes by without a tick once the first one has been reached. */
  ghost predicate NoneMissed(s: Settings, ticks: seq<Tick>)
  {
    forall i, slot: nat | 0 <= i < |ticks| && Due(s, ticks[i]) && slot < Slot(s, ticks[i])
                          && (exists j :: 0 <= j < i && Due(s, ticks[j]) && Slot(s, ticks[j]) <= slot) ::
      Earlier(s, ticks, i, slot)
  }

  /** The latest due tick before position n, if there is one. */
  ghost predicate LatestDue(s: Settings, ticks: seq<Tick>, n: nat, j: nat)
  {
    && j < n <= |ticks| && Due(s, ticks[j])
    && forall k | j < k < n :: !Due(s, ticks[k])
  }

  lemma FindLatest(s: Settings, ticks: seq<Tick>, n: nat) returns (j: nat)
    requires n <= |ticks| && exists k :: 0 <= k < n && Due(s, ticks[k])
    ensures LatestDue(s, ticks, n, j)
    decreases n
  {
    if Due(s, ticks[n - 1]) {
      j := n - 1;
    } else {
      j := FindLatest(s, ticks, n - 1);
    }
  }

  /** With no slot missed, the latest due tick before a due tick is in its own slot or the one before. */
  lemma LatestIsNear(s: Settings, ticks: seq<Tick>, i: nat, j: nat)
    requires s.sendHour < 24 && Ordered(ticks) && NoneMissed(s, ticks)
    requires i < |ticks| && Due(s, ticks[i]) && LatestDue(s, ticks, i, j)
    ensures Slot(s, ticks[j]) == Slot(s, ticks[i]) || Slot(s, ticks[j]) + 1 == Slot(s, ticks[i])
    ensures Earlier(s, ticks, i, Slot(s, ticks[i])) <==> Slot(s, ticks[j]) == Slot(s, ticks[i])
  {
    SlotsSeparate(s, ticks[j], ticks[i]);
    forall k | 0 <= k < i && Due(s, ticks[k]) ensures Slot(s, ticks[k]) <= Slot(s, ticks[j]) {
      if k < j {
        SlotsSeparate(s, ticks[k], ticks[j]);
      }
    }
    assert !Earlier(s, ticks, i, Slot(s, ticks[j]) + 1);
  }

  /** The memory holds the mark of the latest due tick, whether that tick ran or was held back. */
  lemma {:induction false} MarkOfLatest(s: Settings, ticks: seq<Tick>, n: nat, j: nat)
    requires LatestDue(s, ticks, n, j)
    ensures MarkIn(s, MemoryAfter(s, ticks[..n])) == Mark(s, ticks[j])
  {
    assert ticks[..n][..n - 1] == ticks[..n - 1];
    RunsIffMarkDiffers(s, MemoryAfter(s, ticks[..n - 1]), ticks[n - 1]);
    if j < n - 1 {
      MarkOfLatest(s, ticks, n - 1, j);
    }
  }

  lemma {:induction false} FreshUntilDue(s: Settings, ticks: seq<Tick>, n: nat)
    requires n <= |ticks| && forall j | 0 <= j < n :: !Due(s, ticks[j])
    ensures MemoryAfter(s, ticks[..n]) == FRESH
  {
    if n > 0 {
      FreshUntilDue(s, ticks, n - 1);
      assert ticks[..n][..n - 1] == ticks[..n - 1];
      RunsIffMarkDiffers(s, MemoryAfter(s, ticks[..n - 1]), ticks[n - 1]);
    }
  }

  /**
   From a fresh start, if every due slot gets a tick, each due slot runs exactly once: its first tick runs and
   no other does.
   */
  lemma FirstTickRuns(s: Settings, ticks: seq<Tick>, i: nat)
    requires s.sendHour < 24 && Ordered(ticks) && NoneMissed(s, ticks)
    requires i < |ticks| && Due(s, ticks[i])
    ensures Fires(s, ticks, i) <==> !Earlier(s, ticks, i, Slot(s, ticks[i]))
  {
    RunsIffMarkDiffers(s, MemoryAfter(s, ticks[..i]), ticks[i]);
    if exists k :: 0 <= k < i && Due(s, ticks[k]) {
      var j := FindLatest(s, ticks, i);
      MarkOfLatest(s, ticks, i, j);
      LatestIsNear(s, ticks, i, j);
      if Slot(s, ticks[j]) == Slot(s, ticks[i]) {
        SlotsSeparate(s, ticks[j], ticks[i]);
      } else {
        NeighboursDiffer(s, ticks[j], ticks[i]);
      }
    } else {
      FreshUntilDue(s, ticks, i);
    }
  }

  /**
   With slots missed, a due tick runs exactly when its mark is not the one of the due tick before it, however far
   back that was.
   */
  lemma RunsIffLatestDiffers(s: Settings, ticks: seq<Tick>, i: nat, j: nat)
    requires i < |ticks| && Due(s, ticks[i]) && LatestDue(s, ticks, i, j)
    ensures Fires(s, ticks, i) <==> Mark(s, ticks[i]) != Mark(s, ticks[j])
  {
    MarkOfLatest(s, ticks, i, j);
    RunsIffMarkDiffers(s, MemoryAfter(s, ticks[..i]), ticks[i]);
  }

  /** A daily run lost after an outage: the first due tick in a month, on the same day of the month as the last. */
  lemma OutageLosesARun(s: Settings, day: nat)
    requires s.enabled && s.interval == Daily && SameDayNextMonth(day)
    ensures var ticks := [Tick(day, s.sendHour), Tick(day + LengthAt(day), s.sendHour)];
      Fires(s, ticks, 0) && Due(s, ticks[1]) && ticks[0].day < ticks[1].day && !Fires(s, ticks, 1)
  {
    var ticks := [Tick(day, s.sendHour), Tick(day + LengthAt(day), s.sendHour)];
    MonthOn(day);
    FreshUntilDue(s, ticks, 0);
    assert LatestDue(s, ticks, 1, 0);
    RunsIffLatestDiffers(s, ticks, 1, 0);
  }
}
