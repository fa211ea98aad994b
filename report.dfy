/**
 * The weekly report: the server's punch history for the selected week is
 * paired IN-to-OUT into worked durations, grouped by French day name, and
 * each day's durations are summed and shown as hours, minutes and seconds.
 */
module Report {
  import opened Wrappers
  import opened Clock
  import opened Storage

  /** One entry of the server's history: its type and its instant. */
  datatype HistEntry = HistEntry(tPtg: string, instPtg: Instant)

  /** One worked interval as the report shows it. */
  datatype EmployeeHours = EmployeeHours(totalHours: int, totalMinutes: int, totalSeconds: int,
                                         inTime: Instant, day: string)

  /** JavaScript's `%`: the remainder takes the sign of the dividend. */
  function JsRem(a: int, b: int): (r: int)
    requires b > 0
    ensures a >= 0 ==> 0 <= r < b && r == a % b
    ensures a < 0 ==> -b < r <= 0
  {
    if a >= 0 then a % b else -((-a) % b)
  }

  /** Truncation is symmetric about zero, unlike Dafny's Euclidean `%`. */
  lemma JsRemIsOdd(a: int, b: int)
    requires b > 0
    ensures JsRem(-a, b) == -JsRem(a, b)
  {
  }

  /**
   * Hours, minutes and seconds as the screen computes them:
   * `Math.floor(d / 3600)`, `Math.floor((d % 3600) / 60)` and `d % 60`
   * (Dafny's `/` by a positive divisor is `Math.floor` of the quotient).
   */
  function Decompose(d: int): (hms: (int, int, int))
    ensures d >= 0 ==> hms.0 >= 0 && 0 <= hms.1 < 60 && 0 <= hms.2 < 60
    ensures d < 0 ==> hms.0 < 0 && hms.1 <= 0 && hms.2 <= 0
  {
    (d / 3600, JsRem(d, 3600) / 60, JsRem(d, 60))
  }

  /** What a decomposition adds back up to. */
  function Recompose(hms: (int, int, int)): int {
    hms.0 * 3600 + hms.1 * 60 + hms.2
  }

  /** A non-negative duration is shown exactly, with minutes and seconds below 60. */
  lemma DecomposeRecomposes(d: int)
    requires d >= 0
    ensures 0 <= Decompose(d).1 < 60 && 0 <= Decompose(d).2 < 60
    ensures Recompose(Decompose(d)) == d
  {
  }

  /** A negative duration of 30 seconds is shown as -1h -1m -30s, which adds up to -3690 seconds. */
  lemma NegativeDurationDoesNotRecompose()
    ensures Decompose(-30) == (-1, -1, -30)
    ensures Recompose(Decompose(-30)) == -3690
  {
  }

  /** French day names indexed by `getDay()` (0 is Sunday). */
  const FrenchDays: seq<string> := ["Dimanche", "Lundi", "Mardi", "Mercredi", "Jeudi", "Vendredi", "Samedi"]

  /** `daysMap` applied to the English weekday name of an instant. */
  function DayName(t: Instant): (name: string)
    ensures name in FrenchDays
    ensures Weekday(t) == 1 ==> name == "Lundi"
    ensures Weekday(t) == 0 ==> name == "Dimanche"
  {
    FrenchDays[Weekday(t)]
  }

  /** Different weekdays get different names, so grouping by name is grouping by weekday. */
  lemma DayNamesDistinct(t1: Instant, t2: Instant)
    ensures DayName(t1) == DayName(t2) <==> Weekday(t1) == Weekday(t2)
  {
  }

  /**
   * The date picker's snapping: the Monday at 00:00 of the Monday-to-Sunday
   * week containing the picked instant; a Sunday goes back six days.
   */
  function WeekStart(picked: Instant): (m: Instant)
    ensures Weekday(m) == 1 && m % SecondsPerDay == 0
    ensures Day(m) <= Day(picked) <= Day(m) + 6
    ensures Weekday(picked) == 0 <==> Day(picked) == Day(m) + 6
  {
    var w := Weekday(picked);
    var offset := if w == 0 then -6 else 1 - w;
    var m := Midnight(picked) + offset * SecondsPerDay;
    assert Day(m) == Day(picked) + offset by {
      assert m == (Day(picked) + offset) * SecondsPerDay;
    }
    var q := (Day(picked) + 4) / 7;
    assert Day(picked) + 4 == 7 * q + w;
    assert Day(m) + 4 == 7 * (if w == 0 then q - 1 else q) + 1;
    m
  }

  /**
   * The report's window test: the entry's day, taken at 00:00, is not before
   * the week start and not after 23:59:59 six days later.
   */
  predicate InWeek(weekStart: Instant, t: Instant)
    ensures InWeek(weekStart, t) ==> weekStart <= t < Midnight(weekStart) + 7 * SecondsPerDay
  {
    weekStart <= Midnight(t) <= Midnight(weekStart) + 6 * SecondsPerDay + (SecondsPerDay - 1)
  }

  /** With a week start at midnight the window is exactly its seven calendar days. */
  lemma InWeekIsSevenDays(weekStart: Instant, t: Instant)
    requires weekStart % SecondsPerDay == 0
    ensures InWeek(weekStart, t) <==> Day(weekStart) <= Day(t) <= Day(weekStart) + 6
  {
  }

  /**
   * Before a date is picked the week starts at the moment the screen opened,
   * not at a midnight, and then nothing from that day is in the window.
   */
  lemma UnsnappedStartExcludesItsOwnDay(weekStart: Instant, t: Instant)
    requires weekStart % SecondsPerDay != 0
    requires Day(t) == Day(weekStart)
    ensures !InWeek(weekStart, t)
  {
  }

  /** The interval from an IN to an OUT, named after the IN's weekday. */
  function Worked(inTime: Instant, outTime: Instant): (x: EmployeeHours)
    ensures x.inTime == inTime && x.day == DayName(inTime)
    ensures outTime >= inTime ==> Seconds(x) == outTime - inTime
  {
    var hms := Decompose(outTime - inTime);
    assert outTime >= inTime ==> Recompose(hms) == outTime - inTime by {
      if outTime >= inTime { DecomposeRecomposes(outTime - inTime); }
    }
    EmployeeHours(hms.0, hms.1, hms.2, inTime, DayName(inTime))
  }

  /** The seconds an entry stands for, as the day total adds them up. */
  function Seconds(x: EmployeeHours): int {
    x.totalHours * 3600 + x.totalMinutes * 60 + x.totalSeconds
  }

  /**
   * The pairing the report performs, from `pending` (the IN waiting for its
   * OUT): entries outside the window are skipped; an IN replaces the pending
   * one; an OUT with a pending IN closes an interval; anything else is ignored.
   */
  function PairFrom(h: seq<HistEntry>, weekStart: Instant, pending: Option<Instant>): (r: seq<EmployeeHours>)
    ensures |r| <= (|h| + (if pending.Some? then 1 else 0)) / 2
  {
    if h == [] then []
    else
      var e := h[0];
      if !InWeek(weekStart, e.instPtg) then PairFrom(h[1..], weekStart, pending)
      else if e.tPtg == InKind then PairFrom(h[1..], weekStart, Some(e.instPtg))
      else if e.tPtg == OutKind && pending.Some? then
        [Worked(pending.value, e.instPtg)] + PairFrom(h[1..], weekStart, None)
      else PairFrom(h[1..], weekStart, pending)
  }

  /** The number of OUT entries inside the window. */
  function OutsInWeek(h: seq<HistEntry>, weekStart: Instant): nat {
    if h == [] then 0
    else (if h[0].tPtg == OutKind && InWeek(weekStart, h[0].instPtg) then 1 else 0) + OutsInWeek(h[1..], weekStart)
  }

  /** Every interval is closed by a distinct OUT of the week. */
  lemma {:induction false} AtMostOneIntervalPerOut(h: seq<HistEntry>, weekStart: Instant, pending: Option<Instant>)
    ensures |PairFrom(h, weekStart, pending)| <= OutsInWeek(h, weekStart)
  {
    if h != [] {
      AtMostOneIntervalPerOut(h[1..], weekStart, Some(h[0].instPtg));
      AtMostOneIntervalPerOut(h[1..], weekStart, pending);
      AtMostOneIntervalPerOut(h[1..], weekStart, None);
    }
  }

  /**
   * Every interval starts at an IN of the week (or at the IN already pending)
   * and is named after that IN's weekday.
   */
  lemma {:induction false} IntervalsStartAtIns(h: seq<HistEntry>, weekStart: Instant, pending: Option<Instant>, x: EmployeeHours)
    requires x in PairFrom(h, weekStart, pending)
    ensures x.day == DayName(x.inTime)
    ensures (pending.Some? && x.inTime == pending.value)
            || exists j :: 0 <= j < |h| && h[j].tPtg == InKind && InWeek(weekStart, h[j].instPtg) && h[j].instPtg == x.inTime
  {
    var e := h[0];
    if !InWeek(weekStart, e.instPtg) {
      IntervalsStartAtIns(h[1..], weekStart, pending, x);
    } else if e.tPtg == InKind {
      IntervalsStartAtIns(h[1..], weekStart, Some(e.instPtg), x);
      if x.inTime != e.instPtg {
        var j :| 0 <= j < |h[1..]| && h[1..][j].tPtg == InKind && InWeek(weekStart, h[1..][j].instPtg) && h[1..][j].instPtg == x.inTime;
        assert h[j + 1] == h[1..][j];
      }
    } else if e.tPtg == OutKind && pending.Some? {
      if x != Worked(pending.value, e.instPtg) {
        IntervalsStartAtIns(h[1..], weekStart, None, x);
        var j :| 0 <= j < |h[1..]| && h[1..][j].tPtg == InKind && InWeek(weekStart, h[1..][j].instPtg) && h[1..][j].instPtg == x.inTime;
        assert h[j + 1] == h[1..][j];
      }
    } else {
      IntervalsStartAtIns(h[1..], weekStart, pending, x);
      if !(pending.Some? && x.inTime == pending.value) {
        var j :| 0 <= j < |h[1..]| && h[1..][j].tPtg == InKind && InWeek(weekStart, h[1..][j].instPtg) && h[1..][j].instPtg == x.inTime;
        assert h[j + 1] == h[1..][j];
      }
    }
  }

  /**
   * The automatic punch-out stores its type as "Out", which is not "OUT":
   * a history whose only exits are automatic ones yields no interval at all.
   */
  lemma {:induction false} ForcedOutsNeverClose(h: seq<HistEntry>, weekStart: Instant, pending: Option<Instant>)
    requires forall j :: 0 <= j < |h| ==> h[j].tPtg != OutKind
    ensures PairFrom(h, weekStart, pending) == []
  {
    if h != [] {
      ForcedOutsNeverClose(h[1..], weekStart, Some(h[0].instPtg));
      ForcedOutsNeverClose(h[1..], weekStart, pending);
    }
  }

  /** Every entry lies in the week, and the types alternate IN, OUT, IN, ... from the first. */
  predicate AlternatesInWeek(h: seq<HistEntry>, weekStart: Instant) {
    forall i :: 0 <= i < |h| ==>
      InWeek(weekStart, h[i].instPtg) && h[i].tPtg == (if i % 2 == 0 then InKind else OutKind)
  }

  /**
   * In an alternating week each OUT closes the IN just before it: the
   * intervals are exactly the consecutive (IN, OUT) pairs, and a trailing
   * IN yields nothing.
   */
  lemma {:induction false} AlternatingHistoryPairsUp(h: seq<HistEntry>, weekStart: Instant)
    requires AlternatesInWeek(h, weekStart)
    ensures |PairFrom(h, weekStart, None)| == |h| / 2
    ensures forall j :: 0 <= j < |h| / 2 ==>
      PairFrom(h, weekStart, None)[j] == Worked(h[2 * j].instPtg, h[2 * j + 1].instPtg)
  {
    if |h| == 1 {
      assert PairFrom(h, weekStart, None) == PairFrom(h[1..], weekStart, Some(h[0].instPtg));
    } else if |h| >= 2 {
      var t := h[2..];
      forall i | 0 <= i < |t|
        ensures InWeek(weekStart, t[i].instPtg) && t[i].tPtg == (if i % 2 == 0 then InKind else OutKind)
      {
        assert t[i] == h[i + 2] && (i + 2) % 2 == i % 2;
      }
      AlternatingHistoryPairsUp(t, weekStart);
      assert h[1..][1..] == t;
      var a := Worked(h[0].instPtg, h[1].instPtg);
      var r := PairFrom(h, weekStart, None);
      assert h[0].tPtg == InKind && InWeek(weekStart, h[0].instPtg);
      assert h[1..][0] == h[1] && h[1].tPtg == OutKind && InWeek(weekStart, h[1].instPtg);
      assert r == PairFrom(h[1..], weekStart, Some(h[0].instPtg));
      assert r == [a] + PairFrom(t, weekStart, None);
      forall j | 0 <= j < |h| / 2
        ensures r[j] == Worked(h[2 * j].instPtg, h[2 * j + 1].instPtg)
      {
        if j > 0 {
          assert r[j] == PairFrom(t, weekStart, None)[j - 1];
          assert t[2 * (j - 1)] == h[2 * j] && t[2 * (j - 1) + 1] == h[2 * j + 1];
        }
      }
    }
  }

  /** An IN at the end of the history, in the week or not, adds no interval. */
  lemma {:induction false} TrailingInAddsNothing(h: seq<HistEntry>, weekStart: Instant, pending: Option<Instant>, t: Instant)
    ensures PairFrom(h + [HistEntry(InKind, t)], weekStart, pending) == PairFrom(h, weekStart, pending)
  {
    var last := HistEntry(InKind, t);
    if h == [] {
      assert [last][1..] == [];
    } else {
      var e := h[0];
      assert (h + [last])[0] == e && (h + [last])[1..] == h[1..] + [last];
      var next := if !InWeek(weekStart, e.instPtg) then pending
                  else if e.tPtg == InKind then Some(e.instPtg)
                  else if e.tPtg == OutKind && pending.Some? then None
                  else pending;
      TrailingInAddsNothing(h[1..], weekStart, next, t);
    }
  }

  /** An OUT with no IN pending closes nothing and leaves the rest of the pairing as it was. */
  lemma OrphanOutAddsNothing(h: seq<HistEntry>, weekStart: Instant, t: Instant)
    ensures PairFrom([HistEntry(OutKind, t)] + h, weekStart, None) == PairFrom(h, weekStart, None)
  {
    assert ([HistEntry(OutKind, t)] + h)[1..] == h;
  }

  /** Of two INs in a row only the later one counts: the earlier is dropped, not closed. */
  lemma LaterInReplacesEarlier(weekStart: Instant, in1: Instant, in2: Instant, out: Instant)
    requires InWeek(weekStart, in1) && InWeek(weekStart, in2) && InWeek(weekStart, out)
    ensures PairFrom([HistEntry(InKind, in1), HistEntry(InKind, in2), HistEntry(OutKind, out)], weekStart, None)
            == [Worked(in2, out)]
  {
    var h := [HistEntry(InKind, in1), HistEntry(InKind, in2), HistEntry(OutKind, out)];
    var t := [HistEntry(OutKind, out)];
    assert h[1..] == [HistEntry(InKind, in2)] + t;
    assert t[1..] == [];
    assert PairFrom(t, weekStart, Some(in2)) == [Worked(in2, out)];
    assert PairFrom(h[1..], weekStart, Some(in1)) == PairFrom(t, weekStart, Some(in2));
  }

  /** `groupByDay`: entries keyed by their day name, each list in report order. */
  function GroupByDay(data: seq<EmployeeHours>): (g: map<string, seq<EmployeeHours>>)
    ensures forall d :: d in g <==> exists x :: x in data && x.day == d
  {
    if data == [] then map[]
    else
      var x := data[|data| - 1];
      var g := GroupByDay(data[..|data| - 1]);
      assert forall y :: y in data <==> y in data[..|data| - 1] || y == x by {
        assert data == data[..|data| - 1] + [x];
      }
      g[x.day := Lookup(g, x.day) + [x]]
  }

  /** `groupedData[day] || []`. */
  function Lookup(g: map<string, seq<EmployeeHours>>, day: string): seq<EmployeeHours> {
    if day in g then g[day] else []
  }

  /** The entries of one day, in report order: the reference the grouping is checked against. */
  function OfDay(data: seq<EmployeeHours>, day: string): (r: seq<EmployeeHours>)
    ensures forall x :: x in r <==> x in data && x.day == day
  {
    if data == [] then []
    else (if data[0].day == day then [data[0]] else []) + OfDay(data[1..], day)
  }

  lemma {:induction false} OfDayAppend(data: seq<EmployeeHours>, x: EmployeeHours, day: string)
    ensures OfDay(data + [x], day) == OfDay(data, day) + (if x.day == day then [x] else [])
  {
    if data == [] {
      assert [x][1..] == [];
    } else {
      assert (data + [x])[0] == data[0];
      assert (data + [x])[1..] == data[1..] + [x];
      OfDayAppend(data[1..], x, day);
    }
  }

  /** Each day's group holds exactly that day's entries, in their original order. */
  lemma {:induction false} GroupByDayIsFilter(data: seq<EmployeeHours>, day: string)
    ensures Lookup(GroupByDay(data), day) == OfDay(data, day)
  {
    if data != [] {
      var init, x := data[..|data| - 1], data[|data| - 1];
      assert data == init + [x];
      GroupByDayIsFilter(init, day);
      OfDayAppend(init, x, day);
    }
  }

  /** The reduce in `renderDayItem`: the seconds of all of a day's entries. */
  function DayTotal(entries: seq<EmployeeHours>): (total: int)
    ensures (forall i :: 0 <= i < |entries| ==> Seconds(entries[i]) >= 0) ==> total >= 0
  {
    if entries == [] then 0 else DayTotal(entries[..|entries| - 1]) + Seconds(entries[|entries| - 1])
  }

  /** The day total is additive over the report's list. */
  lemma {:induction false} DayTotalAppend(a: seq<EmployeeHours>, b: seq<EmployeeHours>)
    ensures DayTotal(a + b) == DayTotal(a) + DayTotal(b)
  {
    if b != [] {
      assert (a + b)[..|a + b| - 1] == a + b[..|b| - 1];
      DayTotalAppend(a, b[..|b| - 1]);
    } else {
      assert a + b == a;
    }
  }

  /**
   * A day's heading: nothing for a day without entries (the screen renders
   * an empty text), otherwise hours, minutes and seconds of the day total,
   * computed as for one entry; for a non-negative total they add back up
   * to the total.
   */
  function DayHeading(entries: seq<EmployeeHours>): (heading: Option<(int, int, int)>)
    ensures heading.None? <==> entries == []
    ensures heading.Some? && DayTotal(entries) >= 0 ==>
      Recompose(heading.value) == DayTotal(entries) && 0 <= heading.value.1 < 60 && 0 <= heading.value.2 < 60
  {
    if entries == [] then None
    else
      var total := DayTotal(entries);
      assert total >= 0 ==> Recompose(Decompose(total)) == total by {
        if total >= 0 { DecomposeRecomposes(total); }
      }
      Some(Decompose(total))
  }

  /** Day 4 of the epoch, a Monday, at 00:00. */
  const Monday4: Instant := 4 * SecondsPerDay

  /** The history of a Monday with 08:00-12:00 and 13:00-17:30. */
  function MondayHistory(): seq<HistEntry> {
    [HistEntry(InKind, Monday4 + 8 * 3600), HistEntry(OutKind, Monday4 + 12 * 3600),
     HistEntry(InKind, Monday4 + 13 * 3600), HistEntry(OutKind, Monday4 + 17 * 3600 + 1800)]
  }

  lemma MondayPairs()
    ensures PairFrom(MondayHistory(), Monday4, None)
            == [Worked(Monday4 + 8 * 3600, Monday4 + 12 * 3600), Worked(Monday4 + 13 * 3600, Monday4 + 17 * 3600 + 1800)]
  {
    var h := MondayHistory();
    forall j | 0 <= j < |h| ensures InWeek(Monday4, h[j].instPtg) {
      InWeekIsSevenDays(Monday4, h[j].instPtg);
    }
    var a, b := Worked(Monday4 + 8 * 3600, Monday4 + 12 * 3600), Worked(Monday4 + 13 * 3600, Monday4 + 17 * 3600 + 1800);
    assert h[3..][0] == h[3] && h[3..][1..] == [];
    assert PairFrom(h[3..], Monday4, Some(h[2].instPtg)) == [b];
    assert h[2..][0] == h[2] && h[2..][1..] == h[3..];
    assert PairFrom(h[2..], Monday4, None) == [b];
    assert h[1..][0] == h[1] && h[1..][1..] == h[2..];
    assert PairFrom(h[1..], Monday4, Some(h[0].instPtg)) == [a, b];
  }

  /** Two entries with the same day name form that day's whole group. */
  lemma SameDayPairGroups(a: EmployeeHours, b: EmployeeHours)
    requires a.day == b.day
    ensures Lookup(GroupByDay([a, b]), a.day) == [a, b]
  {
  }

  lemma MondayTotal()
    ensures DayTotal([Worked(Monday4 + 8 * 3600, Monday4 + 12 * 3600),
                      Worked(Monday4 + 13 * 3600, Monday4 + 17 * 3600 + 1800)]) == 8 * 3600 + 1800
  {
    var a, b := Worked(Monday4 + 8 * 3600, Monday4 + 12 * 3600), Worked(Monday4 + 13 * 3600, Monday4 + 17 * 3600 + 1800);
    assert [a, b][..1] == [a] && [a][..0] == [];
    assert DayTotal([a]) == Seconds(a) == 4 * 3600;
  }

  lemma MondayHeading()
    ensures DayHeading([Worked(Monday4 + 8 * 3600, Monday4 + 12 * 3600),
                        Worked(Monday4 + 13 * 3600, Monday4 + 17 * 3600 + 1800)]) == Some((8, 30, 0))
  {
    MondayTotal();
    assert Decompose(8 * 3600 + 1800) == (8, 30, 0);
  }

  /** The Monday reads "Lundi 8h 30m 0s": both intervals fall under Lundi and the heading sums them. */
  lemma MondayScenario()
    ensures var list := PairFrom(MondayHistory(), Monday4, None);
            Lookup(GroupByDay(list), "Lundi") == list && DayHeading(list) == Some((8, 30, 0))
  {
    var a, b := Worked(Monday4 + 8 * 3600, Monday4 + 12 * 3600), Worked(Monday4 + 13 * 3600, Monday4 + 17 * 3600 + 1800);
    MondayPairs();
    assert Weekday(Monday4 + 8 * 3600) == 1 && Weekday(Monday4 + 13 * 3600) == 1;
    SameDayPairGroups(a, b);
    MondayHeading();
  }

  /** The report screen's state. */
  class ReportScreen {
    var idEmp: Option<int>
    var selectedWeekStart: Instant
    var employeeHours: seq<EmployeeHours>

    /** The week start begins as the moment the screen opens, unsnapped. */
    constructor (now: Instant)
      ensures idEmp.None? && selectedWeekStart == now && employeeHours == []
    {
      idEmp := None;
      selectedWeekStart := now;
      employeeHours := [];
    }

    /** `handleWeekSelection`: a dismissed picker changes nothing. */
    method HandleWeekSelection(selected: Option<Instant>)
      modifies this
      ensures selected.Some? ==> selectedWeekStart == WeekStart(selected.value)
      ensures selected.None? ==> selectedWeekStart == old(selectedWeekStart)
      ensures idEmp == old(idEmp) && employeeHours == old(employeeHours)
    {
      if selected.Some? {
        selectedWeekStart := WeekStart(selected.value);
      }
    }

    /**
     * `loadWorkHours`: `profile` is the answer of the profile request, `None`
     * when it throws, in which case the handler's catch leaves everything as
     * it was. Otherwise the employee id is stored, but the test that follows
     * reads the id from before this call, so the first load after opening
     * the screen shows nothing; `fetched` is the server's history for that
     * earlier id, `None` when that request throws.
     */
    method LoadWorkHours(profile: Option<int>, fetched: Option<seq<HistEntry>>)
      modifies this
      ensures selectedWeekStart == old(selectedWeekStart)
      ensures profile.None? ==> idEmp == old(idEmp) && employeeHours == old(employeeHours)
      ensures profile.Some? ==> idEmp == profile
      ensures profile.Some? && old(idEmp).Some? && fetched.Some? ==>
        employeeHours == PairFrom(fetched.value, selectedWeekStart, None)
      ensures !(profile.Some? && old(idEmp).Some? && fetched.Some?) ==> employeeHours == old(employeeHours)
    {
      if profile.None? {
        return;
      }
      var captured := idEmp;
      idEmp := profile;
      if captured.Some? && fetched.Some? {
        var history := fetched.value;
        var list: seq<EmployeeHours> := [];
        var inTime: Option<Instant> := None;
        var i := 0;
        while i < |history|
          invariant 0 <= i <= |history|
          invariant list + PairFrom(history[i..], selectedWeekStart, inTime) == PairFrom(history, selectedWeekStart, None)
        {
          var entry := history[i];
          assert history[i..][0] == entry && history[i..][1..] == history[i + 1..];
          if InWeek(selectedWeekStart, entry.instPtg) {
            if entry.tPtg == InKind {
              inTime := Some(entry.instPtg);
            } else if entry.tPtg == OutKind && inTime.Some? {
              list := list + [Worked(inTime.value, entry.instPtg)];
              inTime := None;
            }
          }
          i := i + 1;
        }
        assert history[i..] == [];
        employeeHours := list;
      }
    }
  }
}
