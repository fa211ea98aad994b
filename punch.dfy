/**
 * The punch screen: the displayed state (flag, punch time, today's list),
 * loading it from storage, the manual IN/OUT handlers and what they save.
 * Its keys are namespaced by the e-mail the screen was opened with.
 */
module Punch {
  import opened Wrappers
  import opened Clock
  import opened Storage

  /** A position fix: longitude, latitude and an accuracy that may be missing. */
  datatype Fix = Fix(longitude: real, latitude: real, accuracy: Option<real>)

  /** `loadPunchData`'s reading of the stored flag. */
  function DecodeFlag(stored: Option<Value>): (punchedIn: bool)
    ensures punchedIn <==> stored == Some(Text("true"))
  {
    if stored == Some(Text("true")) || stored == None then stored == Some(Text("true")) else false
  }

  /** The stored records whose calendar day is that of `date`, in stored order. */
  function OnDay(h: seq<PunchRecord>, date: Instant): (r: seq<PunchRecord>)
    ensures |r| <= |h|
    ensures forall x :: x in r <==> x in h && Day(x.time) == Day(date)
  {
    if h == [] then []
    else (if Day(h[0].time) == Day(date) then [h[0]] else []) + OnDay(h[1..], date)
  }

  /** The filter keeps relative order: filtering a concatenation concatenates the filtered parts. */
  lemma {:induction false} OnDayKeepsOrder(a: seq<PunchRecord>, b: seq<PunchRecord>, date: Instant)
    ensures OnDay(a + b, date) == OnDay(a, date) + OnDay(b, date)
  {
    if a != [] {
      assert (a + b)[0] == a[0];
      assert (a + b)[1..] == a[1..] + b;
      OnDayKeepsOrder(a[1..], b, date);
    } else {
      assert a + b == b;
    }
  }

  /** The record a manual punch saves. */
  function ManualRecord(punchIn: bool, t: Instant, fix: Fix, placeName: string): (r: PunchRecord)
    ensures r.kind == (if punchIn then InKind else OutKind) && r.time == t && r.placeName == placeName
    ensures r.longitude == Some(fix.longitude) && r.latitude == Some(fix.latitude)
    ensures r.precision == fix.accuracy
  {
    PunchRecord(if punchIn then InKind else OutKind, t, placeName,
                Some(fix.longitude), Some(fix.latitude), fix.accuracy)
  }

  /**
   * Storage effect of `savePunchData`: the flag as the text of `punchIn`,
   * the punch time, and the same list under both the pending key and the
   * today key, whatever the pending key held before.
   */
  function SavedKv(kv: Kv, email: string, h: seq<PunchRecord>, punchIn: bool, saveTime: Instant): (r: Kv)
    ensures RecordsAt(r, User(email, PunchHistory)) == h
    ensures RecordsAt(r, User(email, PunchHistoryToday)) == h
    ensures Get(r, User(email, IsPunchedIn)) == Some(Text(if punchIn then "true" else "false"))
    ensures Get(r, User(email, PunchTime)) == Some(Formatted(saveTime))
    ensures SameExcept(kv, r, {User(email, IsPunchedIn), User(email, PunchTime),
                               User(email, PunchHistory), User(email, PunchHistoryToday)})
  {
    kv[User(email, IsPunchedIn) := Text(if punchIn then "true" else "false")]
      [User(email, PunchTime) := Formatted(saveTime)]
      [User(email, PunchHistory) := Punches(h)]
      [User(email, PunchHistoryToday) := Punches(h)]
  }

  /**
   * A manual punch replaces the pending buffer: a record that was pending
   * but is not on screen is gone afterwards, unsent.
   */
  lemma ManualPunchDropsOffScreenPending(kv: Kv, email: string, shown: seq<PunchRecord>,
                                         rec: PunchRecord, x: PunchRecord, punchIn: bool, saveTime: Instant)
    requires x in RecordsAt(kv, User(email, PunchHistory))
    requires x !in shown && x != rec
    ensures x !in RecordsAt(SavedKv(kv, email, shown + [rec], punchIn, saveTime), User(email, PunchHistory))
  {
  }

  /** The on-screen list alternates IN, OUT, IN, ... and the flag says whether it ends on an IN. */
  predicate Alternating(h: seq<PunchRecord>, punchedIn: bool) {
    (forall i :: 0 <= i < |h| ==> h[i].kind == (if i % 2 == 0 then InKind else OutKind))
    && punchedIn == (|h| % 2 == 1)
  }

  predicate NewestFirst(s: seq<PunchRecord>) {
    forall i, j :: 0 <= i < j < |s| ==> s[i].time >= s[j].time
  }

  /** Whatever is no older than the head of a newest-first list is no older than all of it. */
  lemma HeadIsNewest(x: PunchRecord, s: seq<PunchRecord>)
    requires NewestFirst(s)
    requires s == [] || s[0].time <= x.time
    ensures forall y :: y in s ==> y.time <= x.time
  {
  }

  /** A record no older than anything in a newest-first list can go in front of it. */
  lemma PrependNewest(y: PunchRecord, s: seq<PunchRecord>)
    requires NewestFirst(s)
    requires forall z :: z in s ==> z.time <= y.time
    ensures NewestFirst([y] + s)
  {
  }

  /** Puts `x` before the first record that is not newer than it. */
  function InsertNewestFirst(x: PunchRecord, s: seq<PunchRecord>): (r: seq<PunchRecord>)
    requires NewestFirst(s)
    ensures NewestFirst(r)
    ensures multiset(r) == multiset(s) + multiset{x}
  {
    if s == [] || s[0].time <= x.time then
      HeadIsNewest(x, s);
      PrependNewest(x, s);
      [x] + s
    else
      assert s == [s[0]] + s[1..];
      var rest := InsertNewestFirst(x, s[1..]);
      HeadIsNewest(s[0], s);
      assert forall z :: z in rest ==> z.time <= s[0].time by {
        forall z | z in rest ensures z.time <= s[0].time {
          assert z in multiset(rest);
          if z != x {
            assert z in multiset(s[1..]);
            assert z in s;
          }
        }
      }
      PrependNewest(s[0], rest);
      [s[0]] + rest
  }

  /** The display order of the history list: newest first, nothing added or lost. */
  function SortNewestFirst(h: seq<PunchRecord>): (r: seq<PunchRecord>)
    ensures NewestFirst(r)
    ensures multiset(r) == multiset(h)
  {
    if h == [] then []
    else
      assert h == [h[0]] + h[1..];
      InsertNewestFirst(h[0], SortNewestFirst(h[1..]))
  }

  class PunchScreen {
    const store: Store
    const userEmail: string
    var isPunchedIn: bool
    var punchTime: Option<Instant>
    var history: seq<PunchRecord>

    constructor (store: Store, userEmail: string)
      ensures this.store == store && this.userEmail == userEmail
      ensures !isPunchedIn && punchTime.None? && history == []
    {
      this.store := store;
      this.userEmail := userEmail;
      isPunchedIn := false;
      punchTime := None;
      history := [];
    }

    /** Which of the two buttons can be pressed: IN only while punched out, OUT only while punched in. */
    function EnabledButtons(): (enabled: (bool, bool))
      reads this
      ensures enabled.0 <==> !isPunchedIn
      ensures enabled.1 <==> isPunchedIn
      ensures enabled.0 != enabled.1
    {
      (!isPunchedIn, isPunchedIn)
    }

    /** The list as rendered. */
    function Displayed(): (shown: seq<PunchRecord>)
      reads this
      ensures NewestFirst(shown) && multiset(shown) == multiset(history)
    {
      SortNewestFirst(history)
    }

    /**
     * `loadPunchData`: when the profile request succeeds, the flag is
     * decoded, a stored punch time is shown, and a stored today list is
     * filtered to the calendar day of `date`.
     */
    method LoadPunchData(date: Instant, profileLoaded: bool)
      modifies this
      ensures store.kv == old(store.kv)
      ensures !profileLoaded ==>
        isPunchedIn == old(isPunchedIn) && punchTime == old(punchTime) && history == old(history)
      ensures profileLoaded ==> isPunchedIn == DecodeFlag(Get(store.kv, User(userEmail, IsPunchedIn)))
      ensures profileLoaded ==>
        (var v := Get(store.kv, User(userEmail, PunchTime));
         punchTime == if v.Some? && v.value.Formatted? then Some(v.value.t) else old(punchTime))
      ensures profileLoaded ==>
        history == (if User(userEmail, PunchHistoryToday) in store.kv
                    then OnDay(RecordsAt(store.kv, User(userEmail, PunchHistoryToday)), date)
                    else old(history))
    {
      if !profileLoaded {
        return;
      }
      var storedIsPunchedIn := store.GetItem(User(userEmail, IsPunchedIn));
      var storedPunchTime := store.GetItem(User(userEmail, PunchTime));
      var storedHistory := store.GetItem(User(userEmail, PunchHistoryToday));
      isPunchedIn := DecodeFlag(storedIsPunchedIn);
      if storedPunchTime.Some? && storedPunchTime.value.Formatted? {
        punchTime := Some(storedPunchTime.value.t);
      }
      if storedHistory.Some? {
        var parsed := if storedHistory.value.Punches? then storedHistory.value.records else [];
        history := OnDay(parsed, date);
      }
    }

    /** `savePunchData`: the on-screen list plus one record, written to four keys. */
    method SavePunchData(punchIn: bool, saveTime: Instant, fix: Fix, placeName: string)
      modifies this, store
      ensures history == old(history) + [ManualRecord(punchIn, saveTime, fix, placeName)]
      ensures store.kv == SavedKv(old(store.kv), userEmail, history, punchIn, saveTime)
      ensures isPunchedIn == old(isPunchedIn) && punchTime == old(punchTime)
    {
      var newHistory := history + [ManualRecord(punchIn, saveTime, fix, placeName)];
      store.SetItem(User(userEmail, IsPunchedIn), Text(if punchIn then "true" else "false"));
      store.SetItem(User(userEmail, PunchTime), Formatted(saveTime));
      store.SetItem(User(userEmail, PunchHistory), Punches(newHistory));
      store.SetItem(User(userEmail, PunchHistoryToday), Punches(newHistory));
      history := newHistory;
    }

    /**
     * `handlePunchIn`: the flag and the punch time change on screen at once;
     * storage is written only if a position was obtained, and then the
     * stored punch time is the click time, not the save time.
     */
    method HandlePunchIn(clickTime: Instant, fix: Option<Fix>, placeName: string, saveTime: Instant)
      modifies this, store
      ensures isPunchedIn && punchTime == Some(clickTime)
      ensures fix.None? ==> history == old(history) && store.kv == old(store.kv)
      ensures fix.Some? ==>
        history == old(history) + [ManualRecord(true, saveTime, fix.value, placeName)]
        && store.kv == SavedKv(old(store.kv), userEmail, history, true, saveTime)
                         [User(userEmail, PunchTime) := Formatted(clickTime)]
      ensures old(Alternating(history, isPunchedIn)) && old(EnabledButtons().0) && fix.Some? ==>
        Alternating(history, isPunchedIn)
      ensures old(Alternating(history, isPunchedIn)) && old(!isPunchedIn) && fix.None? ==>
        !Alternating(history, isPunchedIn)
    {
      isPunchedIn := true;
      punchTime := Some(clickTime);
      if fix.Some? {
        SavePunchData(true, saveTime, fix.value, placeName);
        store.SetItem(User(userEmail, PunchTime), Formatted(clickTime));
      }
    }

    /**
     * `handlePunchOut`: as for IN, with an OUT record, the save time as the
     * stored punch time, and the global item `punch` set to "out".
     */
    method HandlePunchOut(clickTime: Instant, fix: Option<Fix>, placeName: string, saveTime: Instant)
      modifies this, store
      ensures !isPunchedIn && punchTime == Some(clickTime)
      ensures fix.None? ==> history == old(history) && store.kv == old(store.kv)
      ensures fix.Some? ==>
        history == old(history) + [ManualRecord(false, saveTime, fix.value, placeName)]
        && store.kv == SavedKv(old(store.kv), userEmail, history, false, saveTime)
                         [Global(Punch) := Text("out")]
      ensures old(Alternating(history, isPunchedIn)) && old(EnabledButtons().1) && fix.Some? ==>
        Alternating(history, isPunchedIn)
      ensures old(Alternating(history, isPunchedIn)) && old(isPunchedIn) && fix.None? ==>
        !Alternating(history, isPunchedIn)
    {
      isPunchedIn := false;
      punchTime := Some(clickTime);
      if fix.Some? {
        SavePunchData(false, saveTime, fix.value, placeName);
        store.SetItem(Global(Punch), Text("out"));
      }
    }
  }

  /**
   * Without a position the IN handler flips the flag but saves nothing, so
   * the OUT button is enabled over a history that already ends with an OUT:
   * the OUT saved next is the second in a row, and no flag makes the
   * history alternate again.
   */
  lemma NoFixLeadsToTwoOuts(h: seq<PunchRecord>, t: Instant, fix: Fix, placeName: string)
    requires Alternating(h, false) && |h| > 0
    ensures var h' := h + [ManualRecord(false, t, fix, placeName)];
            h'[|h| - 1].kind == OutKind && h'[|h|].kind == OutKind
            && !Alternating(h', true) && !Alternating(h', false)
  {
  }
}
