/**
 * The synchronisation half of the background task: the sync-window rule,
 * the mapping of pending punches to the upload schema, and what a tick
 * does to the pending buffer and the last-sync stamp.
 */
module Sync {
  import opened Wrappers
  import opened Clock
  import opened Storage
  import opened App

  /** The reason code every uploaded punch carries. */
  const ManualReason: string := "Pointage manuel"

  /** One entry of the upload payload (`listePtgsBruts`). */
  datatype PtgBrut = PtgBrut(
    instPtg: Instant,
    tPtg: string,
    longitude: real,
    latitude: real,
    precision: real,
    cMotifPtg: string)

  /** `x ? x : 0` for an optional coordinate: absent and zero both become 0. */
  function OrZero(c: Option<real>): (x: real)
    ensures c.Some? && c.value != 0.0 ==> x == c.value
    ensures c.None? || c.value == 0.0 ==> x == 0.0
  {
    if c.Some? && c.value != 0.0 then c.value else 0.0
  }

  function ToPtgBrut(p: PunchRecord): (b: PtgBrut)
    ensures b.instPtg == p.time && b.tPtg == p.kind && b.cMotifPtg == ManualReason
    ensures b.longitude == OrZero(p.longitude) && b.latitude == OrZero(p.latitude)
    ensures b.precision == OrZero(p.precision)
  {
    PtgBrut(p.time, p.kind, OrZero(p.longitude), OrZero(p.latitude), OrZero(p.precision), ManualReason)
  }

  /** The upload payload: one entry per pending punch, in buffer order. */
  function Payload(rs: seq<PunchRecord>): (ps: seq<PtgBrut>)
    ensures |ps| == |rs|
    ensures forall i :: 0 <= i < |rs| ==> ps[i] == ToPtgBrut(rs[i])
  {
    if rs == [] then [] else [ToPtgBrut(rs[0])] + Payload(rs[1..])
  }

  /** 09:50:00 and 18:00:00 of the day of `now`. */
  function MorningCheckpoint(now: Instant): Instant {
    At(now, 9, 50, 0)
  }

  function EveningCheckpoint(now: Instant): Instant {
    At(now, 18, 0, 0)
  }

  /**
   * A sync window is open when the last sync was on another calendar day,
   * or when a checkpoint of today lies strictly between the last sync and now.
   */
  predicate SyncEligible(last: Instant, now: Instant)
    ensures Day(last) != Day(now) ==> SyncEligible(last, now)
    ensures Day(last) == Day(now) && now <= last ==> !SyncEligible(last, now)
  {
    Day(last) != Day(now)
    || (now > EveningCheckpoint(now) && last < EveningCheckpoint(now))
    || (now > MorningCheckpoint(now) && last < MorningCheckpoint(now))
  }

  /** The stored last-sync instant; the epoch when none is stored. */
  function LastSync(kv: Kv): Instant {
    StampAt(kv, User(Login(kv), LastTimeSync)).GetOr(0)
  }

  /** A tick submits when the window is open, the network is up and a buffer is stored (even an empty one). */
  predicate WillSubmit(kv: Kv, now: Instant, connected: bool) {
    SyncEligible(LastSync(kv), now) && connected && User(Login(kv), PunchHistory) in kv
  }

  /** What a tick submits, if anything. */
  function SyncRequest(kv: Kv, now: Instant, connected: bool): (req: Option<seq<PtgBrut>>)
    ensures req.Some? <==> WillSubmit(kv, now, connected)
    ensures req.Some? ==> req.value == Payload(Pending(kv, Login(kv)))
  {
    if WillSubmit(kv, now, connected) then Some(Payload(Pending(kv, Login(kv)))) else None
  }

  /**
   * Storage effect of the sync half of a tick. Outside the window nothing
   * changes. A submission that is accepted removes the buffer and stamps
   * the window; one that fails changes nothing. With nothing to send or no
   * network the buffer stays and the window is still stamped.
   */
  function AfterSync(kv: Kv, now: Instant, connected: bool, accepted: bool): (r: Kv)
    ensures Login(r) == Login(kv)
    ensures !SyncEligible(LastSync(kv), now) ==> r == kv
    ensures WillSubmit(kv, now, connected) && !accepted ==> r == kv
    ensures WillSubmit(kv, now, connected) && accepted ==>
      User(Login(kv), PunchHistory) !in r && LastSync(r) == now
      && SameExcept(kv, r, {User(Login(kv), PunchHistory), User(Login(kv), LastTimeSync)})
    ensures SyncEligible(LastSync(kv), now) && !WillSubmit(kv, now, connected) ==>
      LastSync(r) == now && SameExcept(kv, r, {User(Login(kv), LastTimeSync)})
  {
    var l := Login(kv);
    if !SyncEligible(LastSync(kv), now) then kv
    else if connected && User(l, PunchHistory) in kv then
      if accepted then (kv - {User(l, PunchHistory)})[User(l, LastTimeSync) := Stamp(now)] else kv
    else kv[User(l, LastTimeSync) := Stamp(now)]
  }

  /** Whether a tick stamped the window. */
  predicate Stamped(kv: Kv, now: Instant, connected: bool, accepted: bool) {
    SyncEligible(LastSync(kv), now) && (accepted || !WillSubmit(kv, now, connected))
  }

  /** Stamping at `now` closes the window for `now` itself. */
  lemma NotEligibleRightAfterStamp(now: Instant)
    ensures !SyncEligible(now, now)
  {
  }

  /** An open window stays open until it is stamped, however long the tick is delayed. */
  lemma EligibilityPersists(last: Instant, now: Instant, later: Instant)
    requires last <= now <= later
    requires SyncEligible(last, now)
    ensures SyncEligible(last, later)
  {
  }

  /** The number of checkpoints of its own day that an instant is strictly past. */
  function CheckpointsPassed(t: Instant): (n: nat)
    ensures n <= 2
  {
    (if t > MorningCheckpoint(t) then 1 else 0) + (if t > EveningCheckpoint(t) then 1 else 0)
  }

  lemma EligibleWithinDayAdvances(last: Instant, now: Instant)
    requires Day(last) == Day(now)
    requires SyncEligible(last, now)
    ensures CheckpointsPassed(last) < CheckpointsPassed(now)
  {
  }

  lemma {:induction false} PassedGrows(stamps: seq<Instant>, n: nat)
    requires n < |stamps|
    requires forall i :: 0 <= i < |stamps| ==> Day(stamps[i]) == Day(stamps[0])
    requires forall i :: 0 < i < |stamps| ==> SyncEligible(stamps[i - 1], stamps[i])
    ensures CheckpointsPassed(stamps[n]) >= n
  {
    if n > 0 {
      PassedGrows(stamps, n - 1);
      EligibleWithinDayAdvances(stamps[n - 1], stamps[n]);
    }
  }

  /**
   * Successive sync stamps on one calendar day, each taken in an open
   * window, number at most three: the day's first plus one per checkpoint.
   */
  lemma {:induction false} AtMostThreeSyncsPerDay(stamps: seq<Instant>)
    requires forall i :: 0 <= i < |stamps| ==> Day(stamps[i]) == Day(stamps[0])
    requires forall i :: 0 < i < |stamps| ==> SyncEligible(stamps[i - 1], stamps[i])
    ensures |stamps| <= 3
  {
    if |stamps| > 0 {
      PassedGrows(stamps, |stamps| - 1);
    }
  }

  /**
   * A second tick at the same instant, after one that stamped the window,
   * submits nothing and changes nothing.
   */
  lemma SecondTickIsNoop(kv: Kv, now: Instant, connected: bool, accepted: bool, connected2: bool, accepted2: bool)
    requires Stamped(kv, now, connected, accepted)
    ensures SyncRequest(AfterSync(kv, now, connected, accepted), now, connected2).None?
    ensures AfterSync(AfterSync(kv, now, connected, accepted), now, connected2, accepted2)
            == AfterSync(kv, now, connected, accepted)
  {
  }

  /**
   * A failed submission leaves the buffer and the stamp as they were, so a
   * later tick (of any later instant) over that store submits the same
   * request again.
   */
  lemma FailedSubmissionRetries(kv: Kv, now: Instant, later: Instant, connected2: bool)
    requires WillSubmit(kv, now, true)
    requires LastSync(kv) <= now <= later
    ensures AfterSync(kv, now, true, false) == kv
    ensures SyncRequest(kv, later, true) == SyncRequest(kv, now, true)
  {
  }

  /** Without network an open window is still consumed: the buffer stays and the stamp moves to now. */
  lemma DisconnectedTickConsumesWindow(kv: Kv, now: Instant, accepted: bool)
    requires SyncEligible(LastSync(kv), now)
    ensures SyncRequest(kv, now, false).None?
    ensures Get(AfterSync(kv, now, false, accepted), User(Login(kv), PunchHistory))
            == Get(kv, User(Login(kv), PunchHistory))
    ensures LastSync(AfterSync(kv, now, false, accepted)) == now
  {
  }

  /**
   * `BACKGROUND_FETCH_TASK`: the location check, then the sync check, one
   * storage call at a time. A permission request that throws ends the run
   * in the outer handler: nothing is written and nothing is submitted.
   */
  method BackgroundFetchTask(store: Store, now: Instant, probe: LocationProbe, connected: bool, accepted: bool)
    returns (request: Option<seq<PtgBrut>>)
    modifies store
    ensures TaskAborts(old(store.kv), probe) ==> request.None? && store.kv == old(store.kv)
    ensures !TaskAborts(old(store.kv), probe) ==>
      request == SyncRequest(LocationCheck(old(store.kv), now, probe), now, connected)
    ensures !TaskAborts(old(store.kv), probe) ==>
      store.kv == AfterSync(LocationCheck(old(store.kv), now, probe), now, connected, accepted)
  {
    request := None;
    var aborted := CheckLocation(store, now, probe);
    if aborted {
      return;
    }
    var l := store.GetLogin();
    var storedHistory := store.GetItem(User(l, PunchHistory));
    var lastTimeSyncString := store.GetItem(User(l, LastTimeSync));
    var lastTimeSync := if lastTimeSyncString.Some? && lastTimeSyncString.value.Stamp?
                        then lastTimeSyncString.value.t else 0;
    if SyncEligible(lastTimeSync, now) {
      if connected && storedHistory.Some? {
        var parsed := if storedHistory.value.Punches? then storedHistory.value.records else [];
        request := Some(Payload(parsed));
        if !accepted {
          return;
        }
        l := store.GetLogin();
        store.RemoveItem(User(l, PunchHistory));
      }
      l := store.GetLogin();
      store.SetItem(User(l, LastTimeSync), Stamp(now));
    }
  }
}
