/**
 * The punch-state writers of the root component: the forced punch-out, the
 * background location check, the liveness stamp and the cold-start
 * recovery. Every key is built from the login that `getLogin` reads from
 * the stored token; none of these operations touches the token.
 */
module App {
  import opened Wrappers
  import opened Clock
  import opened Storage

  /** The type text of an automatic punch-out (manual punches use 'IN' and 'OUT'). */
  const ForcedOutKind: string := "Out"
  const UnknownPlace: string := "unknown"

  /**
   * The outcome of the background task's location calls: services enabled
   * or disabled, `hasServicesEnabledAsync` throwing (caught by its own
   * handler), or `requestBackgroundPermissionsAsync` throwing, which
   * escapes to the task's outer handler and ends the whole run.
   */
  datatype LocationProbe = ServicesEnabled | ServicesDisabled | ProbeFailed | PermissionRequestFailed

  /** The background run stops at the permission request: the flag is "true" and the request throws. */
  predicate TaskAborts(kv: Kv, probe: LocationProbe) {
    FlagIsTrue(kv, Login(kv)) && probe == PermissionRequestFailed
  }

  function ForcedOutRecord(t: Instant): (r: PunchRecord)
    ensures r.kind == ForcedOutKind && r.time == t && r.placeName == UnknownPlace
    ensures r.longitude.None? && r.latitude.None? && r.precision.None?
  {
    PunchRecord(ForcedOutKind, t, UnknownPlace, None, None, None)
  }

  /** The pending (unsynchronised) buffer of a login. */
  function Pending(kv: Kv, l: string): seq<PunchRecord> {
    RecordsAt(kv, User(l, PunchHistory))
  }

  /** The stored flag is the string "true". */
  predicate FlagIsTrue(kv: Kv, l: string) {
    Get(kv, User(l, IsPunchedIn)) == Some(Text("true"))
  }

  /** JavaScript truthiness of a stored item: present and not the empty string. */
  predicate Truthy(v: Option<Value>) {
    v.Some? && v.value != Text("")
  }

  /**
   * Storage effect of `handlePunchOut`: one 'Out' record at `now` appended
   * to the pending list (an absent list counts as empty), the same list
   * copied to the today list, the flag set to "false" and the punch time
   * set to the formatted instant of that record.
   */
  function ForcedPunchOut(kv: Kv, now: Instant): (r: Kv)
    ensures Login(r) == Login(kv)
    ensures Pending(r, Login(kv)) == Pending(kv, Login(kv)) + [ForcedOutRecord(now)]
    ensures Get(r, User(Login(kv), PunchHistoryToday)) == Get(r, User(Login(kv), PunchHistory))
    ensures Get(r, User(Login(kv), IsPunchedIn)) == Some(Text("false"))
    ensures Get(r, User(Login(kv), PunchTime)) == Some(Formatted(now))
    ensures SameExcept(kv, r, {User(Login(kv), PunchHistory), User(Login(kv), PunchHistoryToday),
                               User(Login(kv), IsPunchedIn), User(Login(kv), PunchTime)})
  {
    var l := Login(kv);
    var h := Pending(kv, l) + [ForcedOutRecord(now)];
    kv[User(l, PunchHistory) := Punches(h)]
      [User(l, PunchHistoryToday) := Punches(h)]
      [User(l, IsPunchedIn) := Text("false")]
      [User(l, PunchTime) := Formatted(now)]
  }

  /**
   * The location half of the background task: only when the flag is
   * exactly "true" is the location probed; a probe that answers stamps the
   * liveness time, and a "disabled" answer forces a punch-out. A probe
   * that throws, or a permission request that throws, changes nothing.
   */
  function LocationCheck(kv: Kv, now: Instant, probe: LocationProbe): (r: Kv)
    ensures Login(r) == Login(kv)
    ensures FlagIsTrue(kv, Login(kv)) && probe == ServicesDisabled ==>
      r == ForcedPunchOut(kv[User(Login(kv), LastTimeDetection) := Stamp(now)], now)
    ensures !(FlagIsTrue(kv, Login(kv)) && probe == ServicesDisabled) ==>
      SameExcept(kv, r, {User(Login(kv), LastTimeDetection)})
    ensures FlagIsTrue(kv, Login(kv)) && (probe == ServicesEnabled || probe == ServicesDisabled) ==>
      StampAt(r, User(Login(kv), LastTimeDetection)) == Some(now)
    ensures !FlagIsTrue(kv, Login(kv)) || probe == ProbeFailed || probe == PermissionRequestFailed ==> r == kv
  {
    var l := Login(kv);
    if !FlagIsTrue(kv, l) then kv
    else
      match probe
      case ProbeFailed => kv
      case PermissionRequestFailed => kv
      case ServicesEnabled => kv[User(l, LastTimeDetection) := Stamp(now)]
      case ServicesDisabled => ForcedPunchOut(kv[User(l, LastTimeDetection) := Stamp(now)], now)
  }

  /**
   * The ten-second liveness tick: stamps the liveness time whenever the
   * stored flag is a non-empty string, which includes "false".
   */
  function LivenessTick(kv: Kv, now: Instant): (r: Kv)
    ensures SameExcept(kv, r, {User(Login(kv), LastTimeDetection)})
    ensures Truthy(Get(kv, User(Login(kv), IsPunchedIn))) ==>
      StampAt(r, User(Login(kv), LastTimeDetection)) == Some(now)
    ensures !Truthy(Get(kv, User(Login(kv), IsPunchedIn))) ==> r == kv
  {
    var l := Login(kv);
    if Truthy(Get(kv, User(l, IsPunchedIn))) then kv[User(l, LastTimeDetection) := Stamp(now)] else kv
  }

  /** The tick stamps a user who is punched out too: the flag "false" is a truthy string. */
  lemma LivenessStampsWhenPunchedOut(kv: Kv, now: Instant)
    requires Get(kv, User(Login(kv), IsPunchedIn)) == Some(Text("false"))
    ensures StampAt(LivenessTick(kv, now), User(Login(kv), LastTimeDetection)) == Some(now)
  {
  }

  /** Cold-start initialisation of the liveness time, as written: the value goes to a misspelt key. */
  function InitDetectionAsWritten(kv: Kv, now: Instant): (r: Kv)
    ensures Login(r) == Login(kv)
    ensures User(Login(kv), LastTimeDetection) !in kv ==>
      User(Login(kv), LastTimeDetection) !in r && StampAt(r, User(Login(kv), MisspeltDetection)) == Some(now)
    ensures SameExcept(kv, r, {User(Login(kv), MisspeltDetection)})
    ensures User(Login(kv), LastTimeDetection) in kv ==> r == kv
  {
    var l := Login(kv);
    if User(l, LastTimeDetection) !in kv then kv[User(l, MisspeltDetection) := Stamp(now)] else kv
  }

  /** Cold-start initialisation of the liveness time under its own key. */
  function InitDetection(kv: Kv, now: Instant): (r: Kv)
    ensures Login(r) == Login(kv)
    ensures User(Login(kv), LastTimeDetection) !in kv ==>
      StampAt(r, User(Login(kv), LastTimeDetection)) == Some(now)
    ensures SameExcept(kv, r, {User(Login(kv), LastTimeDetection)})
    ensures User(Login(kv), LastTimeDetection) in kv ==> r == kv
  {
    var l := Login(kv);
    if User(l, LastTimeDetection) !in kv then kv[User(l, LastTimeDetection) := Stamp(now)] else kv
  }

  /** The written code leaves the liveness time absent; the corrected one stores it. */
  lemma MisspeltKeyLeavesDetectionAbsent(kv: Kv, now: Instant)
    requires User(Login(kv), LastTimeDetection) !in kv
    ensures User(Login(kv), LastTimeDetection) !in InitDetectionAsWritten(kv, now)
    ensures User(Login(kv), LastTimeDetection) in InitDetection(kv, now)
  {
  }

  /** The recovery condition: marked logged in, flag "true", and a stored liveness time. */
  predicate RecoveryDue(kv: Kv) {
    var l := Login(kv);
    Get(kv, User(l, LastLogDetection)) == Some(Text("logged in"))
    && FlagIsTrue(kv, l)
    && StampAt(kv, User(l, LastTimeDetection)).Some?
  }

  /**
   * The recovery write of `checkLastLog`, also made by the home screen's
   * sign-out of a user who is punched in: one 'Out' record at `t` appended
   * to the pending list (an absent list counts as empty), the flag set to
   * "false" and the punch time set to `t`. The today list is not touched.
   */
  function AppendForcedOut(kv: Kv, t: Instant): (r: Kv)
    ensures Login(r) == Login(kv)
    ensures Pending(r, Login(kv)) == Pending(kv, Login(kv)) + [ForcedOutRecord(t)]
    ensures Get(r, User(Login(kv), IsPunchedIn)) == Some(Text("false"))
    ensures Get(r, User(Login(kv), PunchTime)) == Some(Formatted(t))
    ensures SameExcept(kv, r, {User(Login(kv), PunchHistory), User(Login(kv), IsPunchedIn), User(Login(kv), PunchTime)})
  {
    var l := Login(kv);
    kv[User(l, PunchHistory) := Punches(Pending(kv, l) + [ForcedOutRecord(t)])]
      [User(l, IsPunchedIn) := Text("false")]
      [User(l, PunchTime) := Formatted(t)]
  }

  /**
   * `checkLastLog` as written: a missing liveness time is stamped under the
   * misspelt key; when recovery is due, one 'Out' is appended at the last
   * liveness time and the flag and punch time follow it; otherwise the
   * buffer, the flag and the liveness time stay as they are.
   */
  function ColdStartAsWritten(kv: Kv, now: Instant): (r: Kv)
    ensures Login(r) == Login(kv)
    ensures RecoveryDue(kv) ==>
      r == AppendForcedOut(kv, StampAt(kv, User(Login(kv), LastTimeDetection)).value)
    ensures !RecoveryDue(kv) ==>
      SameExcept(kv, r, {User(Login(kv), MisspeltDetection)})
      && Get(r, User(Login(kv), LastTimeDetection)) == Get(kv, User(Login(kv), LastTimeDetection))
  {
    var l := Login(kv);
    var kv1 := InitDetectionAsWritten(kv, now);
    if RecoveryDue(kv) then AppendForcedOut(kv1, StampAt(kv, User(l, LastTimeDetection)).value) else kv1
  }

  /**
   * `checkLastLog` with the liveness key spelt correctly: the same recovery,
   * and a missing liveness time becomes `now`.
   */
  function ColdStart(kv: Kv, now: Instant): (r: Kv)
    ensures Login(r) == Login(kv)
    ensures RecoveryDue(kv) ==>
      r == AppendForcedOut(kv, StampAt(kv, User(Login(kv), LastTimeDetection)).value)
    ensures !RecoveryDue(kv) ==>
      SameExcept(kv, r, {User(Login(kv), LastTimeDetection)})
      && (User(Login(kv), LastTimeDetection) !in kv ==> StampAt(r, User(Login(kv), LastTimeDetection)) == Some(now))
  {
    var l := Login(kv);
    var kv1 := InitDetection(kv, now);
    if RecoveryDue(kv) then AppendForcedOut(kv1, StampAt(kv, User(l, LastTimeDetection)).value) else kv1
  }

  /** The written and the corrected cold start differ only in the two liveness keys. */
  lemma ColdStartsDifferOnlyInDetection(kv: Kv, now: Instant)
    ensures SameExcept(ColdStart(kv, now), ColdStartAsWritten(kv, now),
                       {User(Login(kv), LastTimeDetection), User(Login(kv), MisspeltDetection)})
  {
  }

  /** `handlePunchOut` without UI callbacks, one storage call at a time. */
  method HandlePunchOut(store: Store, now: Instant)
    modifies store
    ensures store.kv == ForcedPunchOut(old(store.kv), now)
  {
    var l := store.GetLogin();
    var stored := store.GetItem(User(l, PunchHistory));
    var current := if stored.Some? && stored.value.Punches? then stored.value.records else [];
    var newHistory := current + [ForcedOutRecord(now)];
    store.SetItem(User(l, PunchHistory), Punches(newHistory));
    l := store.GetLogin();
    store.SetItem(User(l, PunchHistoryToday), Punches(newHistory));
    l := store.GetLogin();
    store.SetItem(User(l, IsPunchedIn), Text("false"));
    l := store.GetLogin();
    store.SetItem(User(l, PunchTime), Formatted(now));
  }

  /** The location half of the background task. */
  method CheckLocation(store: Store, now: Instant, probe: LocationProbe) returns (aborted: bool)
    modifies store
    ensures store.kv == LocationCheck(old(store.kv), now, probe)
    ensures aborted <==> TaskAborts(old(store.kv), probe)
  {
    var l := store.GetLogin();
    var isPunchedIn := store.GetItem(User(l, IsPunchedIn));
    aborted := false;
    if isPunchedIn == Some(Text("true")) {
      if probe == PermissionRequestFailed {
        aborted := true;
      } else if probe != ProbeFailed {
        l := store.GetLogin();
        store.SetItem(User(l, LastTimeDetection), Stamp(now));
        if probe == ServicesDisabled {
          HandlePunchOut(store, now);
        }
      }
    }
  }

  /** The ten-second liveness interval body. */
  method Liveness(store: Store, now: Instant)
    modifies store
    ensures store.kv == LivenessTick(old(store.kv), now)
  {
    var l := store.GetLogin();
    var isPunchedIn := store.GetItem(User(l, IsPunchedIn));
    if Truthy(isPunchedIn) {
      l := store.GetLogin();
      store.SetItem(User(l, LastTimeDetection), Stamp(now));
    }
  }

  /** `checkLastLog`, run once when the root component mounts, one storage call at a time as written. */
  method CheckLastLog(store: Store, now: Instant)
    modifies store
    ensures store.kv == ColdStartAsWritten(old(store.kv), now)
  {
    var l := store.GetLogin();
    var lastLogDetection := store.GetItem(User(l, LastLogDetection));
    var isPunchedIn := store.GetItem(User(l, IsPunchedIn));
    var lastTimeDetection := store.GetItem(User(l, LastTimeDetection));
    if lastTimeDetection.None? {
      l := store.GetLogin();
      store.SetItem(User(l, MisspeltDetection), Stamp(now));
    }
    if lastLogDetection == Some(Text("logged in")) && isPunchedIn == Some(Text("true")) {
      if lastTimeDetection.Some? && lastTimeDetection.value.Stamp? {
        var date := lastTimeDetection.value.t;
        l := store.GetLogin();
        var stored := store.GetItem(User(l, PunchHistory));
        var current := if stored.Some? && stored.value.Punches? then stored.value.records else [];
        store.SetItem(User(l, PunchHistory), Punches(current + [ForcedOutRecord(date)]));
        l := store.GetLogin();
        store.SetItem(User(l, IsPunchedIn), Text("false"));
        l := store.GetLogin();
        store.SetItem(User(l, PunchTime), Formatted(date));
      }
    }
  }

  /**
   * The root component's own state and its two-minute foreground check.
   * The check reads the punched-in state captured when the interval was
   * installed; the position request is not awaited, so "location
   * available" is exactly "permission granted".
   */
  class AppShell {
    const store: Store
    var isPunchedIn: bool
    var punchTime: Option<Instant>
    var history: seq<PunchRecord>
    var locationEnabled: bool

    constructor (store: Store)
      ensures this.store == store
      ensures !isPunchedIn && punchTime.None? && history == [] && locationEnabled
    {
      this.store := store;
      isPunchedIn := false;
      punchTime := None;
      history := [];
      locationEnabled := true;
    }

    /** `handlePunchOut` with the state callbacks of this component. */
    method PunchOutWithCallbacks(now: Instant)
      modifies this, store
      ensures store.kv == ForcedPunchOut(old(store.kv), now)
      ensures punchTime == Some(now) && !isPunchedIn
      ensures history == Pending(store.kv, Login(old(store.kv)))
      ensures locationEnabled == old(locationEnabled)
    {
      punchTime := Some(now);
      HandlePunchOut(store, now);
      var l := store.GetLogin();
      var stored := store.GetItem(User(l, PunchHistory));
      history := if stored.Some? && stored.value.Punches? then stored.value.records else [];
      isPunchedIn := false;
    }

    /** One run of the two-minute foreground interval. */
    method LocationInterval(now: Instant, permissionGranted: bool) returns (forced: bool)
      modifies this, store
      ensures forced <==> old(isPunchedIn) && !permissionGranted
      ensures forced ==> store.kv == ForcedPunchOut(old(store.kv), now) && !isPunchedIn
      ensures !forced ==> store.kv == old(store.kv)
      ensures !forced ==> isPunchedIn == (old(isPunchedIn) || FlagIsTrue(old(store.kv), Login(old(store.kv))))
      ensures !forced ==> punchTime == old(punchTime) && history == old(history)
      ensures forced ==> punchTime == Some(now) && history == Pending(store.kv, Login(old(store.kv)))
      ensures locationEnabled == if old(isPunchedIn) then permissionGranted else old(locationEnabled)
    {
      var captured := isPunchedIn;
      var l := store.GetLogin();
      var lastPunch := store.GetItem(User(l, IsPunchedIn));
      if lastPunch == Some(Text("true")) {
        isPunchedIn := true;
      }
      forced := false;
      if captured {
        locationEnabled := permissionGranted;
        if !permissionGranted {
          PunchOutWithCallbacks(now);
          forced := true;
        }
      }
    }
  }
}
