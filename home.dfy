/**
 * The home screen: its cache of the employee label, and sign-out, which
 * either closes a user who is punched out (liveness stamp, "logged out"
 * marker, token and employee label removed) or appends an automatic 'Out'
 * for a user who is still punched in.
 */
module Home {
  import opened Wrappers
  import opened Clock
  import opened Storage
  import opened App

  /**
   * Sign-out as written: the token is removed before the employee key is
   * computed, so that key is built from the login "undefined" and the
   * user's own label is left behind.
   */
  function SignOutAsWritten(kv: Kv, now: Instant): (r: Kv)
    ensures !FlagIsTrue(kv, Login(kv)) ==>
      Global(Token) !in r && User("undefined", Emp) !in r
      && StampAt(r, User(Login(kv), LastTimeDetection)) == Some(now)
      && Get(r, User(Login(kv), LastLogDetection)) == Some(Text("logged out"))
      && SameExcept(kv, r, {Global(Token), User("undefined", Emp),
                             User(Login(kv), LastTimeDetection), User(Login(kv), LastLogDetection)})
    ensures FlagIsTrue(kv, Login(kv)) ==> r == AppendForcedOut(kv, now)
  {
    var l := Login(kv);
    if FlagIsTrue(kv, l) then AppendForcedOut(kv, now)
    else
      var kv1 := kv[User(l, LastTimeDetection) := Stamp(now)][User(l, LastLogDetection) := Text("logged out")] - {Global(Token)};
      kv1 - {User(Login(kv1), Emp)}
  }

  /** The signed-out user's own employee label stays stored after a sign-out as written. */
  lemma SignOutAsWrittenKeepsEmp(kv: Kv, now: Instant)
    requires !FlagIsTrue(kv, Login(kv)) && Login(kv) != "undefined"
    requires User(Login(kv), Emp) in kv
    ensures User(Login(kv), Emp) in SignOutAsWritten(kv, now)
    ensures Global(Token) !in SignOutAsWritten(kv, now)
  {
  }

  /**
   * Sign-out with the employee key removed while the token still names the
   * user. A user who is not punched in is stamped, marked "logged out" and
   * loses the token and the label, with the pending list untouched; a user
   * who is punched in gets one automatic 'Out', keeps the token and gets no
   * marker.
   */
  function SignOut(kv: Kv, now: Instant): (r: Kv)
    ensures !FlagIsTrue(kv, Login(kv)) ==>
      Global(Token) !in r && User(Login(kv), Emp) !in r
      && StampAt(r, User(Login(kv), LastTimeDetection)) == Some(now)
      && Get(r, User(Login(kv), LastLogDetection)) == Some(Text("logged out"))
      && SameExcept(kv, r, {Global(Token), User(Login(kv), Emp),
                             User(Login(kv), LastTimeDetection), User(Login(kv), LastLogDetection)})
    ensures FlagIsTrue(kv, Login(kv)) ==>
      Pending(r, Login(kv)) == Pending(kv, Login(kv)) + [ForcedOutRecord(now)]
      && Get(r, User(Login(kv), IsPunchedIn)) == Some(Text("false"))
      && Get(r, User(Login(kv), PunchTime)) == Some(Formatted(now))
      && Get(r, Global(Token)) == Get(kv, Global(Token))
      && Get(r, User(Login(kv), LastLogDetection)) == Get(kv, User(Login(kv), LastLogDetection))
    ensures FlagIsTrue(kv, Login(kv)) ==> r == AppendForcedOut(kv, now)
  {
    var l := Login(kv);
    if FlagIsTrue(kv, l) then AppendForcedOut(kv, now)
    else
      kv[User(l, LastTimeDetection) := Stamp(now)][User(l, LastLogDetection) := Text("logged out")]
        - {User(l, Emp)} - {Global(Token)}
  }

  /** The two orders differ only in the employee keys: the written one removes "undefined_emp" instead. */
  lemma SignOutOrdersDifferOnlyInEmp(kv: Kv, now: Instant)
    ensures SameExcept(SignOut(kv, now), SignOutAsWritten(kv, now), {User(Login(kv), Emp), User("undefined", Emp)})
  {
  }

  /**
   * After the app's sign-out of a user who was not punched in, the token is
   * gone and the user's marker says "logged out": even with that user's
   * token back in place, a cold start finds no recovery due.
   */
  lemma SignedOutUserIsNotRecovered(kv: Kv, now: Instant)
    requires !FlagIsTrue(kv, Login(kv))
    ensures var r := SignOutAsWritten(kv, now);
            Login(r) == "undefined" && Get(r, User(Login(kv), LastLogDetection)) == Some(Text("logged out"))
            && !RecoveryDue(r[Global(Token) := Jwt(Login(kv))])
  {
  }

  /** The punch time the home screen shows after reading `kv`. */
  function ShownPunchTime(kv: Kv, current: Option<Instant>): Option<Instant> {
    var pt := Get(kv, User(Login(kv), PunchTime));
    if pt.Some? && pt.value.Formatted? then Some(pt.value.t) else current
  }

  /** The flag text the home screen shows after reading `kv`: a truthy stored text. */
  function ShownFlag(kv: Kv, current: string): string {
    var f := Get(kv, User(Login(kv), IsPunchedIn));
    if f.Some? && f.value.Text? && f.value.s != "" then f.value.s else current
  }

  class HomeScreen {
    const store: Store
    var login: string
    var emp: string
    var punchTime: Option<Instant>
    var isPunchedIn: string

    constructor (store: Store)
      ensures this.store == store
      ensures login == "" && emp == "" && punchTime.None? && isPunchedIn == ""
    {
      this.store := store;
      login := "";
      emp := "";
      punchTime := None;
      isPunchedIn := "";
    }

    /**
     * `fetchData`: a cached employee label is shown; otherwise the label is
     * fetched (`fetched`, None when the request fails) and only stored, not
     * shown. A failed request ends the load before the punch state is read.
     */
    method FetchData(fetched: Option<string>)
      modifies this, store
      ensures var l := Login(old(store.kv));
              var cached := Get(old(store.kv), User(l, Emp));
              (cached.Some? ==> store.kv == old(store.kv)
                                && emp == (if cached.value.Text? then cached.value.s else old(emp)))
              && (cached.None? && fetched.Some? ==>
                    store.kv == old(store.kv)[User(l, Emp) := Text(fetched.value)] && emp == old(emp))
              && (cached.None? && fetched.None? ==>
                    store.kv == old(store.kv) && emp == old(emp)
                    && punchTime == old(punchTime) && isPunchedIn == old(isPunchedIn))
      ensures login == (if Global(Token) in old(store.kv) && old(store.kv)[Global(Token)].Jwt? && Login(old(store.kv)) != ""
                        then Login(old(store.kv)) else old(login))
      ensures Get(old(store.kv), User(Login(old(store.kv)), Emp)).Some? || fetched.Some? ==>
        punchTime == ShownPunchTime(old(store.kv), old(punchTime))
        && isPunchedIn == ShownFlag(old(store.kv), old(isPunchedIn))
    {
      var token := store.GetItem(Global(Token));
      var userEmail := store.GetLogin();
      if token.Some? && token.value.Jwt? && userEmail != "" {
        login := userEmail;
      }
      var loaded := LoadEmp(fetched);
      if loaded {
        LoadPunchState();
      }
    }

    /** The employee-label part of `fetchData`; false when the fetch failed. */
    method LoadEmp(fetched: Option<string>) returns (loaded: bool)
      modifies this, store
      ensures login == old(login) && punchTime == old(punchTime) && isPunchedIn == old(isPunchedIn)
      ensures var l := Login(old(store.kv));
              var cached := Get(old(store.kv), User(l, Emp));
              (loaded <==> cached.Some? || fetched.Some?)
              && (cached.Some? ==> store.kv == old(store.kv)
                                   && emp == (if cached.value.Text? then cached.value.s else old(emp)))
              && (cached.None? && fetched.Some? ==>
                    store.kv == old(store.kv)[User(l, Emp) := Text(fetched.value)] && emp == old(emp))
              && (cached.None? && fetched.None? ==> store.kv == old(store.kv) && emp == old(emp))
    {
      var l := store.GetLogin();
      var cached := store.GetItem(User(l, Emp));
      loaded := true;
      if cached.Some? {
        if cached.value.Text? {
          emp := cached.value.s;
        }
      } else if fetched.None? {
        loaded := false;
      } else {
        l := store.GetLogin();
        store.SetItem(User(l, Emp), Text(fetched.value));
      }
    }

    /** The punch-state part of `fetchData`: truthy stored values are shown. */
    method LoadPunchState()
      modifies this
      ensures punchTime == ShownPunchTime(store.kv, old(punchTime))
      ensures isPunchedIn == ShownFlag(store.kv, old(isPunchedIn))
      ensures login == old(login) && emp == old(emp)
    {
      var l := store.GetLogin();
      var storedPunchTime := store.GetItem(User(l, PunchTime));
      var storedIsPunchedIn := store.GetItem(User(l, IsPunchedIn));
      if storedPunchTime.Some? && storedPunchTime.value.Formatted? {
        punchTime := Some(storedPunchTime.value.t);
      }
      if storedIsPunchedIn.Some? && storedIsPunchedIn.value.Text? && storedIsPunchedIn.value.s != "" {
        isPunchedIn := storedIsPunchedIn.value.s;
      }
    }
    /**
     * The 'SignOut' press, one storage call at a time in the order the
     * handler makes them: the token is removed before the employee key is
     * computed, so the store ends as `SignOutAsWritten` says;
     * `navigations` counts the calls that open the sign-in screen: two in
     * the punched-out branch, one otherwise.
     */
    method SignOutPressed(now: Instant) returns (navigations: nat)
      modifies store
      ensures store.kv == SignOutAsWritten(old(store.kv), now)
      ensures navigations == if FlagIsTrue(old(store.kv), Login(old(store.kv))) then 1 else 2
    {
      var l := store.GetLogin();
      var lastPunch := store.GetItem(User(l, IsPunchedIn));
      navigations := 0;
      if lastPunch != Some(Text("true")) {
        store.SetItem(User(l, LastTimeDetection), Stamp(now));
        l := store.GetLogin();
        store.SetItem(User(l, LastLogDetection), Text("logged out"));
        store.RemoveItem(Global(Token));
        l := store.GetLogin();
        store.RemoveItem(User(l, Emp));
        navigations := navigations + 1;
      } else {
        var stored := store.GetItem(User(l, PunchHistory));
        var current := if stored.Some? && stored.value.Punches? then stored.value.records else [];
        store.SetItem(User(l, PunchHistory), Punches(current + [ForcedOutRecord(now)]));
        l := store.GetLogin();
        store.SetItem(User(l, IsPunchedIn), Text("false"));
        l := store.GetLogin();
        store.SetItem(User(l, PunchTime), Formatted(now));
      }
      navigations := navigations + 1;
    }
  }
}
