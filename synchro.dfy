/**
 * The manual synchronisation screen: the pending buffer is uploaded
 * whenever it is stored, whatever the sync window says, and removed once
 * the upload returns.
 */
module Synchro {
  import opened Wrappers
  import opened Clock
  import opened Storage
  import opened App
  import opened Sync

  /**
   * Storage effect of a manual sync: an accepted upload removes the stored
   * buffer; otherwise, or when no buffer is stored, nothing changes.
   */
  function ManualSync(kv: Kv, accepted: bool): (r: Kv)
    ensures Login(r) == Login(kv)
    ensures User(Login(kv), PunchHistory) in kv && accepted ==>
      User(Login(kv), PunchHistory) !in r && SameExcept(kv, r, {User(Login(kv), PunchHistory)})
    ensures !(User(Login(kv), PunchHistory) in kv && accepted) ==> r == kv
    ensures Get(r, User(Login(kv), LastTimeSync)) == Get(kv, User(Login(kv), LastTimeSync))
  {
    var l := Login(kv);
    if User(l, PunchHistory) in kv && accepted then kv - {User(l, PunchHistory)} else kv
  }

  /**
   * A manual sync never moves the last-sync stamp, so a window that was open
   * stays open; once it has emptied the buffer the next background tick has
   * nothing to submit and only stamps the window.
   */
  lemma ManualSyncKeepsWindowOpen(kv: Kv, now: Instant, connected: bool, accepted: bool)
    requires SyncEligible(LastSync(kv), now)
    ensures SyncEligible(LastSync(ManualSync(kv, true)), now)
    ensures User(Login(kv), PunchHistory) in kv ==>
      SyncRequest(ManualSync(kv, true), now, connected).None?
      && LastSync(AfterSync(ManualSync(kv, true), now, connected, accepted)) == now
  {
  }

  /**
   * When both would submit, the manual upload and the background upload send
   * the same payload and leave the same buffer (none) behind.
   */
  lemma ManualMatchesBackgroundUpload(kv: Kv, now: Instant)
    requires WillSubmit(kv, now, true)
    ensures SyncRequest(kv, now, true) == Some(Payload(Pending(kv, Login(kv))))
    ensures Get(ManualSync(kv, true), User(Login(kv), PunchHistory))
            == Get(AfterSync(kv, now, true, true), User(Login(kv), PunchHistory))
  {
  }

  class SynchroScreen {
    const store: Store
    var isSyncing: bool
    /** The five-second timer that ends the animation after a successful upload. */
    var timerArmed: bool

    constructor (store: Store)
      ensures this.store == store && !isSyncing && !timerArmed
    {
      this.store := store;
      isSyncing := false;
      timerArmed := false;
    }

    /**
     * `sync`: with a stored buffer, its payload is returned as the request;
     * the buffer is removed only when the upload is accepted, and then the
     * animation runs until the timer fires. Without a buffer, or when the
     * upload fails, the animation stops at once.
     */
    method Sync(accepted: bool) returns (request: Option<seq<PtgBrut>>)
      modifies this, store
      ensures store.kv == ManualSync(old(store.kv), accepted)
      ensures var present := User(Login(old(store.kv)), PunchHistory) in old(store.kv);
              (request.Some? <==> present)
              && (present ==> request.value == Payload(Pending(old(store.kv), Login(old(store.kv)))))
              && (isSyncing <==> present && accepted)
              && (timerArmed == (old(timerArmed) || (present && accepted)))
    {
      isSyncing := true;
      var l := store.GetLogin();
      var storedHistory := store.GetItem(User(l, PunchHistory));
      if storedHistory.Some? {
        var parsed := if storedHistory.value.Punches? then storedHistory.value.records else [];
        request := Some(Payload(parsed));
        if !accepted {
          isSyncing := false;
          return;
        }
        l := store.GetLogin();
        store.RemoveItem(User(l, PunchHistory));
        timerArmed := true;
      } else {
        request := None;
        isSyncing := false;
      }
    }

    /** The timer's callback: the animation stops. */
    method TimerFires()
      modifies this
      requires timerArmed
      ensures !isSyncing && !timerArmed
    {
      isSyncing := false;
      timerArmed := false;
    }
  }
}
