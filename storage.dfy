/**
 * The device's key-value store (AsyncStorage) and the values the app keeps
 * in it. Per-user items live under `login + "_" + name`; a few items
 * (`token`, `accounts`, `punch`) are global.
 */
module Storage {
  import opened Wrappers
  import opened Clock

  /** Item names. None contains '_', which is what keeps namespaced keys apart. */
  const IsPunchedIn: string := "isPunchedIn"
  const PunchTime: string := "punchTime"
  const PunchHistory: string := "punchHistory"
  const PunchHistoryToday: string := "punchHistoryToday"
  const LastTimeSync: string := "lastTimeSync"
  const LastTimeDetection: string := "lastTimeDetection"
  const LastLogDetection: string := "lastLogDetection"
  const Emp: string := "emp"
  const Token: string := "token"
  const AccountsName: string := "accounts"
  const Punch: string := "punch"
  /** The misspelt liveness name the cold-start check writes (App.tsx:301). */
  const MisspeltDetection: string := "lastTimeDetetion"

  /** The type texts of manual punches and of the server's history entries. */
  const InKind: string := "IN"
  const OutKind: string := "OUT"

  /** A key: global, or namespaced by a login. */
  datatype Key = Global(name: string) | User(login: string, name: string)

  /** The text under which AsyncStorage files the item. */
  function KeyText(k: Key): string {
    match k
    case Global(n) => n
    case User(l, n) => l + "_" + n
  }

  predicate PlainName(n: string) {
    '_' !in n
  }

  /** In a per-user key the separator is the last '_'. */
  lemma SeparatorIsLast(l: string, n: string)
    requires PlainName(n)
    ensures KeyText(User(l, n))[|l|] == '_'
    ensures forall i :: |l| < i < |KeyText(User(l, n))| ==> KeyText(User(l, n))[i] != '_'
  {
  }

  /**
   * Two keys whose names contain no '_' are filed under the same text only
   * if they are the same key: distinct logins never share an item, and a
   * global item never collides with a per-user one.
   */
  lemma {:induction false} KeyTextInjective(k1: Key, k2: Key)
    requires PlainName(k1.name) && PlainName(k2.name)
    requires KeyText(k1) == KeyText(k2)
    ensures k1 == k2
  {
    var s := KeyText(k1);
    match (k1, k2)
    case (Global(n1), Global(n2)) =>
    case (Global(n1), User(l2, n2)) =>
      assert false;
    case (User(l1, n1), Global(n2)) =>
      assert false;
    case (User(l1, n1), User(l2, n2)) =>
      SeparatorIsLast(l1, n1);
      SeparatorIsLast(l2, n2);
      assert |l1| == |l2|;
      assert l1 == s[..|l1|] == l2;
      assert n1 == s[|l1| + 1..] == n2;
  }

  /** The item names the app stores. */
  predicate AppItemName(n: string) {
    n in {IsPunchedIn, PunchTime, PunchHistory, PunchHistoryToday, LastTimeSync, LastTimeDetection,
          LastLogDetection, Emp, Token, AccountsName, Punch, MisspeltDetection}
  }

  lemma ItemNamesArePlain()
    ensures PlainName(IsPunchedIn) && PlainName(PunchTime) && PlainName(PunchHistory)
    ensures PlainName(PunchHistoryToday) && PlainName(LastTimeSync) && PlainName(LastTimeDetection)
    ensures PlainName(LastLogDetection) && PlainName(Emp) && PlainName(Token)
    ensures PlainName(AccountsName) && PlainName(Punch) && PlainName(MisspeltDetection)
  {
  }

  /**
   * Among the items the app stores, two keys filed under the same text are
   * the same key, so no login's item ever overwrites another login's item
   * or a global one.
   */
  lemma AppKeysNeverCollide(k1: Key, k2: Key)
    requires AppItemName(k1.name) && AppItemName(k2.name)
    requires KeyText(k1) == KeyText(k2)
    ensures k1 == k2
  {
    ItemNamesArePlain();
    KeyTextInjective(k1, k2);
  }

  /** One punch: its type text ('IN', 'OUT' or 'Out'), instant, place label and optional coordinates. */
  datatype PunchRecord = PunchRecord(
    kind: string,
    time: Instant,
    placeName: string,
    longitude: Option<real>,
    latitude: Option<real>,
    precision: Option<real>)

  datatype Account = Account(email: string, password: string)

  /**
   * A stored value, JSON abstracted away: a plain string, a session token
   * (only its login claim matters), an instant rendered as a date string,
   * an instant rendered by the 'MM/DD/YYYY HH:mm:ss' format, a list of
   * punches, or the sign-up account list.
   */
  datatype Value =
    | Text(s: string)
    | Jwt(login: string)
    | Stamp(t: Instant)
    | Formatted(t: Instant)
    | Punches(records: seq<PunchRecord>)
    | Accounts(accounts: seq<Account>)

  type Kv = map<Key, Value>

  function Get(kv: Kv, k: Key): (v: Option<Value>)
    ensures v.Some? <==> k in kv
    ensures v.Some? ==> v.value == kv[k]
  {
    if k in kv then Some(kv[k]) else None
  }

  /** Every key outside `ks` holds what it held before. */
  ghost predicate SameExcept(before: Kv, after: Kv, ks: set<Key>) {
    forall k :: k !in ks ==> Get(after, k) == Get(before, k)
  }

  /** `getLogin`: the token's login claim, and the text "undefined" without a token. */
  function Login(kv: Kv): (l: string)
    ensures Global(Token) !in kv ==> l == "undefined"
  {
    if Global(Token) in kv && kv[Global(Token)].Jwt? then kv[Global(Token)].login else "undefined"
  }

  /** `stored ? JSON.parse(stored) : []` for a list of punches. */
  function RecordsAt(kv: Kv, k: Key): (rs: seq<PunchRecord>)
    ensures k !in kv ==> rs == []
    ensures k in kv && kv[k].Punches? ==> rs == kv[k].records
  {
    if k in kv && kv[k].Punches? then kv[k].records else []
  }

  /** A stored instant, when there is one. */
  function StampAt(kv: Kv, k: Key): (t: Option<Instant>)
    ensures t.Some? ==> k in kv && kv[k] == Stamp(t.value)
  {
    if k in kv && kv[k].Stamp? then Some(kv[k].t) else None
  }

  /** AsyncStorage itself: one map, read and rewritten one item at a time. */
  class Store {
    var kv: Kv

    constructor ()
      ensures kv == map[]
    {
      kv := map[];
    }

    method GetItem(k: Key) returns (v: Option<Value>)
      ensures v == Get(kv, k)
    {
      v := if k in kv then Some(kv[k]) else None;
    }

    method SetItem(k: Key, v: Value)
      modifies this
      ensures kv == old(kv)[k := v]
    {
      kv := kv[k := v];
    }

    method RemoveItem(k: Key)
      modifies this
      ensures kv == old(kv) - {k}
    {
      kv := kv - {k};
    }

    /** `getLogin`, which reads the token item afresh on every call. */
    method GetLogin() returns (l: string)
      ensures l == Login(kv)
    {
      var token := GetItem(Global(Token));
      l := if token.Some? && token.value.Jwt? then token.value.login else "undefined";
    }
  }
}
