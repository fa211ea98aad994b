/**
 * The local sign-up form: three checks in a fixed order, then the new
 * account appended to the stored account list unless its e-mail is taken.
 */
module SignUp {
  import opened Wrappers
  import opened Storage

  /** JavaScript's `\s`: the ECMAScript white-space and line-terminator characters. */
  predicate IsSpace(c: char) {
    c == ' ' || c == '\t' || c == '\n' || c == '\U{000B}' || c == '\U{000C}' || c == '\r'
    || c == '\U{00A0}' || c == '\U{1680}' || ('\U{2000}' <= c <= '\U{200A}')
    || c == '\U{2028}' || c == '\U{2029}' || c == '\U{202F}' || c == '\U{205F}'
    || c == '\U{3000}' || c == '\U{FEFF}'
  }

  /**
   * `/\S+@\S+\.\S+/.test(email)`, unanchored: some '@' at `p` with a
   * non-space character before it, a '.' at `q` after at least one
   * character past the '@', only non-space characters in between, and a
   * non-space character after the '.'.
   */
  predicate ValidEmail(s: string)
    ensures ValidEmail(s) ==> '@' in s && '.' in s && |s| >= 5
  {
    exists p, q :: 1 <= p && p + 1 < q && q + 1 < |s| && EmailShapeAt(s, p, q)
  }

  predicate EmailShapeAt(s: string, p: int, q: int)
    requires 1 <= p && p + 1 < q && q + 1 < |s|
  {
    s[p] == '@' && s[q] == '.' && !IsSpace(s[p - 1]) && !IsSpace(s[q + 1])
    && forall k :: p < k < q ==> !IsSpace(s[k])
  }

  lemma ValidEmailExample()
    ensures ValidEmail("jean.dupont@exemple.fr")
    ensures ValidEmail("a@b.c")
  {
    assert EmailShapeAt("jean.dupont@exemple.fr", 11, 19);
    assert EmailShapeAt("a@b.c", 1, 3);
  }

  /** The pattern is not anchored: text around a valid address keeps it valid. */
  lemma ValidEmailUnanchored(s: string, before: string, after: string)
    requires ValidEmail(s)
    ensures ValidEmail(before + s + after)
  {
    var p, q :| 1 <= p && p + 1 < q && q + 1 < |s| && EmailShapeAt(s, p, q);
    var t := before + s + after;
    var o := |before|;
    assert forall i :: 0 <= i < |s| ==> t[o + i] == s[i];
    assert EmailShapeAt(t, o + p, o + q) by {
      forall k | o + p < k < o + q ensures !IsSpace(t[k]) {
        assert t[k] == s[k - o];
      }
    }
  }

  /** Text with no '@', or with white space around every '@', is rejected; so is "a@b." and "a @b.c". */
  lemma InvalidEmails(s: string)
    requires '@' !in s
    ensures !ValidEmail(s)
    ensures !ValidEmail("a@b.") && !ValidEmail("a @b.c") && !ValidEmail("@b.c")
  {
  }

  /** Minimum password length. */
  const MinPasswordLength: nat := 6

  datatype Outcome = InvalidEmail | WeakPassword | PasswordMismatch | AccountExists | Created

  /** `storedAccounts ? JSON.parse(storedAccounts) : []`. */
  function StoredAccounts(kv: Kv): (accounts: seq<Account>)
    ensures Global(AccountsName) !in kv ==> accounts == []
  {
    if Global(AccountsName) in kv && kv[Global(AccountsName)].Accounts? then kv[Global(AccountsName)].accounts else []
  }

  /**
   * The outcome of a sign-up and the store after it: the first failing
   * check decides and leaves storage alone; only a new e-mail is appended,
   * once, at the end.
   */
  function SignUp(kv: Kv, email: string, password: string, confirm: string): (r: (Outcome, Kv))
    ensures r.0 == InvalidEmail <==> !ValidEmail(email)
    ensures r.0 == WeakPassword <==> ValidEmail(email) && |password| < MinPasswordLength
    ensures r.0 == PasswordMismatch <==>
      ValidEmail(email) && |password| >= MinPasswordLength && password != confirm
    ensures r.0 == AccountExists <==>
      ValidEmail(email) && |password| >= MinPasswordLength && password == confirm
      && exists a :: a in StoredAccounts(kv) && a.email == email
    ensures r.0 != Created ==> r.1 == kv
    ensures r.0 == Created ==>
      StoredAccounts(r.1) == StoredAccounts(kv) + [Account(email, password)]
      && SameExcept(kv, r.1, {Global(AccountsName)})
  {
    if !ValidEmail(email) then (InvalidEmail, kv)
    else if |password| < MinPasswordLength then (WeakPassword, kv)
    else if password != confirm then (PasswordMismatch, kv)
    else if exists a :: a in StoredAccounts(kv) && a.email == email then (AccountExists, kv)
    else (Created, kv[Global(AccountsName) := Accounts(StoredAccounts(kv) + [Account(email, password)])])
  }

  /** Signing up the same e-mail twice: the second attempt finds it and changes nothing. */
  lemma NoDuplicateEmails(kv: Kv, email: string, password: string, password2: string)
    requires SignUp(kv, email, password, password).0 == Created
    requires |password2| >= MinPasswordLength
    ensures var kv2 := SignUp(kv, email, password, password).1;
            SignUp(kv2, email, password2, password2) == (AccountExists, kv2)
  {
  }

  /** `handleSignUp`, one storage call at a time; `accounts.find` is a loop over the stored list. */
  method HandleSignUp(store: Store, email: string, password: string, confirm: string) returns (outcome: Outcome)
    modifies store
    ensures (outcome, store.kv) == SignUp(old(store.kv), email, password, confirm)
  {
    if !ValidEmail(email) {
      return InvalidEmail;
    }
    if |password| < MinPasswordLength {
      return WeakPassword;
    }
    if password != confirm {
      return PasswordMismatch;
    }
    var storedAccounts := store.GetItem(Global(AccountsName));
    var accounts := if storedAccounts.Some? && storedAccounts.value.Accounts? then storedAccounts.value.accounts else [];
    var i := 0;
    while i < |accounts|
      invariant 0 <= i <= |accounts|
      invariant forall j :: 0 <= j < i ==> accounts[j].email != email
    {
      if accounts[i].email == email {
        return AccountExists;
      }
      i := i + 1;
    }
    store.SetItem(Global(AccountsName), Accounts(accounts + [Account(email, password)]));
    outcome := Created;
  }
}
