/**
 * The signup route: validates email and password, refuses a registered
 * email, and creates the user with a five-credit welcome bonus and its
 * ledger row in one transaction.
 */
module Signup {
  import opened Wrappers
  import opened Strings
  import opened Ledger

  const SignupBonusCredits := 5
  const MinPasswordLength := 8

  /** The JSON body; each field is "" when absent. */
  datatype SignupBody = SignupBody(name: string, email: string, password: string)

  /** The success body carries the new user's id, email and name: there is no password field. */
  datatype SignupResponse =
    | MissingFields
    | PasswordTooShort
    | EmailTaken
    | Failed
    | Created(id: string, email: string, name: Option<string>)

  function StatusCode(r: SignupResponse): int
  {
    match r
    case MissingFields => 400
    case PasswordTooShort => 400
    case EmailTaken => 400
    case Failed => 500
    case Created(_, _, _) => 200
  }

  function BonusKey(email: string, now: nat): string
  {
    "signup_bonus_" + email + "_" + NatToString(now)
  }

  /**
   * `POST`.  `body` is `None` when the request is not JSON (answered with
   * 500); `newId` is the id the database assigns, `hash` the bcrypt hash of
   * the password, `now` is `Date.now()`.  The transaction throws, and
   * nothing is written, when the id or the ledger key is already taken.
   */
  function SignupSpec(s: State, body: Option<SignupBody>, newId: string, hash: string, now: nat): (State, SignupResponse)
  {
    if body.None? then (s, Failed)
    else
      var b := body.value;
      if b.email == "" || b.password == "" then (s, MissingFields)
      else if |b.password| < MinPasswordLength then (s, PasswordTooShort)
      else if FindUserByEmail(s.users, b.email).Some? then (s, EmailTaken)
      else if FindUser(s.users, newId).Some? || KeyUsed(s.ledger, BonusKey(b.email, now)) then (s, Failed)
      else
        var name := if b.name != "" then Some(b.name) else None;
        var user := User(newId, b.email, name, hash, SignupBonusCredits);
        var row := LedgerRow(newId, ManualAdjustment, SignupBonusCredits, SignupBonusCredits, Some(BonusKey(b.email, now)));
        (AddUser(s, user, row), Created(newId, b.email, name))
  }

  method SignUp(db: Db, body: Option<SignupBody>, newId: string, hash: string, now: nat) returns (resp: SignupResponse)
    modifies db
    ensures (db.Snapshot(), resp) == SignupSpec(old(db.Snapshot()), body, newId, hash, now)
  {
    if body.None? {
      return Failed;
    }
    var b := body.value;
    if b.email == "" || b.password == "" {
      return MissingFields;
    }
    if |b.password| < MinPasswordLength {
      return PasswordTooShort;
    }
    if FindUserByEmail(db.users, b.email).Some? {
      return EmailTaken;
    }
    var key := BonusKey(b.email, now);
    if FindUser(db.users, newId).Some? || KeyUsed(db.ledger, key) {
      return Failed;
    }
    var name := if b.name != "" then Some(b.name) else None;
    db.users := db.users + [User(newId, b.email, name, hash, SignupBonusCredits)];
    db.ledger := db.ledger + [LedgerRow(newId, ManualAdjustment, SignupBonusCredits, SignupBonusCredits, Some(key))];
    return Created(newId, b.email, name);
  }

  // ------------------------------------------------------------ properties

  /**
   * Either nothing is written, or exactly one user with a balance of 5 and
   * exactly one 5-credit `manual_adjustment` row for that user are added:
   * the two writes happen together or not at all.  A refusal for a missing
   * field, a short password or a registered email writes nothing.
   */
  lemma SignupIsAtomic(s: State, body: Option<SignupBody>, newId: string, hash: string, now: nat)
    ensures var (t, resp) := SignupSpec(s, body, newId, hash, now);
      (!resp.Created? ==> t == s)
      && (resp.Created? ==>
            |t.users| == |s.users| + 1 && t.users[..|s.users|] == s.users
            && t.users[|s.users|].id == resp.id && t.users[|s.users|].email == resp.email
            && t.users[|s.users|].creditsBalance == SignupBonusCredits
            && |t.ledger| == |s.ledger| + 1 && t.ledger[..|s.ledger|] == s.ledger
            && t.ledger[|s.ledger|].userId == resp.id && t.ledger[|s.ledger|].kind == ManualAdjustment
            && t.ledger[|s.ledger|].amount == SignupBonusCredits
            && t.ledger[|s.ledger|].balanceAfter == SignupBonusCredits)
  {
    var (t, resp) := SignupSpec(s, body, newId, hash, now);
    if resp.Created? {
      assert t.users[..|s.users|] == s.users;
      assert t.ledger[..|s.ledger|] == s.ledger;
    }
  }

  /**
   * Each refusal happens exactly when its check is the first to fail, and
   * signup succeeds exactly for a complete body with a password of at least
   * 8 characters, an unregistered email, and a free id and bonus key.
   */
  lemma SignupValidation(s: State, body: Option<SignupBody>, newId: string, hash: string, now: nat)
    ensures body.None? ==> SignupSpec(s, body, newId, hash, now).1 == Failed
    ensures body.Some? ==>
      var resp := SignupSpec(s, body, newId, hash, now).1;
      var b := body.value;
      (resp == MissingFields <==> b.email == "" || b.password == "")
      && (resp == PasswordTooShort <==> b.email != "" && b.password != "" && |b.password| < 8)
      && (resp == EmailTaken <==> b.email != "" && |b.password| >= 8 && FindUserByEmail(s.users, b.email).Some?)
      && (resp.Created? <==>
            b.email != "" && |b.password| >= 8 && FindUserByEmail(s.users, b.email).None?
            && FindUser(s.users, newId).None? && !KeyUsed(s.ledger, BonusKey(b.email, now)))
  {
  }

  lemma LastBalanceOfStranger(ledger: seq<LedgerRow>, id: string)
    requires forall k :: 0 <= k < |ledger| ==> ledger[k].userId != id
    ensures LastBalance(ledger, id).None?
    decreases |ledger|
  {
    if ledger != [] {
      LastBalanceOfStranger(ledger[..|ledger| - 1], id);
    }
  }

  lemma FindUserAppend(users: seq<User>, u: User, id: string)
    requires FindUser(users, id).Some?
    ensures FindUser(users + [u], id) == FindUser(users, id)
  {
    assert (users + [u])[..|users|] == users;
  }

  /** The two inserts of the signup transaction. */
  function AddUser(s: State, u: User, row: LedgerRow): State
  {
    s.(users := s.users + [u], ledger := s.ledger + [row])
  }

  lemma AddUserKeepsOwnership(s: State, u: User, row: LedgerRow)
    requires RowsOwned(s) && row.userId == u.id
    ensures RowsOwned(AddUser(s, u, row))
  {
    var t := AddUser(s, u, row);
    assert t.users[..|s.users|] == s.users;
    forall k | 0 <= k < |t.ledger| ensures FindUser(t.users, t.ledger[k].userId).Some? {
      if k < |s.ledger| {
        assert t.ledger[k] == s.ledger[k];
        FindUserAppend(s.users, u, s.ledger[k].userId);
      } else {
        assert t.users[|s.users|].id == row.userId;
      }
    }
    forall k | 0 <= k < |t.subscriptions| ensures FindUser(t.users, t.subscriptions[k].userId).Some? {
      FindUserAppend(s.users, u, s.subscriptions[k].userId);
    }
  }

  lemma AddUserKeepsBalances(s: State, u: User, row: LedgerRow)
    requires BalancesMatchLedger(s) && RowsOwned(s)
    requires FindUser(s.users, u.id).None? && row.userId == u.id && row.balanceAfter == u.creditsBalance
    ensures BalancesMatchLedger(AddUser(s, u, row))
  {
    var t := AddUser(s, u, row);
    forall k | 0 <= k < |s.ledger| ensures s.ledger[k].userId != u.id {
      assert FindUser(s.users, s.ledger[k].userId).Some?;
    }
    LastBalanceOfStranger(s.ledger, u.id);
    forall k | 0 <= k < |t.users| && LastBalance(t.ledger, t.users[k].id).Some?
      ensures t.users[k].creditsBalance == LastBalance(t.ledger, t.users[k].id).value
    {
      LastBalanceAppend(s.ledger, row, t.users[k].id);
    }
  }

  lemma AddUserKeepsUniqueness(s: State, u: User, row: LedgerRow)
    requires IdsUnique(s.users) && EmailsUnique(s.users) && KeysUnique(s.ledger) && BalancesNonNegative(s.users)
    requires FindUser(s.users, u.id).None? && FindUserByEmail(s.users, u.email).None? && u.creditsBalance >= 0
    requires row.externalId.None? || !KeyUsed(s.ledger, row.externalId.value)
    ensures var t := AddUser(s, u, row);
      IdsUnique(t.users) && EmailsUnique(t.users) && KeysUnique(t.ledger) && BalancesNonNegative(t.users)
  {
  }

  /** Signup keeps the ledger invariant: the new user's balance is what the new row records. */
  lemma SignupKeepsGood(s: State, body: Option<SignupBody>, newId: string, hash: string, now: nat)
    requires Good(s)
    ensures Good(SignupSpec(s, body, newId, hash, now).0)
  {
    var (t, resp) := SignupSpec(s, body, newId, hash, now);
    if resp.Created? {
      var b := body.value;
      var u := User(newId, b.email, if b.name != "" then Some(b.name) else None, hash, SignupBonusCredits);
      var row := LedgerRow(newId, ManualAdjustment, SignupBonusCredits, SignupBonusCredits, Some(BonusKey(b.email, now)));
      assert t == AddUser(s, u, row);
      AddUserKeepsOwnership(s, u, row);
      AddUserKeepsBalances(s, u, row);
      AddUserKeepsUniqueness(s, u, row);
    }
  }
}
