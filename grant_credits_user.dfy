/**
 * The admin endpoint that grants credits to one user found by email.
 * The idempotency key embeds the request time, so it only guards against
 * a replay of the very same millisecond.
 */
module GrantCreditsUser {
  import opened Wrappers
  import opened Strings
  import opened Ledger
  import GrantCredits

  /** The JSON body: `email` is `None` unless it is a string, `amount` unless a finite number. */
  datatype Body = Body(email: Option<string>, amount: Option<real>)

  datatype UserGrantResponse =
    | Unauthorized
    | InvalidJson
    | EmailRequired
    | InvalidAmount
    | UserNotFound
    | AlreadyGranted(email: string, name: Option<string>, currentBalance: int, amount: int)
    | Granted(email: string, name: Option<string>, previousBalance: int, newBalance: int, amount: int)

  function StatusCode(r: UserGrantResponse): int
  {
    match r
    case Unauthorized => 401
    case InvalidJson => 400
    case EmailRequired => 400
    case InvalidAmount => 400
    case UserNotFound => 404
    case AlreadyGranted(_, _, _, _) => 200
    case Granted(_, _, _, _, _) => 200
  }

  /** The normalised email: trimmed then lower-cased; "" when it is missing or blank. */
  function NormalizedEmail(email: Option<string>): (r: string)
    ensures r == "" <==> email.None? || Trim(email.value) == ""
  {
    if email.Some? then Lower(Trim(email.value)) else ""
  }

  /** `admin_grant_grant_<now>_<userId>`. */
  function UserGrantKey(now: nat, userId: string): string
  {
    "admin_grant_" + "grant_" + NatToString(now) + "_" + userId
  }

  /** In a digit string followed by "_", the first "_" sits right after the digits. */
  lemma FirstUnderscore(a: string, x: string)
    requires AllDigits(a)
    ensures IndexOfChar(a + "_" + x, '_') == |a|
  {
    var s := a + "_" + x;
    assert s[|a|] == '_';
    var i := IndexOfChar(s, '_');
    assert forall k :: 0 <= k < |a| ==> s[k] == a[k];
    assert i >= |a|;
  }

  lemma DigitsThenUnderscore(a: string, b: string, x: string, y: string)
    requires AllDigits(a) && AllDigits(b)
    requires a + "_" + x == b + "_" + y
    ensures a == b && x == y
  {
    var l := a + "_" + x;
    var r := b + "_" + y;
    FirstUnderscore(a, x);
    FirstUnderscore(b, y);
    assert a == l[..|a|] == r[..|b|] == b;
    assert x == l[|a| + 1..] && y == r[|b| + 1..];
  }

  /**
   * Different request times or different users give different keys, so a
   * retry of the same grant a millisecond later credits the user again.
   */
  lemma UserGrantKeyInjective(now: nat, now': nat, a: string, b: string)
    requires UserGrantKey(now, a) == UserGrantKey(now', b)
    ensures now == now' && a == b
  {
    var p := "admin_grant_" + "grant_";
    var ra := NatToString(now) + "_" + a;
    var rb := NatToString(now') + "_" + b;
    assert UserGrantKey(now, a) == p + ra;
    assert UserGrantKey(now', b) == p + rb;
    assert (p + ra)[|p|..] == ra;
    assert (p + rb)[|p|..] == rb;
    DigitsThenUnderscore(NatToString(now), NatToString(now'), a, b);
    NatToStringInjective(now, now');
  }

  /** The route; `body` is `None` when the request body is not JSON, `now` is `Date.now()`. */
  function GrantUser(s: State, secret: string, provided: string, body: Option<Body>, now: nat): (State, UserGrantResponse)
  {
    if !GrantCredits.Authorized(secret, provided) then (s, Unauthorized)
    else if body.None? then (s, InvalidJson)
    else
      var email := NormalizedEmail(body.value.email);
      if email == "" then (s, EmailRequired)
      else if GrantCredits.ParseAmount(body.value.amount).None? then (s, InvalidAmount)
      else
        var amount := GrantCredits.ParseAmount(body.value.amount).value;
        match FindUserByEmail(s.users, email)
        case None => (s, UserNotFound)
        case Some(i) => GrantFound(s, i, amount, now)
  }

  /** The part of the route after the user is found: refuse a repeated key, else write. */
  function GrantFound(s: State, i: nat, amount: int, now: nat): (State, UserGrantResponse)
    requires i < |s.users|
  {
    var u := s.users[i];
    var key := UserGrantKey(now, u.id);
    if KeyUsed(s.ledger, key) then (s, AlreadyGranted(u.email, u.name, u.creditsBalance, amount))
    else
      var nb := u.creditsBalance + amount;
      (Transact(s, i, ManualAdjustment, amount, nb, Some(key)), Granted(u.email, u.name, u.creditsBalance, nb, amount))
  }

  method GrantToUser(db: Db, secret: string, provided: string, body: Option<Body>, now: nat)
    returns (resp: UserGrantResponse)
    modifies db
    ensures (db.Snapshot(), resp) == GrantUser(old(db.Snapshot()), secret, provided, body, now)
  {
    if !GrantCredits.Authorized(secret, provided) {
      return Unauthorized;
    }
    if body.None? {
      return InvalidJson;
    }
    var email := NormalizedEmail(body.value.email);
    if email == "" {
      return EmailRequired;
    }
    var parsed := GrantCredits.ParseAmount(body.value.amount);
    if parsed.None? {
      return InvalidAmount;
    }
    var amount := parsed.value;
    var found := FindUserByEmail(db.users, email);
    if found.None? {
      return UserNotFound;
    }
    resp := GrantFoundUser(db, found.value, amount, now);
  }

  method GrantFoundUser(db: Db, i: nat, amount: int, now: nat) returns (resp: UserGrantResponse)
    requires i < |db.users|
    modifies db
    ensures (db.Snapshot(), resp) == GrantFound(old(db.Snapshot()), i, amount, now)
  {
    var u := db.users[i];
    var key := UserGrantKey(now, u.id);
    if KeyUsed(db.ledger, key) {
      return AlreadyGranted(u.email, u.name, u.creditsBalance, amount);
    }
    var newBalance := u.creditsBalance + amount;
    db.Transaction(i, ManualAdjustment, amount, newBalance, Some(key));
    return Granted(u.email, u.name, u.creditsBalance, newBalance, amount);
  }

  // ------------------------------------------------------------ properties

  /**
   * Every refusal leaves the database as it was, and the admin check comes
   * before the body is looked at.
   */
  lemma RefusalsChangeNothing(s: State, secret: string, provided: string, body: Option<Body>, now: nat)
    ensures var (t, resp) := GrantUser(s, secret, provided, body, now);
      (!resp.Granted? ==> t == s)
      && (resp == Unauthorized <==> !GrantCredits.Authorized(secret, provided))
      && (resp == UserNotFound ==> FindUserByEmail(s.users, NormalizedEmail(body.value.email)).None?)
  {
    if GrantCredits.Authorized(secret, provided) && body.Some? {
      var email := NormalizedEmail(body.value.email);
      var amount := GrantCredits.ParseAmount(body.value.amount);
      if email != "" && amount.Some? {
        var found := FindUserByEmail(s.users, email);
        if found.Some? {
          var u := s.users[found.value];
          assert GrantUser(s, secret, provided, body, now).1 ==
            if KeyUsed(s.ledger, UserGrantKey(now, u.id)) then AlreadyGranted(u.email, u.name, u.creditsBalance, amount.value)
            else Granted(u.email, u.name, u.creditsBalance, u.creditsBalance + amount.value, amount.value);
        }
      }
    }
  }

  /**
   * A grant adds `amount` to the user found by the normalised email, appends
   * exactly one row recording the new balance, reports the balances it
   * wrote, and keeps the ledger invariant.
   */
  lemma GrantedEffect(s: State, secret: string, provided: string, body: Option<Body>, now: nat)
    requires Good(s)
    requires GrantUser(s, secret, provided, body, now).1.Granted?
    ensures var (t, resp) := GrantUser(s, secret, provided, body, now);
      var i := FindUserByEmail(s.users, NormalizedEmail(body.value.email)).value;
      Good(t)
      && 1 <= resp.amount <= 1000
      && resp.previousBalance == s.users[i].creditsBalance
      && resp.newBalance == resp.previousBalance + resp.amount
      && t.users[i].creditsBalance == resp.newBalance
      && t.ledger == s.ledger + [LedgerRow(s.users[i].id, ManualAdjustment, resp.amount, resp.newBalance, Some(UserGrantKey(now, s.users[i].id)))]
      && (forall k :: 0 <= k < |s.users| && k != i ==> t.users[k] == s.users[k])
  {
    var i, amount := GrantedShape(s, secret, provided, body, now);
    var key := UserGrantKey(now, s.users[i].id);
    var nb := s.users[i].creditsBalance + amount;
    TransactKeepsGood(s, i, ManualAdjustment, amount, Some(key));
    TransactEffect(s, i, ManualAdjustment, amount, nb, Some(key));
  }

  /** A granting request names a known user and a valid amount, and is one transaction. */
  lemma GrantedShape(s: State, secret: string, provided: string, body: Option<Body>, now: nat) returns (i: nat, amount: int)
    requires GrantUser(s, secret, provided, body, now).1.Granted?
    ensures body.Some? && FindUserByEmail(s.users, NormalizedEmail(body.value.email)) == Some(i)
    ensures GrantCredits.ParseAmount(body.value.amount) == Some(amount) && 1 <= amount <= 1000
    ensures i < |s.users| && !KeyUsed(s.ledger, UserGrantKey(now, s.users[i].id))
    ensures GrantUser(s, secret, provided, body, now)
      == (Transact(s, i, ManualAdjustment, amount, s.users[i].creditsBalance + amount, Some(UserGrantKey(now, s.users[i].id))),
          Granted(s.users[i].email, s.users[i].name, s.users[i].creditsBalance, s.users[i].creditsBalance + amount, amount))
  {
    assert GrantCredits.Authorized(secret, provided) && body.Some?;
    var email := NormalizedEmail(body.value.email);
    var parsed := GrantCredits.ParseAmount(body.value.amount);
    assert email != "" && parsed.Some?;
    var found := FindUserByEmail(s.users, email);
    assert found.Some?;
    i, amount := found.value, parsed.value;
    assert GrantUser(s, secret, provided, body, now) == GrantFound(s, i, amount, now);
    assert !KeyUsed(s.ledger, UserGrantKey(now, s.users[i].id));
  }

  /** The "already granted" answer comes exactly when that request's key is in the ledger. */
  lemma AlreadyGrantedOnlyForSameKey(s: State, secret: string, provided: string, body: Option<Body>, now: nat)
    requires body.Some? && GrantCredits.Authorized(secret, provided)
    requires GrantCredits.ParseAmount(body.value.amount).Some?
    requires FindUserByEmail(s.users, NormalizedEmail(body.value.email)).Some? && NormalizedEmail(body.value.email) != ""
    ensures var i := FindUserByEmail(s.users, NormalizedEmail(body.value.email)).value;
      var granted := GrantUser(s, secret, provided, body, now).1.AlreadyGranted?;
      granted <==> KeyUsed(s.ledger, UserGrantKey(now, s.users[i].id))
  {
  }
}
