/**
 * The admin endpoint that grants credits to every user once per run id.
 * Each user's grant is keyed `admin_grant_<runId>_<userId>` in the ledger,
 * so re-running with the same run id skips everyone already credited.
 */
module GrantCredits {
  import opened Wrappers
  import opened Strings
  import opened Ledger

  /**
   * The `x-admin-secret` check.  The environment secret and the header are
   * "" when unset; both must be non-empty and equal.
   */
  predicate Authorized(secret: string, provided: string)
  {
    secret != "" && provided != "" && provided == secret
  }

  lemma AuthorizedMeansMatchingSecret(secret: string, provided: string)
    ensures Authorized(secret, provided) <==> secret != "" && provided == secret
  {
  }

  /**
   * The `amount` field: `None` when it is not a finite number (absent, a
   * string, NaN), in which case it defaults to 5; otherwise it must be an
   * integer in 1..1000.
   */
  function ParseAmount(amount: Option<real>): (r: Option<int>)
    ensures r.Some? ==> 1 <= r.value <= 1000
    ensures amount.None? ==> r == Some(5)
    ensures amount.Some? ==>
      (r.Some? <==> amount.value == amount.value.Floor as real && 0.0 < amount.value <= 1000.0)
    ensures amount.Some? && r.Some? ==> r.value as real == amount.value
  {
    var a := amount.GetOr(5.0);
    if a == a.Floor as real && 0.0 < a && a <= 1000.0 then Some(a.Floor) else None
  }

  const DefaultRunId := "20251226_grant5"

  /** The trimmed `runId` when it is a non-blank string, else the default. */
  function RunId(runId: Option<string>): (r: string)
    ensures runId.Some? && Trim(runId.value) != "" ==> r == Trim(runId.value)
    ensures (runId.None? || Trim(runId.value) == "") ==> r == DefaultRunId
    ensures r != ""
  {
    if runId.Some? && Trim(runId.value) != "" then Trim(runId.value) else DefaultRunId
  }

  function GrantKey(runId: string, userId: string): string
  {
    "admin_grant_" + runId + "_" + userId
  }

  /** Distinct users get distinct keys within one run. */
  lemma GrantKeyInjective(runId: string, a: string, b: string)
    requires GrantKey(runId, a) == GrantKey(runId, b)
    ensures a == b
  {
    var p := "admin_grant_" + runId + "_";
    assert GrantKey(runId, a) == p + a && GrantKey(runId, b) == p + b;
    assert (p + a)[|p|..] == a;
    assert (p + b)[|p|..] == b;
  }

  /**
   * The loop from position `j` of the `findMany` snapshot `snap` on:
   * the final state, the number granted and the number skipped.  A user
   * whose key is in the ledger is skipped; otherwise the snapshot balance
   * plus `amount` is written together with a `manual_adjustment` row.
   */
  function GrantLoop(s: State, snap: seq<User>, j: nat, amount: int, runId: string): (r: (State, nat, nat))
    requires j <= |snap| == |s.users|
    ensures |r.0.users| == |s.users|
    ensures r.1 + r.2 == |snap| - j
    decreases |snap| - j
  {
    if j == |snap| then (s, 0, 0)
    else if KeyUsed(s.ledger, GrantKey(runId, snap[j].id)) then
      var r := GrantLoop(s, snap, j + 1, amount, runId);
      (r.0, r.1, r.2 + 1)
    else
      var t := Transact(s, j, ManualAdjustment, amount, snap[j].creditsBalance + amount,
                        Some(GrantKey(runId, snap[j].id)));
      var r := GrantLoop(t, snap, j + 1, amount, runId);
      (r.0, r.1 + 1, r.2)
  }

  datatype GrantResponse =
    | Unauthorized
    | InvalidAmount
    | Granted(amount: int, runId: string, usersTotal: nat, granted: nat, skipped: nat)

  function StatusCode(r: GrantResponse): int
  {
    match r
    case Unauthorized => 401
    case InvalidAmount => 400
    case Granted(_, _, _, _, _) => 200
  }

  /**
   * The whole route.  An unparsable body counts as `{}`, which is
   * `amount = None, runId = None`.
   */
  function GrantAll(s: State, secret: string, provided: string, amount: Option<real>, runId: Option<string>): (State, GrantResponse)
  {
    if !Authorized(secret, provided) then (s, Unauthorized)
    else if ParseAmount(amount).None? then (s, InvalidAmount)
    else
      var a := ParseAmount(amount).value;
      var id := RunId(runId);
      var r := GrantLoop(s, s.users, 0, a, id);
      (r.0, Granted(a, id, |s.users|, r.1, r.2))
  }

  /** One iteration of the loop, unfolded. */
  lemma GrantLoopStep(s: State, snap: seq<User>, j: nat, amount: int, runId: string)
    requires j < |snap| == |s.users|
    ensures var key := GrantKey(runId, snap[j].id);
      var t := if KeyUsed(s.ledger, key) then s
        else Transact(s, j, ManualAdjustment, amount, snap[j].creditsBalance + amount, Some(key));
      var r := GrantLoop(t, snap, j + 1, amount, runId);
      GrantLoop(s, snap, j, amount, runId)
        == (r.0, r.1 + (if KeyUsed(s.ledger, key) then 0 else 1), r.2 + (if KeyUsed(s.ledger, key) then 1 else 0))
  {
  }

  /** The loop invariant of `Grant` carried over one iteration. */
  lemma GrantLoopAdvance(s0: State, before: State, after: State, snap: seq<User>, j: nat, amount: int, runId: string,
                         granted: nat, skipped: nat)
    requires j < |snap| == |before.users| == |s0.users|
    requires after == if KeyUsed(before.ledger, GrantKey(runId, snap[j].id)) then before
      else Transact(before, j, ManualAdjustment, amount, snap[j].creditsBalance + amount, Some(GrantKey(runId, snap[j].id)))
    requires var used := KeyUsed(before.ledger, GrantKey(runId, snap[j].id));
      var r := GrantLoop(before, snap, j, amount, runId);
      GrantLoop(s0, snap, 0, amount, runId)
        == (r.0, granted - (if used then 0 else 1) + r.1, skipped - (if used then 1 else 0) + r.2)
    ensures |after.users| == |snap|
    ensures var r := GrantLoop(after, snap, j + 1, amount, runId);
      GrantLoop(s0, snap, 0, amount, runId) == (r.0, granted + r.1, skipped + r.2)
  {
    GrantLoopStep(before, snap, j, amount, runId);
  }

  method Grant(db: Db, secret: string, provided: string, amount: Option<real>, runId: Option<string>)
    returns (resp: GrantResponse)
    modifies db
    ensures (db.Snapshot(), resp) == GrantAll(old(db.Snapshot()), secret, provided, amount, runId)
  {
    if !Authorized(secret, provided) {
      return Unauthorized;
    }
    var parsed := ParseAmount(amount);
    if parsed.None? {
      return InvalidAmount;
    }
    var a := parsed.value;
    var id := RunId(runId);
    var total := |db.users|;
    var granted, skipped := GrantEach(db, a, id);
    return Granted(a, id, total, granted, skipped);
  }

  /** The `for` loop over the `findMany` result, granting or skipping each user in turn. */
  method GrantEach(db: Db, a: int, id: string) returns (granted: nat, skipped: nat)
    modifies db
    ensures (db.Snapshot(), granted, skipped) == GrantLoop(old(db.Snapshot()), old(db.users), 0, a, id)
  {
    ghost var s0 := db.Snapshot();
    var users := db.users;
    granted, skipped := 0, 0;
    var i := 0;
    while i < |users|
      invariant 0 <= i <= |users| == |db.users| == |s0.users|
      invariant var r := GrantLoop(db.Snapshot(), users, i, a, id);
        GrantLoop(s0, users, 0, a, id) == (r.0, granted + r.1, skipped + r.2)
    {
      var u := users[i];
      var key := GrantKey(id, u.id);
      var existing := KeyUsed(db.ledger, key);
      ghost var before := db.Snapshot();
      if existing {
        skipped := skipped + 1;
      } else {
        db.Transaction(i, ManualAdjustment, a, u.creditsBalance + a, Some(key));
        granted := granted + 1;
      }
      GrantLoopAdvance(s0, before, db.Snapshot(), users, i, a, id, granted, skipped);
      i := i + 1;
    }
  }

  // ------------------------------------------------------------ properties

  /** Every user from `j` on ends up with their run key in the ledger, and no row is lost. */
  lemma {:induction false} GrantLoopRecordsKeys(s: State, snap: seq<User>, j: nat, amount: int, runId: string)
    requires j <= |snap| == |s.users|
    ensures var t := GrantLoop(s, snap, j, amount, runId).0;
      s.ledger <= t.ledger
      && forall k :: j <= k < |snap| ==> KeyUsed(t.ledger, GrantKey(runId, snap[k].id))
    decreases |snap| - j
  {
    if j < |snap| {
      var key := GrantKey(runId, snap[j].id);
      var t := if KeyUsed(s.ledger, key) then s
        else Transact(s, j, ManualAdjustment, amount, snap[j].creditsBalance + amount, Some(key));
      GrantLoopRecordsKeys(t, snap, j + 1, amount, runId);
      var u := GrantLoop(s, snap, j, amount, runId).0;
      assert u == GrantLoop(t, snap, j + 1, amount, runId).0;
      assert KeyUsed(t.ledger, key) by {
        if !KeyUsed(s.ledger, key) {
          assert t.ledger[|s.ledger|].externalId == Some(key);
        }
      }
      assert KeyUsed(u.ledger, key) by {
        var w :| 0 <= w < |t.ledger| && t.ledger[w].externalId == Some(key);
        assert u.ledger[w] == t.ledger[w];
      }
    }
  }

  /** The loop only writes balances: ids keep their positions. */
  lemma {:induction false} GrantLoopKeepsIds(s: State, snap: seq<User>, j: nat, amount: int, runId: string)
    requires j <= |snap| == |s.users|
    ensures forall k :: 0 <= k < |s.users| ==> GrantLoop(s, snap, j, amount, runId).0.users[k].id == s.users[k].id
    decreases |snap| - j
  {
    if j < |snap| {
      var key := GrantKey(runId, snap[j].id);
      var t := if KeyUsed(s.ledger, key) then s
        else Transact(s, j, ManualAdjustment, amount, snap[j].creditsBalance + amount, Some(key));
      GrantLoopKeepsIds(t, snap, j + 1, amount, runId);
    }
  }

  /** When every remaining key is already present, the loop skips everyone and writes nothing. */
  lemma {:induction false} GrantLoopSkipsAll(s: State, snap: seq<User>, j: nat, amount: int, runId: string)
    requires j <= |snap| == |s.users|
    requires forall k :: j <= k < |snap| ==> KeyUsed(s.ledger, GrantKey(runId, snap[k].id))
    ensures GrantLoop(s, snap, j, amount, runId) == (s, 0, |snap| - j)
    decreases |snap| - j
  {
    if j < |snap| {
      GrantLoopSkipsAll(s, snap, j + 1, amount, runId);
    }
  }

  /**
   * Re-running with the same run id grants nobody and changes nothing:
   * each user is credited at most once per run id.
   */
  lemma RerunGrantsNothing(s: State, secret: string, provided: string, amount: Option<real>, runId: Option<string>)
    requires GrantAll(s, secret, provided, amount, runId).1.Granted?
    ensures var t := GrantAll(s, secret, provided, amount, runId).0;
      GrantAll(t, secret, provided, amount, runId)
        == (t, Granted(ParseAmount(amount).value, RunId(runId), |s.users|, 0, |s.users|))
  {
    var a := ParseAmount(amount).value;
    var id := RunId(runId);
    var t := GrantLoop(s, s.users, 0, a, id).0;
    GrantLoopRecordsKeys(s, s.users, 0, a, id);
    GrantLoopKeepsIds(s, s.users, 0, a, id);
    forall k | 0 <= k < |t.users| ensures KeyUsed(t.ledger, GrantKey(id, t.users[k].id)) {
      assert t.users[k].id == s.users[k].id;
    }
    GrantLoopSkipsAll(t, t.users, 0, a, id);
  }

  /**
   * The loop's effect on balances: a user whose key was absent gains
   * exactly `amount`, a user whose key was present keeps the balance, and
   * users before `j` are untouched.  Needs distinct ids (so distinct keys)
   * and a snapshot that agrees with the table from `j` on.
   */
  lemma {:induction false} GrantLoopBalances(s: State, snap: seq<User>, j: nat, amount: int, runId: string)
    requires j <= |snap| == |s.users|
    requires forall k :: j <= k < |snap| ==> snap[k] == s.users[k]
    requires forall a, b :: j <= a < b < |snap| ==> snap[a].id != snap[b].id
    ensures var t := GrantLoop(s, snap, j, amount, runId).0;
      (forall k :: 0 <= k < j ==> t.users[k] == s.users[k])
      && forall k :: j <= k < |snap| ==>
        t.users[k].creditsBalance == s.users[k].creditsBalance
          + (if KeyUsed(s.ledger, GrantKey(runId, snap[k].id)) then 0 else amount)
    decreases |snap| - j
  {
    if j < |snap| {
      var key := GrantKey(runId, snap[j].id);
      var t := if KeyUsed(s.ledger, key) then s
        else Transact(s, j, ManualAdjustment, amount, snap[j].creditsBalance + amount, Some(key));
      forall k | j + 1 <= k < |snap|
        ensures KeyUsed(t.ledger, GrantKey(runId, snap[k].id)) == KeyUsed(s.ledger, GrantKey(runId, snap[k].id))
      {
        if !KeyUsed(s.ledger, key) {
          var other := GrantKey(runId, snap[k].id);
          if other == key {
            GrantKeyInjective(runId, snap[k].id, snap[j].id);
          }
          assert t.ledger == s.ledger + [t.ledger[|s.ledger|]];
          if KeyUsed(t.ledger, other) {
            var w :| 0 <= w < |t.ledger| && t.ledger[w].externalId == Some(other);
            assert w < |s.ledger|;
            assert s.ledger[w] == t.ledger[w];
          }
          if KeyUsed(s.ledger, other) {
            var w :| 0 <= w < |s.ledger| && s.ledger[w].externalId == Some(other);
            assert t.ledger[w] == s.ledger[w];
          }
        }
      }
      GrantLoopBalances(t, snap, j + 1, amount, runId);
    }
  }

  /** The route's promise for each user, stated from the state before the call. */
  lemma GrantAllBalances(s: State, secret: string, provided: string, amount: Option<real>, runId: Option<string>, k: nat)
    requires Good(s) && k < |s.users|
    requires GrantAll(s, secret, provided, amount, runId).1.Granted?
    ensures GrantAll(s, secret, provided, amount, runId).0.users[k].creditsBalance
      == s.users[k].creditsBalance
        + (if KeyUsed(s.ledger, GrantKey(RunId(runId), s.users[k].id)) then 0 else ParseAmount(amount).value)
  {
    GrantLoopBalances(s, s.users, 0, ParseAmount(amount).value, RunId(runId));
  }

  /** One granted user keeps the invariant and the rest of the snapshot in step. */
  lemma GrantStepKeepsGood(s: State, snap: seq<User>, j: nat, amount: int, runId: string)
    requires j < |snap| == |s.users| && Good(s) && amount > 0
    requires snap[j] == s.users[j]
    requires !KeyUsed(s.ledger, GrantKey(runId, snap[j].id))
    ensures var t := Transact(s, j, ManualAdjustment, amount, snap[j].creditsBalance + amount, Some(GrantKey(runId, snap[j].id)));
      Good(t) && forall k :: 0 <= k < |s.users| && k != j ==> t.users[k] == s.users[k]
  {
    var key := Some(GrantKey(runId, snap[j].id));
    assert snap[j].creditsBalance == s.users[j].creditsBalance;
    TransactKeepsGood(s, j, ManualAdjustment, amount, key);
    TransactEffect(s, j, ManualAdjustment, amount, s.users[j].creditsBalance + amount, key);
  }

  /** The grant loop keeps the ledger invariant. */
  lemma {:induction false} GrantLoopKeepsGood(s: State, snap: seq<User>, j: nat, amount: int, runId: string)
    requires j <= |snap| == |s.users| && Good(s) && amount > 0
    requires forall k :: j <= k < |snap| ==> snap[k] == s.users[k]
    ensures Good(GrantLoop(s, snap, j, amount, runId).0)
    decreases |snap| - j
  {
    if j < |snap| {
      var key := GrantKey(runId, snap[j].id);
      if KeyUsed(s.ledger, key) {
        GrantLoopKeepsGood(s, snap, j + 1, amount, runId);
      } else {
        GrantStepKeepsGood(s, snap, j, amount, runId);
        var t := Transact(s, j, ManualAdjustment, amount, snap[j].creditsBalance + amount, Some(key));
        GrantLoopKeepsGood(t, snap, j + 1, amount, runId);
      }
    }
  }

  /**
   * The route keeps the invariant and reports `granted + skipped ==
   * usersTotal`; a refused request changes nothing.
   */
  lemma GrantAllKeepsGood(s: State, secret: string, provided: string, amount: Option<real>, runId: Option<string>)
    requires Good(s)
    ensures var (t, resp) := GrantAll(s, secret, provided, amount, runId);
      Good(t)
      && (resp.Granted? ==> resp.granted + resp.skipped == resp.usersTotal == |s.users|)
      && (!resp.Granted? ==> t == s)
      && (resp == Unauthorized <==> !Authorized(secret, provided))
  {
    if Authorized(secret, provided) && ParseAmount(amount).Some? {
      GrantLoopKeepsGood(s, s.users, 0, ParseAmount(amount).value, RunId(runId));
    }
  }
}
