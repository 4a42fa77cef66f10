/**
 * The database the billing routes share: users with a credits balance, the
 * append-only credit ledger whose optional `externalId` is an idempotency
 * key (a unique column), and subscriptions upserted by the payment
 * webhooks.  Tables are sequences in insertion order; `findUnique` and
 * `findFirst` return the first matching row.  One `prisma.$transaction`
 * (a balance update plus a ledger insert) is the single step `Transact`.
 */
module Ledger {
  import opened Wrappers
  import opened Constants

  datatype LedgerType = ManualAdjustment | SubscriptionCredit | TranscriptGenerated | ExportUsed

  datatype LedgerRow = LedgerRow(userId: string, kind: LedgerType, amount: int, balanceAfter: int, externalId: Option<string>)

  /** A user row; `password` holds the stored bcrypt hash. */
  datatype User = User(id: string, email: string, name: Option<string>, password: string, creditsBalance: int)

  /** The internal subscription status enum. */
  datatype SubStatus = Active | Inactive | Cancelled | PaymentFailed | Unpaid

  datatype Subscription = Subscription(
    userId: string,
    status: SubStatus,
    plan: PlanType,
    currentPeriodEnd: Option<int>,
    lsSubscriptionId: Option<string>,
    lsCustomerId: Option<string>,
    lsOrderId: Option<string>,
    paddleSubscriptionId: Option<string>,
    paddleCustomerId: Option<string>,
    paddleTransactionId: Option<string>,
    createdAt: int)

  datatype State = State(users: seq<User>, ledger: seq<LedgerRow>, subscriptions: seq<Subscription>)

  // ------------------------------------------------------------- lookups

  /** `user.findUnique({where: {id}})`. */
  function FindUser(users: seq<User>, id: string): (r: Option<nat>)
    ensures r.Some? ==> r.value < |users| && users[r.value].id == id
    ensures r.None? ==> forall k :: 0 <= k < |users| ==> users[k].id != id
    decreases |users|
  {
    if users == [] then None
    else if users[|users| - 1].id == id && FindUser(users[..|users| - 1], id).None? then Some(|users| - 1)
    else FindUser(users[..|users| - 1], id)
  }

  /** `user.findUnique({where: {email}})`. */
  function FindUserByEmail(users: seq<User>, email: string): (r: Option<nat>)
    ensures r.Some? ==> r.value < |users| && users[r.value].email == email
    ensures r.None? ==> forall k :: 0 <= k < |users| ==> users[k].email != email
    decreases |users|
  {
    if users == [] then None
    else if users[|users| - 1].email == email && FindUserByEmail(users[..|users| - 1], email).None? then Some(|users| - 1)
    else FindUserByEmail(users[..|users| - 1], email)
  }

  /** `creditLedger.findUnique({where: {externalId}})` finds a row. */
  predicate KeyUsed(ledger: seq<LedgerRow>, key: string)
  {
    exists k | 0 <= k < |ledger| :: ledger[k].externalId == Some(key)
  }

  /** The balance recorded by the user's most recent ledger row, if any. */
  function LastBalance(ledger: seq<LedgerRow>, userId: string): Option<int>
    decreases |ledger|
  {
    if ledger == [] then None
    else if ledger[|ledger| - 1].userId == userId then Some(ledger[|ledger| - 1].balanceAfter)
    else LastBalance(ledger[..|ledger| - 1], userId)
  }

  // ----------------------------------------------------------- invariant

  predicate IdsUnique(users: seq<User>)
  {
    forall i, j :: 0 <= i < j < |users| ==> users[i].id != users[j].id
  }

  predicate EmailsUnique(users: seq<User>)
  {
    forall i, j :: 0 <= i < j < |users| ==> users[i].email != users[j].email
  }

  /** At most one ledger row per idempotency key. */
  predicate KeysUnique(ledger: seq<LedgerRow>)
  {
    forall i, j :: 0 <= i < j < |ledger| && ledger[i].externalId.Some? ==> ledger[i].externalId != ledger[j].externalId
  }

  /** Every ledger row and every subscription belongs to an existing user. */
  predicate RowsOwned(s: State)
  {
    (forall k :: 0 <= k < |s.ledger| ==> FindUser(s.users, s.ledger[k].userId).Some?)
    && (forall k :: 0 <= k < |s.subscriptions| ==> FindUser(s.users, s.subscriptions[k].userId).Some?)
  }

  /** A user's balance is the `balanceAfter` of the user's most recent ledger row. */
  predicate BalancesMatchLedger(s: State)
  {
    forall k :: 0 <= k < |s.users| && LastBalance(s.ledger, s.users[k].id).Some? ==>
      s.users[k].creditsBalance == LastBalance(s.ledger, s.users[k].id).value
  }

  predicate BalancesNonNegative(users: seq<User>)
  {
    forall k :: 0 <= k < |users| ==> users[k].creditsBalance >= 0
  }

  /** The ledger invariant every route preserves. */
  predicate Good(s: State)
  {
    IdsUnique(s.users) && EmailsUnique(s.users) && KeysUnique(s.ledger) && RowsOwned(s)
    && BalancesMatchLedger(s) && BalancesNonNegative(s.users)
  }

  // --------------------------------------------------------- transaction

  /**
   * `prisma.$transaction([user.update({creditsBalance: newBalance}),
   * creditLedger.create({amount, balanceAfter: newBalance, externalId})])`.
   */
  function Transact(s: State, i: nat, kind: LedgerType, amount: int, newBalance: int, key: Option<string>): State
    requires i < |s.users|
  {
    s.(users := s.users[i := s.users[i].(creditsBalance := newBalance)],
       ledger := s.ledger + [LedgerRow(s.users[i].id, kind, amount, newBalance, key)])
  }

  /** What one transaction writes: the user's new balance and one appended row; nothing else. */
  lemma TransactEffect(s: State, i: nat, kind: LedgerType, amount: int, newBalance: int, key: Option<string>)
    requires i < |s.users|
    ensures var t := Transact(s, i, kind, amount, newBalance, key);
      |t.users| == |s.users| && t.users[i].creditsBalance == newBalance && t.users[i].id == s.users[i].id
      && t.ledger == s.ledger + [LedgerRow(s.users[i].id, kind, amount, newBalance, key)]
      && t.subscriptions == s.subscriptions
      && forall k :: 0 <= k < |s.users| && k != i ==> t.users[k] == s.users[k]
  {
  }

  lemma LastBalanceAppend(ledger: seq<LedgerRow>, row: LedgerRow, userId: string)
    ensures LastBalance(ledger + [row], userId) ==
      if row.userId == userId then Some(row.balanceAfter) else LastBalance(ledger, userId)
  {
    assert (ledger + [row])[..|ledger|] == ledger;
  }

  lemma FindUserUnique(users: seq<User>, k: nat)
    requires IdsUnique(users) && k < |users|
    ensures FindUser(users, users[k].id) == Some(k)
  {
  }

  /** Finding a user by id only looks at ids, so balance updates do not move it. */
  lemma {:induction false} FindUserIgnoresBalances(users: seq<User>, users': seq<User>, id: string)
    requires |users| == |users'|
    requires forall k :: 0 <= k < |users| ==> users[k].id == users'[k].id
    ensures FindUser(users, id) == FindUser(users', id)
    decreases |users|
  {
    if users != [] {
      FindUserIgnoresBalances(users[..|users| - 1], users'[..|users'| - 1], id);
    }
  }

  lemma TransactKeepsOwnership(s: State, i: nat, kind: LedgerType, amount: int, nb: int, key: Option<string>)
    requires RowsOwned(s) && IdsUnique(s.users) && i < |s.users|
    ensures RowsOwned(Transact(s, i, kind, amount, nb, key))
  {
    var t := Transact(s, i, kind, amount, nb, key);
    forall k | 0 <= k < |t.ledger| ensures FindUser(t.users, t.ledger[k].userId).Some? {
      FindUserIgnoresBalances(s.users, t.users, t.ledger[k].userId);
      if k < |s.ledger| {
        assert t.ledger[k] == s.ledger[k];
      } else {
        FindUserUnique(s.users, i);
      }
    }
    forall k | 0 <= k < |t.subscriptions| ensures FindUser(t.users, t.subscriptions[k].userId).Some? {
      FindUserIgnoresBalances(s.users, t.users, t.subscriptions[k].userId);
    }
  }

  lemma TransactKeepsBalances(s: State, i: nat, kind: LedgerType, amount: int, nb: int, key: Option<string>)
    requires BalancesMatchLedger(s) && IdsUnique(s.users) && i < |s.users|
    ensures BalancesMatchLedger(Transact(s, i, kind, amount, nb, key))
    ensures LastBalance(Transact(s, i, kind, amount, nb, key).ledger, s.users[i].id) == Some(nb)
  {
    var t := Transact(s, i, kind, amount, nb, key);
    var row := LedgerRow(s.users[i].id, kind, amount, nb, key);
    assert t.ledger == s.ledger + [row];
    forall k | 0 <= k < |t.users| && LastBalance(t.ledger, t.users[k].id).Some?
      ensures t.users[k].creditsBalance == LastBalance(t.ledger, t.users[k].id).value
    {
      LastBalanceAppend(s.ledger, row, t.users[k].id);
    }
    LastBalanceAppend(s.ledger, row, s.users[i].id);
  }

  lemma TransactKeepsUsers(s: State, i: nat, kind: LedgerType, amount: int, nb: int, key: Option<string>)
    requires IdsUnique(s.users) && EmailsUnique(s.users) && BalancesNonNegative(s.users) && i < |s.users| && nb >= 0
    ensures var t := Transact(s, i, kind, amount, nb, key);
      IdsUnique(t.users) && EmailsUnique(t.users) && BalancesNonNegative(t.users) && t.users[i].creditsBalance == nb
  {
  }

  lemma TransactKeepsKeys(s: State, i: nat, kind: LedgerType, amount: int, nb: int, key: Option<string>)
    requires KeysUnique(s.ledger) && i < |s.users|
    requires key.None? || !KeyUsed(s.ledger, key.value)
    ensures KeysUnique(Transact(s, i, kind, amount, nb, key).ledger)
  {
  }

  /**
   * A credit or debit applied as one transaction, with the balance read
   * from the current row and a fresh key, keeps the ledger invariant:
   * the new balance is the old one plus `amount`, it is what the appended
   * row records, and no other user's balance moves.
   */
  lemma TransactKeepsGood(s: State, i: nat, kind: LedgerType, amount: int, key: Option<string>)
    requires Good(s) && i < |s.users|
    requires key.None? || !KeyUsed(s.ledger, key.value)
    requires s.users[i].creditsBalance + amount >= 0
    ensures var t := Transact(s, i, kind, amount, s.users[i].creditsBalance + amount, key);
      Good(t)
      && t.users[i].creditsBalance == s.users[i].creditsBalance + amount
      && LastBalance(t.ledger, s.users[i].id) == Some(t.users[i].creditsBalance)
  {
    var nb := s.users[i].creditsBalance + amount;
    TransactKeepsUsers(s, i, kind, amount, nb, key);
    TransactKeepsOwnership(s, i, kind, amount, nb, key);
    TransactKeepsBalances(s, i, kind, amount, nb, key);
    TransactKeepsKeys(s, i, kind, amount, nb, key);
    GoodOfParts(Transact(s, i, kind, amount, nb, key));
  }

  lemma GoodOfParts(t: State)
    requires IdsUnique(t.users) && EmailsUnique(t.users) && BalancesNonNegative(t.users)
    requires KeysUnique(t.ledger) && RowsOwned(t) && BalancesMatchLedger(t)
    ensures Good(t)
  {
  }

  // -------------------------------------------------------- subscriptions

  /** Which processor's subscription id column a lookup uses. */
  datatype Processor = LemonSqueezyProcessor | PaddleProcessor

  function ProcessorId(sub: Subscription, p: Processor): Option<string>
  {
    match p
    case LemonSqueezyProcessor => sub.lsSubscriptionId
    case PaddleProcessor => sub.paddleSubscriptionId
  }

  /** `subscription.findUnique({where: {<processor>SubscriptionId: id}})`. */
  function FindSubscription(subs: seq<Subscription>, p: Processor, id: string): (r: Option<nat>)
    ensures r.Some? ==> r.value < |subs| && ProcessorId(subs[r.value], p) == Some(id)
    ensures r.Some? ==> forall k :: 0 <= k < r.value ==> ProcessorId(subs[k], p) != Some(id)
    ensures r.None? ==> forall k :: 0 <= k < |subs| ==> ProcessorId(subs[k], p) != Some(id)
    decreases |subs|
  {
    if subs == [] then None
    else if ProcessorId(subs[0], p) == Some(id) then Some(0)
    else
      var r := FindSubscription(subs[1..], p, id);
      if r.Some? then Some(r.value + 1) else None
  }

  /** A row appended with a new subscription id is what the lookup finds. */
  lemma {:induction false} FindSubscriptionAppend(subs: seq<Subscription>, sub: Subscription, p: Processor, id: string)
    requires FindSubscription(subs, p, id).None? && ProcessorId(sub, p) == Some(id)
    ensures FindSubscription(subs + [sub], p, id) == Some(|subs|)
    decreases |subs|
  {
    if subs != [] {
      assert (subs + [sub])[1..] == subs[1..] + [sub];
      FindSubscriptionAppend(subs[1..], sub, p, id);
    }
  }

  /** A lookup by subscription id only looks at that column. */
  lemma {:induction false} FindSubscriptionSameIds(subs: seq<Subscription>, subs': seq<Subscription>, p: Processor, id: string)
    requires |subs| == |subs'|
    requires forall k :: 0 <= k < |subs| ==> ProcessorId(subs[k], p) == ProcessorId(subs'[k], p)
    ensures FindSubscription(subs, p, id) == FindSubscription(subs', p, id)
    decreases |subs|
  {
    if subs != [] {
      FindSubscriptionSameIds(subs[1..], subs'[1..], p, id);
    }
  }

  /**
   * `subscription.updateMany({where: {<processor>SubscriptionId: id},
   * data: {status}})`: exactly the matching rows get the new status and
   * nothing else about any row changes.
   */
  function UpdateStatus(subs: seq<Subscription>, p: Processor, id: string, status: SubStatus): (r: seq<Subscription>)
    ensures |r| == |subs|
    ensures forall k :: 0 <= k < |subs| ==>
      r[k] == if ProcessorId(subs[k], p) == Some(id) then subs[k].(status := status) else subs[k]
  {
    seq(|subs|, k requires 0 <= k < |subs| =>
      if ProcessorId(subs[k], p) == Some(id) then subs[k].(status := status) else subs[k])
  }

  /** A status-only write keeps the invariant and leaves balances and ledger alone. */
  lemma UpdateStatusKeepsGood(s: State, p: Processor, id: string, status: SubStatus)
    requires Good(s)
    ensures Good(s.(subscriptions := UpdateStatus(s.subscriptions, p, id, status)))
  {
  }

  /** The database connection the route handlers share. */
  class Db {
    var users: seq<User>
    var ledger: seq<LedgerRow>
    var subscriptions: seq<Subscription>

    function Snapshot(): State
      reads this
    {
      State(users, ledger, subscriptions)
    }

    constructor (s: State)
      ensures Snapshot() == s
    {
      users, ledger, subscriptions := s.users, s.ledger, s.subscriptions;
    }

    /** One `$transaction`: the balance update and the ledger insert together. */
    method Transaction(i: nat, kind: LedgerType, amount: int, newBalance: int, key: Option<string>)
      requires i < |users|
      modifies this
      ensures Snapshot() == Transact(old(Snapshot()), i, kind, amount, newBalance, key)
    {
      ledger := ledger + [LedgerRow(users[i].id, kind, amount, newBalance, key)];
      users := users[i := users[i].(creditsBalance := newBalance)];
    }

    /** One `updateMany` on the status column. */
    method UpdateMany(p: Processor, id: string, status: SubStatus)
      modifies this
      ensures Snapshot() == old(Snapshot()).(subscriptions := UpdateStatus(old(subscriptions), p, id, status))
    {
      subscriptions := UpdateStatus(subscriptions, p, id, status);
    }
  }
}
