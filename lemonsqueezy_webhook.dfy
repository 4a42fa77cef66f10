/**
 * The Lemon Squeezy webhook.  After the secret and signature checks the
 * event name (underscore or dot spelling) selects one of five handlers:
 * subscription creation (upsert plus first credits), status updates,
 * renewal payments (credits), payment failures and cancellations.
 * Credit grants are keyed in the ledger so that a replayed event that
 * carries the same ids grants nothing more.
 */
module LemonSqueezyWebhook {
  import opened Wrappers
  import opened Strings
  import opened Constants
  import opened Ledger
  import LemonSqueezy

  /**
   * The event's `data` object.  String fields are "" when absent (all of
   * them are tested for JavaScript truthiness); `orderId` and `variantId`
   * are passed on as they are, so their absence is kept.
   */
  datatype LsData = LsData(
    id: string,
    customerId: string,
    orderId: Option<string>,
    variantId: Option<string>,
    variantName: string,
    renewsAt: Option<int>,
    status: string,
    subscriptionId: string,
    invoiceId: string)

  /** `meta.event_name || event_name`, `meta.event_id` ("" when absent) and `data`. */
  datatype LsEvent = LsEvent(name: string, eventId: string, data: LsData)

  datatype Handler = OnCreated | OnUpdated | OnPaymentSuccess | OnPaymentFailed | OnCancelled

  /** The `switch` on the event name. */
  function HandlerFor(name: string): (r: Option<Handler>)
    ensures r == Some(OnCreated) <==> name in {"subscription_created", "subscription.created"}
    ensures r == Some(OnUpdated) <==> name in {"subscription_updated", "subscription.updated"}
    ensures r == Some(OnPaymentSuccess) <==> name in {"subscription_payment_success", "subscription.payment_success"}
    ensures r == Some(OnPaymentFailed) <==> name in {"subscription_payment_failed", "subscription.payment_failed"}
    ensures r == Some(OnCancelled) <==> name in {"subscription_cancelled", "subscription.cancelled"}
  {
    match name
    case "subscription_created" => Some(OnCreated)
    case "subscription.created" => Some(OnCreated)
    case "subscription_updated" => Some(OnUpdated)
    case "subscription.updated" => Some(OnUpdated)
    case "subscription_payment_success" => Some(OnPaymentSuccess)
    case "subscription.payment_success" => Some(OnPaymentSuccess)
    case "subscription_payment_failed" => Some(OnPaymentFailed)
    case "subscription.payment_failed" => Some(OnPaymentFailed)
    case "subscription_cancelled" => Some(OnCancelled)
    case "subscription.cancelled" => Some(OnCancelled)
    case _ => None
  }

  /** Lemon Squeezy's subscription status mapped to the internal one. */
  function MapStatus(status: string): (r: SubStatus)
    ensures r == Active <==> status == "active"
    ensures r == Cancelled <==> status == "cancelled" || status == "expired"
    ensures r == Unpaid <==> status == "past_due" || status == "unpaid"
    ensures r != PaymentFailed
  {
    if status == "active" then Active
    else if status == "cancelled" || status == "expired" then Cancelled
    else if status == "past_due" || status == "unpaid" then Unpaid
    else Inactive
  }

  /** 30 days in milliseconds: the period end used when `renews_at` is missing. */
  const DefaultPeriod := 30 * 24 * 60 * 60 * 1000

  /** The user at `i` has a subscription row carrying this Lemon Squeezy customer id. */
  predicate HasCustomerSub(s: State, i: nat, customerId: string)
    requires i < |s.users|
  {
    exists k :: 0 <= k < |s.subscriptions| && s.subscriptions[k].userId == s.users[i].id
                && s.subscriptions[k].lsCustomerId == Some(customerId)
  }

  /** `user.findFirst` over users having a subscription with this customer id. */
  function FindUserByCustomer(s: State, customerId: string): (r: Option<nat>)
    ensures r.Some? ==> r.value < |s.users| && HasCustomerSub(s, r.value, customerId)
    ensures r.Some? ==> forall j :: 0 <= j < r.value ==> !HasCustomerSub(s, j, customerId)
    ensures r.None? <==> forall j :: 0 <= j < |s.users| ==> !HasCustomerSub(s, j, customerId)
  {
    FirstCustomer(s, customerId, 0)
  }

  function FirstCustomer(s: State, customerId: string, i: nat): (r: Option<nat>)
    requires i <= |s.users|
    ensures r.Some? ==> i <= r.value < |s.users| && HasCustomerSub(s, r.value, customerId)
    ensures r.Some? ==> forall j :: i <= j < r.value ==> !HasCustomerSub(s, j, customerId)
    ensures r.None? <==> forall j :: i <= j < |s.users| ==> !HasCustomerSub(s, j, customerId)
    decreases |s.users| - i
  {
    if i == |s.users| then None
    else if HasCustomerSub(s, i, customerId) then Some(i)
    else FirstCustomer(s, customerId, i + 1)
  }

  /**
   * `subscription.upsert` keyed by the Lemon Squeezy subscription id: the
   * existing row becomes active with the new plan, period end, customer and
   * (when given) order; otherwise a new active row for the user is added.
   */
  function Upsert(subs: seq<Subscription>, userId: string, sid: string, cid: string, orderId: Option<string>,
                  plan: PlanType, periodEnd: int, now: int): (r: seq<Subscription>)
    ensures |subs| <= |r| <= |subs| + 1
    ensures var k := FindSubscription(r, LemonSqueezyProcessor, sid);
      k.Some? && r[k.value].status == Active && r[k.value].plan == plan
      && r[k.value].currentPeriodEnd == Some(periodEnd) && r[k.value].lsCustomerId == Some(cid)
    ensures forall k :: 0 <= k < |subs| && ProcessorId(subs[k], LemonSqueezyProcessor) != Some(sid) ==> r[k] == subs[k]
    ensures forall k :: 0 <= k < |subs| ==> r[k].userId == subs[k].userId
    ensures forall k :: |subs| <= k < |r| ==> r[k].userId == userId
    ensures |r| == |subs| + 1 <==> FindSubscription(subs, LemonSqueezyProcessor, sid).None?
  {
    match FindSubscription(subs, LemonSqueezyProcessor, sid)
    case Some(k) =>
      var r := subs[k := subs[k].(status := Active, plan := plan, currentPeriodEnd := Some(periodEnd), lsCustomerId := Some(cid),
                                  lsOrderId := if orderId.Some? then orderId else subs[k].lsOrderId)];
      FindSubscriptionSameIds(subs, r, LemonSqueezyProcessor, sid);
      r
    case None =>
      assert FindSubscription(subs + [Subscription(userId, Active, plan, Some(periodEnd), Some(sid), Some(cid), orderId, None, None, None, now)], LemonSqueezyProcessor, sid) == Some(|subs|) by {
        FindSubscriptionAppend(subs, Subscription(userId, Active, plan, Some(periodEnd), Some(sid), Some(cid), orderId, None, None, None, now), LemonSqueezyProcessor, sid);
      }
      subs + [Subscription(userId, Active, plan, Some(periodEnd), Some(sid), Some(cid), orderId, None, None, None, now)]
  }

  function CreatedKey(sid: string, eventId: string, now: nat): string
  {
    "subscription_created_" + sid + "_" + (if eventId != "" then eventId else NatToString(now))
  }

  function PaymentKey(sid: string, invoiceId: string, eventId: string, now: nat): string
  {
    "payment_success_" + sid + "_" + (if invoiceId != "" then invoiceId else if eventId != "" then eventId else NatToString(now))
  }

  /** Credits the user unless the key is already in the ledger. */
  function CreditOnce(s: State, i: nat, credits: int, key: string): State
    requires i < |s.users|
  {
    if KeyUsed(s.ledger, key) then s
    else Transact(s, i, SubscriptionCredit, credits, s.users[i].creditsBalance + credits, Some(key))
  }

  /** `handleSubscriptionCreated`. */
  function Created(s: State, ids: ConfiguredIds, d: LsData, eventId: string, now: nat): State
  {
    if d.id == "" || d.customerId == "" then s
    else match FindUserByCustomer(s, d.customerId)
      case None => s
      case Some(i) =>
        match LemonSqueezy.VariantPlan(ids, d.variantId, d.variantName)
        case None => s
        case Some(plan) =>
          var periodEnd := if d.renewsAt.Some? then d.renewsAt.value else now + DefaultPeriod;
          var s1 := s.(subscriptions := Upsert(s.subscriptions, s.users[i].id, d.id, d.customerId, d.orderId, plan, periodEnd, now));
          CreditOnce(s1, i, PlanCredits(plan), CreatedKey(d.id, eventId, now))
  }

  /** `handleSubscriptionUpdated`. */
  function Updated(s: State, d: LsData): State
  {
    if d.id == "" || d.status == "" then s
    else s.(subscriptions := UpdateStatus(s.subscriptions, LemonSqueezyProcessor, d.id, MapStatus(d.status)))
  }

  /** The subscription id of a payment event: `attributes.subscription_id || id`. */
  function PaymentSubscriptionId(d: LsData): string
  {
    if d.subscriptionId != "" then d.subscriptionId else d.id
  }

  /** `handlePaymentSuccess`: credits only an existing, active subscription's owner. */
  function Paid(s: State, d: LsData, eventId: string, now: nat): State
  {
    var sid := PaymentSubscriptionId(d);
    if sid == "" then s
    else match FindSubscription(s.subscriptions, LemonSqueezyProcessor, sid)
      case None => s
      case Some(k) =>
        var sub := s.subscriptions[k];
        if sub.status != Active then s
        else match FindUser(s.users, sub.userId)
          case None => s
          case Some(i) => CreditOnce(s, i, PlanCredits(sub.plan), PaymentKey(sid, d.invoiceId, eventId, now))
  }

  /** `handlePaymentFailed`. */
  function Failed(s: State, d: LsData): State
  {
    var sid := PaymentSubscriptionId(d);
    if sid == "" then s
    else s.(subscriptions := UpdateStatus(s.subscriptions, LemonSqueezyProcessor, sid, PaymentFailed))
  }

  /** `handleSubscriptionCancelled`. */
  function CancelledHandler(s: State, d: LsData): State
  {
    if d.id == "" then s
    else s.(subscriptions := UpdateStatus(s.subscriptions, LemonSqueezyProcessor, d.id, Cancelled))
  }

  datatype WebhookResponse = SecretNotConfigured | InvalidSignature | ProcessingFailed | Received

  function StatusCode(r: WebhookResponse): int
  {
    match r
    case SecretNotConfigured => 500
    case InvalidSignature => 401
    case ProcessingFailed => 500
    case Received => 200
  }

  /** Runs the handler the event name selects; unknown events change nothing. */
  function Dispatch(s: State, ids: ConfiguredIds, e: LsEvent, now: nat): State
  {
    match HandlerFor(e.name)
    case None => s
    case Some(OnCreated) => Created(s, ids, e.data, e.eventId, now)
    case Some(OnUpdated) => Updated(s, e.data)
    case Some(OnPaymentSuccess) => Paid(s, e.data, e.eventId, now)
    case Some(OnPaymentFailed) => Failed(s, e.data)
    case Some(OnCancelled) => CancelledHandler(s, e.data)
  }

  /**
   * `POST`.  `signatureValid` is the HMAC verdict on the raw body;
   * `event` is `None` when the body is not JSON (the parse throws and the
   * route answers 500).
   */
  function Post(s: State, ids: ConfiguredIds, secret: string, signatureValid: bool, event: Option<LsEvent>, now: nat): (State, WebhookResponse)
  {
    if secret == "" then (s, SecretNotConfigured)
    else if !signatureValid then (s, InvalidSignature)
    else if event.None? then (s, ProcessingFailed)
    else (Dispatch(s, ids, event.value, now), Received)
  }

  method HandleWebhook(db: Db, ids: ConfiguredIds, secret: string, signatureValid: bool, event: Option<LsEvent>, now: nat)
    returns (resp: WebhookResponse)
    modifies db
    ensures (db.Snapshot(), resp) == Post(old(db.Snapshot()), ids, secret, signatureValid, event, now)
  {
    if secret == "" {
      return SecretNotConfigured;
    }
    if !signatureValid {
      return InvalidSignature;
    }
    if event.None? {
      return ProcessingFailed;
    }
    var e := event.value;
    var d := e.data;
    var handler := HandlerFor(e.name);
    if handler == Some(OnCreated) {
      RunCreated(db, ids, d, e.eventId, now);
    } else if handler == Some(OnUpdated) {
      if d.id != "" && d.status != "" {
        db.UpdateMany(LemonSqueezyProcessor, d.id, MapStatus(d.status));
      }
    } else if handler == Some(OnPaymentSuccess) {
      RunPaid(db, d, e.eventId, now);
    } else if handler == Some(OnPaymentFailed) {
      var sid := PaymentSubscriptionId(d);
      if sid != "" {
        db.UpdateMany(LemonSqueezyProcessor, sid, PaymentFailed);
      }
    } else if handler == Some(OnCancelled) {
      if d.id != "" {
        db.UpdateMany(LemonSqueezyProcessor, d.id, Cancelled);
      }
    }
    return Received;
  }

  /** `handleSubscriptionCreated` against the database. */
  method RunCreated(db: Db, ids: ConfiguredIds, d: LsData, eventId: string, now: nat)
    modifies db
    ensures db.Snapshot() == Created(old(db.Snapshot()), ids, d, eventId, now)
  {
    if d.id == "" || d.customerId == "" {
      return;
    }
    var found := FindUserByCustomer(db.Snapshot(), d.customerId);
    if found.None? {
      return;
    }
    var plan := LemonSqueezy.VariantPlan(ids, d.variantId, d.variantName);
    if plan.None? {
      return;
    }
    var periodEnd := if d.renewsAt.Some? then d.renewsAt.value else now + DefaultPeriod;
    var user := db.users[found.value];
    db.subscriptions := Upsert(db.subscriptions, user.id, d.id, d.customerId, d.orderId, plan.value, periodEnd, now);
    var key := CreatedKey(d.id, eventId, now);
    if !KeyUsed(db.ledger, key) {
      var credits := PlanCredits(plan.value);
      db.Transaction(found.value, SubscriptionCredit, credits, user.creditsBalance + credits, Some(key));
    }
  }

  /** `handlePaymentSuccess` against the database. */
  method RunPaid(db: Db, d: LsData, eventId: string, now: nat)
    modifies db
    ensures db.Snapshot() == Paid(old(db.Snapshot()), d, eventId, now)
  {
    var sid := PaymentSubscriptionId(d);
    if sid == "" {
      return;
    }
    var k := FindSubscription(db.subscriptions, LemonSqueezyProcessor, sid);
    if k.None? || db.subscriptions[k.value].status != Active {
      return;
    }
    var sub := db.subscriptions[k.value];
    var i := FindUser(db.users, sub.userId);
    if i.None? {
      return;
    }
    var key := PaymentKey(sid, d.invoiceId, eventId, now);
    if !KeyUsed(db.ledger, key) {
      var credits := PlanCredits(sub.plan);
      db.Transaction(i.value, SubscriptionCredit, credits, db.users[i.value].creditsBalance + credits, Some(key));
    }
  }

  // ------------------------------------------------------------ properties

  /**
   * Nothing is written unless the secret is configured, the signature
   * verifies, the body parses and the event name is one of the handled
   * ones; a missing secret is reported before the signature is looked at.
   */
  lemma RejectedEventsChangeNothing(s: State, ids: ConfiguredIds, secret: string, signatureValid: bool, event: Option<LsEvent>, now: nat)
    ensures var (t, resp) := Post(s, ids, secret, signatureValid, event, now);
      (resp != Received ==> t == s)
      && (resp == SecretNotConfigured <==> secret == "")
      && (resp == InvalidSignature <==> secret != "" && !signatureValid)
      && (resp == Received && HandlerFor(event.value.name).None? ==> t == s)
  {
  }

  /**
   * Status updates, payment failures and cancellations rewrite only the
   * status of the rows carrying that subscription id: balances and the
   * ledger are never touched.
   */
  lemma StatusHandlersNeverTouchCredits(s: State, ids: ConfiguredIds, e: LsEvent, now: nat)
    requires HandlerFor(e.name) in {Some(OnUpdated), Some(OnPaymentFailed), Some(OnCancelled)}
    ensures var t := Dispatch(s, ids, e, now);
      t.users == s.users && t.ledger == s.ledger
      && (t.subscriptions == s.subscriptions
          || exists sid: string, st: SubStatus :: sid != "" && t.subscriptions == UpdateStatus(s.subscriptions, LemonSqueezyProcessor, sid, st))
  {
  }

  /** After a credit attempt the key is in the ledger and no earlier row is lost. */
  lemma {:induction false} CreditOnceRecordsKey(s: State, i: nat, credits: int, key: string)
    requires i < |s.users|
    ensures var t := CreditOnce(s, i, credits, key);
      KeyUsed(t.ledger, key) && s.ledger <= t.ledger && t.subscriptions == s.subscriptions
  {
    if !KeyUsed(s.ledger, key) {
      var t := CreditOnce(s, i, credits, key);
      assert t.ledger[|s.ledger|].externalId == Some(key);
    } else {
      var t := CreditOnce(s, i, credits, key);
      assert t == s;
    }
  }

  /**
   * `subscription_created` writes nothing when the subscription id or the
   * customer id is missing, no user holds that customer id, or the plan
   * cannot be determined.  Otherwise the subscription is active with that
   * plan and the user's balance rises by the plan's credits, unless the
   * event's key was already in the ledger.
   */
  lemma CreatedEffect(s: State, ids: ConfiguredIds, d: LsData, eventId: string, now: nat)
    ensures var t := Created(s, ids, d, eventId, now);
      (d.id == "" || d.customerId == "" || FindUserByCustomer(s, d.customerId).None?
       || LemonSqueezy.VariantPlan(ids, d.variantId, d.variantName).None?) ==> t == s
    ensures d.id != "" && d.customerId != "" && FindUserByCustomer(s, d.customerId).Some?
            && LemonSqueezy.VariantPlan(ids, d.variantId, d.variantName).Some? ==>
      var t := Created(s, ids, d, eventId, now);
      var i := FindUserByCustomer(s, d.customerId).value;
      var plan := LemonSqueezy.VariantPlan(ids, d.variantId, d.variantName).value;
      var k := FindSubscription(t.subscriptions, LemonSqueezyProcessor, d.id);
      k.Some? && t.subscriptions[k.value].status == Active && t.subscriptions[k.value].plan == plan
      && |t.users| == |s.users|
      && t.users[i].creditsBalance == s.users[i].creditsBalance
           + (if KeyUsed(s.ledger, CreatedKey(d.id, eventId, now)) then 0 else PlanCredits(plan))
      && (forall j :: 0 <= j < |s.users| && j != i ==> t.users[j] == s.users[j])
  {
  }

  /**
   * `subscription_payment_success` credits only the owner of an existing
   * subscription whose status is active, by that plan's credits, once per key.
   */
  lemma PaidOnlyWhenActive(s: State, d: LsData, eventId: string, now: nat)
    ensures var t := Paid(s, d, eventId, now);
      var sid := PaymentSubscriptionId(d);
      var k := FindSubscription(s.subscriptions, LemonSqueezyProcessor, sid);
      (t != s ==> sid != "" && k.Some? && s.subscriptions[k.value].status == Active)
      && t.subscriptions == s.subscriptions
    ensures var sid := PaymentSubscriptionId(d);
      var k := FindSubscription(s.subscriptions, LemonSqueezyProcessor, sid);
      sid != "" && k.Some? && s.subscriptions[k.value].status == Active
        && FindUser(s.users, s.subscriptions[k.value].userId).Some?
        && !KeyUsed(s.ledger, PaymentKey(sid, d.invoiceId, eventId, now)) ==>
      var t := Paid(s, d, eventId, now);
      var i := FindUser(s.users, s.subscriptions[k.value].userId).value;
      t.users[i].creditsBalance == s.users[i].creditsBalance + PlanCredits(s.subscriptions[k.value].plan)
      && |t.ledger| == |s.ledger| + 1
      && t.ledger[|s.ledger|].balanceAfter == t.users[i].creditsBalance
  {
  }

  lemma UpsertKeepsOwnership(s: State, i: nat, sid: string, cid: string, orderId: Option<string>, plan: PlanType, periodEnd: int, now: int)
    requires RowsOwned(s) && i < |s.users|
    ensures RowsOwned(s.(subscriptions := Upsert(s.subscriptions, s.users[i].id, sid, cid, orderId, plan, periodEnd, now)))
  {
    var r := Upsert(s.subscriptions, s.users[i].id, sid, cid, orderId, plan, periodEnd, now);
    forall k | 0 <= k < |r| ensures FindUser(s.users, r[k].userId).Some? {
      if k < |s.subscriptions| {
        assert r[k].userId == s.subscriptions[k].userId;
      } else {
        assert r[k].userId == s.users[i].id;
      }
    }
  }

  lemma CreditOnceKeepsGood(s: State, i: nat, credits: nat, key: string)
    requires Good(s) && i < |s.users|
    ensures Good(CreditOnce(s, i, credits, key))
  {
    if KeyUsed(s.ledger, key) {
      assert CreditOnce(s, i, credits, key) == s;
    } else {
      TransactKeepsGood(s, i, SubscriptionCredit, credits, Some(key));
      assert CreditOnce(s, i, credits, key)
        == Transact(s, i, SubscriptionCredit, credits, s.users[i].creditsBalance + credits, Some(key));
    }
  }

  lemma CreatedKeepsGood(s: State, ids: ConfiguredIds, d: LsData, eventId: string, now: nat)
    requires Good(s)
    ensures Good(Created(s, ids, d, eventId, now))
  {
    if d.id != "" && d.customerId != "" && FindUserByCustomer(s, d.customerId).Some?
       && LemonSqueezy.VariantPlan(ids, d.variantId, d.variantName).Some? {
      var i := FindUserByCustomer(s, d.customerId).value;
      var plan := LemonSqueezy.VariantPlan(ids, d.variantId, d.variantName).value;
      var periodEnd := if d.renewsAt.Some? then d.renewsAt.value else now + DefaultPeriod;
      UpsertKeepsOwnership(s, i, d.id, d.customerId, d.orderId, plan, periodEnd, now);
      var s1 := s.(subscriptions := Upsert(s.subscriptions, s.users[i].id, d.id, d.customerId, d.orderId, plan, periodEnd, now));
      CreditOnceKeepsGood(s1, i, PlanCredits(plan), CreatedKey(d.id, eventId, now));
    }
  }

  lemma PaidKeepsGood(s: State, d: LsData, eventId: string, now: nat)
    requires Good(s)
    ensures Good(Paid(s, d, eventId, now))
  {
    var sid := PaymentSubscriptionId(d);
    if sid != "" && FindSubscription(s.subscriptions, LemonSqueezyProcessor, sid).Some? {
      var sub := s.subscriptions[FindSubscription(s.subscriptions, LemonSqueezyProcessor, sid).value];
      if sub.status == Active && FindUser(s.users, sub.userId).Some? {
        CreditOnceKeepsGood(s, FindUser(s.users, sub.userId).value, PlanCredits(sub.plan), PaymentKey(sid, d.invoiceId, eventId, now));
      }
    }
  }

  /** Every Lemon Squeezy event keeps the ledger invariant. */
  lemma WebhookKeepsGood(s: State, ids: ConfiguredIds, secret: string, signatureValid: bool, event: Option<LsEvent>, now: nat)
    requires Good(s)
    ensures Good(Post(s, ids, secret, signatureValid, event, now).0)
  {
    if secret != "" && signatureValid && event.Some? {
      var e := event.value;
      match HandlerFor(e.name)
      case Some(OnCreated) => CreatedKeepsGood(s, ids, e.data, e.eventId, now);
      case Some(OnPaymentSuccess) => PaidKeepsGood(s, e.data, e.eventId, now);
      case Some(OnUpdated) =>
        UpdateStatusKeepsGood(s, LemonSqueezyProcessor, e.data.id, MapStatus(e.data.status));
      case Some(OnPaymentFailed) =>
        UpdateStatusKeepsGood(s, LemonSqueezyProcessor, PaymentSubscriptionId(e.data), PaymentFailed);
      case Some(OnCancelled) =>
        UpdateStatusKeepsGood(s, LemonSqueezyProcessor, e.data.id, Cancelled);
      case None =>
    }
  }

  /**
   * Replaying an event that carries an event id, at any later time, grants
   * no further credits: the second delivery finds its key in the ledger.
   */
  lemma ReplayGrantsNothing(s: State, ids: ConfiguredIds, secret: string, e: LsEvent, now: nat, later: nat)
    requires e.eventId != ""
    ensures var t := Post(s, ids, secret, true, Some(e), now).0;
      var u := Post(t, ids, secret, true, Some(e), later).0;
      u.users == t.users && u.ledger == t.ledger
  {
    if secret != "" {
      match HandlerFor(e.name)
      case Some(OnCreated) => CreatedReplay(s, ids, e.data, e.eventId, now, later);
      case Some(OnPaymentSuccess) => PaidReplay(s, e.data, e.eventId, now, later);
      case _ =>
    }
  }

  lemma CreatedReplay(s: State, ids: ConfiguredIds, d: LsData, eventId: string, now: nat, later: nat)
    requires eventId != ""
    ensures var t := Created(s, ids, d, eventId, now);
      var u := Created(t, ids, d, eventId, later);
      u.users == t.users && u.ledger == t.ledger
  {
    var t := Created(s, ids, d, eventId, now);
    assert CreatedKey(d.id, eventId, later) == CreatedKey(d.id, eventId, now);
    if d.id != "" && d.customerId != "" && FindUserByCustomer(s, d.customerId).Some?
       && LemonSqueezy.VariantPlan(ids, d.variantId, d.variantName).Some? {
      var i := FindUserByCustomer(s, d.customerId).value;
      var plan := LemonSqueezy.VariantPlan(ids, d.variantId, d.variantName).value;
      var periodEnd := if d.renewsAt.Some? then d.renewsAt.value else now + DefaultPeriod;
      var s1 := s.(subscriptions := Upsert(s.subscriptions, s.users[i].id, d.id, d.customerId, d.orderId, plan, periodEnd, now));
      CreditOnceRecordsKey(s1, i, PlanCredits(plan), CreatedKey(d.id, eventId, now));
    }
  }

  lemma PaidReplay(s: State, d: LsData, eventId: string, now: nat, later: nat)
    requires eventId != ""
    ensures var t := Paid(s, d, eventId, now);
      var u := Paid(t, d, eventId, later);
      u.users == t.users && u.ledger == t.ledger
  {
    var sid := PaymentSubscriptionId(d);
    assert PaymentKey(sid, d.invoiceId, eventId, later) == PaymentKey(sid, d.invoiceId, eventId, now);
    if sid != "" && FindSubscription(s.subscriptions, LemonSqueezyProcessor, sid).Some? {
      var sub := s.subscriptions[FindSubscription(s.subscriptions, LemonSqueezyProcessor, sid).value];
      if sub.status == Active && FindUser(s.users, sub.userId).Some? {
        CreditOnceRecordsKey(s, FindUser(s.users, sub.userId).value, PlanCredits(sub.plan), PaymentKey(sid, d.invoiceId, eventId, now));
      }
    }
  }
}
