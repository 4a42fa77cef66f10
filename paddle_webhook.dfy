/**
 * The Paddle webhook.  After the secret and signature checks the event
 * type selects a handler: a completed transaction grants the plan's
 * credits once per transaction id (and upserts the subscription), the
 * subscription events upsert or update the status only.
 */
module PaddleWebhook {
  import opened Wrappers
  import opened Strings
  import opened Constants
  import opened Ledger

  /**
   * The event's `data` object.  `id`, `subscriptionId`, `email`
   * (`customer_email || email`) and `status` are "" when absent;
   * `customerId` keeps its absence because it is written as it is.
   * `plan` is what `extractPlanFromPaddleData` yields for this object.
   */
  datatype PaddleData = PaddleData(
    id: string,
    customerId: Option<string>,
    subscriptionId: string,
    email: string,
    status: string,
    plan: Option<PlanType>)

  /** `event_type || type`, `event_id || id` ("" when absent) and `data`. */
  datatype PaddleEvent = PaddleEvent(eventType: string, eventId: string, data: PaddleData)

  datatype Handler = OnTransactionCompleted | OnSubscriptionCreated | OnSubscriptionUpdated | OnSubscriptionCanceled

  function HandlerFor(eventType: string): (r: Option<Handler>)
    ensures r == Some(OnTransactionCompleted) <==> eventType == "transaction.completed"
    ensures r == Some(OnSubscriptionCreated) <==> eventType == "subscription.created"
    ensures r == Some(OnSubscriptionUpdated) <==> eventType == "subscription.updated"
    ensures r == Some(OnSubscriptionCanceled) <==> eventType in {"subscription.canceled", "subscription.cancelled"}
  {
    match eventType
    case "transaction.completed" => Some(OnTransactionCompleted)
    case "subscription.created" => Some(OnSubscriptionCreated)
    case "subscription.updated" => Some(OnSubscriptionUpdated)
    case "subscription.canceled" => Some(OnSubscriptionCanceled)
    case "subscription.cancelled" => Some(OnSubscriptionCanceled)
    case _ => None
  }

  /** `normalizePaddleStatus`: lower-cases, then maps onto the internal status; empty gives null. */
  function NormalizeStatus(status: string): (r: Option<SubStatus>)
    ensures r.None? <==> status == ""
    ensures r == Some(Active) <==> Lower(status) == "active"
    ensures r == Some(Cancelled) <==> Lower(status) in {"cancelled", "canceled", "expired"}
    ensures r == Some(Unpaid) <==> Lower(status) in {"past_due", "unpaid"}
    ensures r == Some(PaymentFailed) <==> Lower(status) == "payment_failed"
  {
    var s := Lower(status);
    if s == "" then None
    else if s == "active" then Some(Active)
    else if s == "cancelled" || s == "canceled" || s == "expired" then Some(Cancelled)
    else if s == "past_due" || s == "unpaid" then Some(Unpaid)
    else if s == "payment_failed" then Some(PaymentFailed)
    else Some(Inactive)
  }

  /**
   * `subscription.upsert` keyed by the Paddle subscription id.  The update
   * branch also moves the row to `userId`; absent customer and transaction
   * ids leave the stored ones alone.
   */
  function Upsert(subs: seq<Subscription>, userId: string, sid: string, cid: Option<string>, txId: Option<string>,
                  status: SubStatus, plan: PlanType, now: int): (r: seq<Subscription>)
    ensures |subs| <= |r| <= |subs| + 1
    ensures var k := FindSubscription(r, PaddleProcessor, sid);
      k.Some? && r[k.value].userId == userId && r[k.value].status == status && r[k.value].plan == plan
    ensures forall k :: 0 <= k < |subs| && ProcessorId(subs[k], PaddleProcessor) != Some(sid) ==> r[k] == subs[k]
    ensures forall k :: 0 <= k < |r| ==> r[k].userId == userId || (k < |subs| && r[k].userId == subs[k].userId)
  {
    match FindSubscription(subs, PaddleProcessor, sid)
    case Some(k) =>
      var r := subs[k := subs[k].(userId := userId, status := status, plan := plan,
                                  paddleCustomerId := if cid.Some? then cid else subs[k].paddleCustomerId,
                                  paddleTransactionId := if txId.Some? then txId else subs[k].paddleTransactionId)];
      FindSubscriptionSameIds(subs, r, PaddleProcessor, sid);
      r
    case None =>
      var row := Subscription(userId, status, plan, None, None, None, None, Some(sid), cid, txId, now);
      FindSubscriptionAppend(subs, row, PaddleProcessor, sid);
      subs + [row]
  }

  function TransactionKey(txId: string): string
  {
    "paddle_transaction_" + txId
  }

  /** The user an event's lower-cased email designates, if any. */
  function EmailUser(s: State, email: string): Option<nat>
  {
    if Lower(email) == "" then None else FindUserByEmail(s.users, Lower(email))
  }

  /** `handleTransactionCompleted`. */
  function TransactionCompleted(s: State, d: PaddleData, now: int): State
  {
    if d.id == "" || d.status != "completed" then s
    else if KeyUsed(s.ledger, TransactionKey(d.id)) then s
    else match EmailUser(s, d.email)
      case None => s
      case Some(i) =>
        match d.plan
        case None => s
        case Some(plan) =>
          var credits := PlanCredits(plan);
          var newBalance := s.users[i].creditsBalance + credits;
          var s1 := if d.subscriptionId != "" then
            s.(subscriptions := Upsert(s.subscriptions, s.users[i].id, d.subscriptionId, d.customerId, Some(d.id), Active, plan, now))
          else s;
          Transact(s1, i, SubscriptionCredit, credits, newBalance, Some(TransactionKey(d.id)))
  }

  /** `handleSubscriptionCreated`: the status falls back to active only when it is empty. */
  function SubscriptionCreated(s: State, d: PaddleData, now: int): State
  {
    if d.id == "" then s
    else match EmailUser(s, d.email)
      case None => s
      case Some(i) =>
        match d.plan
        case None => s
        case Some(plan) =>
          var status := NormalizeStatus(d.status).GetOr(Active);
          s.(subscriptions := Upsert(s.subscriptions, s.users[i].id, d.id, d.customerId, None, status, plan, now))
  }

  /** `handleSubscriptionUpdated`: an empty status writes nothing. */
  function SubscriptionUpdated(s: State, d: PaddleData): State
  {
    if d.id == "" || d.status == "" then s
    else s.(subscriptions := UpdateStatus(s.subscriptions, PaddleProcessor, d.id, NormalizeStatus(d.status).GetOr(Inactive)))
  }

  /** `handleSubscriptionCanceled`. */
  function SubscriptionCanceled(s: State, d: PaddleData): State
  {
    if d.id == "" then s
    else s.(subscriptions := UpdateStatus(s.subscriptions, PaddleProcessor, d.id, Cancelled))
  }

  function Dispatch(s: State, e: PaddleEvent, now: int): State
  {
    match HandlerFor(e.eventType)
    case None => s
    case Some(OnTransactionCompleted) => TransactionCompleted(s, e.data, now)
    case Some(OnSubscriptionCreated) => SubscriptionCreated(s, e.data, now)
    case Some(OnSubscriptionUpdated) => SubscriptionUpdated(s, e.data)
    case Some(OnSubscriptionCanceled) => SubscriptionCanceled(s, e.data)
  }

  datatype WebhookResponse = SecretNotConfigured | InvalidSignature | ProcessingFailed | Received

  function StatusCode(r: WebhookResponse): int
  {
    match r
    case SecretNotConfigured => 500
    case InvalidSignature => 401
    case ProcessingFailed => 500
    case Received => 200
  }

  /** `POST`; `signatureValid` is the HMAC verdict, `event` is `None` when the body is not JSON. */
  function Post(s: State, secret: string, signatureValid: bool, event: Option<PaddleEvent>, now: int): (State, WebhookResponse)
  {
    if secret == "" then (s, SecretNotConfigured)
    else if !signatureValid then (s, InvalidSignature)
    else if event.None? then (s, ProcessingFailed)
    else (Dispatch(s, event.value, now), Received)
  }

  method HandleWebhook(db: Db, secret: string, signatureValid: bool, event: Option<PaddleEvent>, now: int)
    returns (resp: WebhookResponse)
    modifies db
    ensures (db.Snapshot(), resp) == Post(old(db.Snapshot()), secret, signatureValid, event, now)
  {
    if secret == "" {
      return SecretNotConfigured;
    }
    if !signatureValid {
      return InvalidSignature;
    }
    if event.None? {
      return ProcessingFailed;
    }
    var d := event.value.data;
    var handler := HandlerFor(event.value.eventType);
    if handler == Some(OnTransactionCompleted) {
      if d.id != "" && d.status == "completed" && !KeyUsed(db.ledger, TransactionKey(d.id)) {
        var found := EmailUser(db.Snapshot(), d.email);
        if found.Some? && d.plan.Some? {
          var user := db.users[found.value];
          var credits := PlanCredits(d.plan.value);
          if d.subscriptionId != "" {
            db.subscriptions := Upsert(db.subscriptions, user.id, d.subscriptionId, d.customerId, Some(d.id), Active, d.plan.value, now);
          }
          db.Transaction(found.value, SubscriptionCredit, credits, user.creditsBalance + credits, Some(TransactionKey(d.id)));
        }
      }
    } else if handler == Some(OnSubscriptionCreated) {
      if d.id != "" {
        var found := EmailUser(db.Snapshot(), d.email);
        if found.Some? && d.plan.Some? {
          var status := NormalizeStatus(d.status).GetOr(Active);
          db.subscriptions := Upsert(db.subscriptions, db.users[found.value].id, d.id, d.customerId, None, status, d.plan.value, now);
        }
      }
    } else if handler == Some(OnSubscriptionUpdated) {
      if d.id != "" && d.status != "" {
        db.UpdateMany(PaddleProcessor, d.id, NormalizeStatus(d.status).GetOr(Inactive));
      }
    } else if handler == Some(OnSubscriptionCanceled) {
      if d.id != "" {
        db.UpdateMany(PaddleProcessor, d.id, Cancelled);
      }
    }
    return Received;
  }

  // ------------------------------------------------------------ properties

  /** A non-empty status always normalises, so the "inactive" fallback of an update never applies. */
  lemma UpdateNeverFallsBack(status: string)
    requires status != ""
    ensures NormalizeStatus(status).Some?
  {
  }

  lemma RejectedEventsChangeNothing(s: State, secret: string, signatureValid: bool, event: Option<PaddleEvent>, now: int)
    ensures var (t, resp) := Post(s, secret, signatureValid, event, now);
      (resp != Received ==> t == s)
      && (resp == SecretNotConfigured <==> secret == "")
      && (resp == InvalidSignature <==> secret != "" && !signatureValid)
      && (resp == Received && HandlerFor(event.value.eventType).None? ==> t == s)
  {
  }

  /** The subscription handlers write subscription rows only. */
  lemma SubscriptionHandlersNeverTouchCredits(s: State, e: PaddleEvent, now: int)
    requires HandlerFor(e.eventType) != Some(OnTransactionCompleted)
    ensures Dispatch(s, e, now).users == s.users && Dispatch(s, e, now).ledger == s.ledger
  {
  }

  /**
   * A completed transaction is ignored unless its id is present, its status
   * is exactly "completed", its key is new, a user has its email and the
   * plan is known.  Then that user gains the plan's credits, the one new
   * ledger row records the new balance, and a given subscription id ends
   * up active with the plan and owned by the user.
   */
  lemma TransactionCompletedEffect(s: State, d: PaddleData, now: int)
    ensures var t := TransactionCompleted(s, d, now);
      (d.id == "" || d.status != "completed" || KeyUsed(s.ledger, TransactionKey(d.id))
       || EmailUser(s, d.email).None? || d.plan.None?) ==> t == s
    ensures d.id != "" && d.status == "completed" && !KeyUsed(s.ledger, TransactionKey(d.id))
            && EmailUser(s, d.email).Some? && d.plan.Some? ==>
      var t := TransactionCompleted(s, d, now);
      var i := EmailUser(s, d.email).value;
      var credits := PlanCredits(d.plan.value);
      t.users[i].creditsBalance == s.users[i].creditsBalance + credits
      && t.ledger == s.ledger + [LedgerRow(s.users[i].id, SubscriptionCredit, credits, t.users[i].creditsBalance, Some(TransactionKey(d.id)))]
      && (forall j :: 0 <= j < |s.users| && j != i ==> t.users[j] == s.users[j])
      && (d.subscriptionId != "" ==>
            var k := FindSubscription(t.subscriptions, PaddleProcessor, d.subscriptionId);
            k.Some? && t.subscriptions[k.value].status == Active && t.subscriptions[k.value].plan == d.plan.value
            && t.subscriptions[k.value].userId == s.users[i].id)
  {
  }

  /** A second delivery of the same completed transaction changes nothing at all. */
  lemma TransactionReplayChangesNothing(s: State, d: PaddleData, now: int, later: int)
    ensures var t := TransactionCompleted(s, d, now);
      TransactionCompleted(t, d, later) == t
  {
    var t := TransactionCompleted(s, d, now);
    if d.id != "" && d.status == "completed" && !KeyUsed(s.ledger, TransactionKey(d.id))
       && EmailUser(s, d.email).Some? && d.plan.Some? {
      assert t.ledger[|s.ledger|].externalId == Some(TransactionKey(d.id));
    }
  }

  lemma UpsertKeepsOwnership(s: State, i: nat, sid: string, cid: Option<string>, txId: Option<string>, status: SubStatus, plan: PlanType, now: int)
    requires RowsOwned(s) && i < |s.users|
    ensures RowsOwned(s.(subscriptions := Upsert(s.subscriptions, s.users[i].id, sid, cid, txId, status, plan, now)))
  {
    var r := Upsert(s.subscriptions, s.users[i].id, sid, cid, txId, status, plan, now);
    forall k | 0 <= k < |r| ensures FindUser(s.users, r[k].userId).Some? {
      if r[k].userId != s.users[i].id {
        assert r[k].userId == s.subscriptions[k].userId;
      }
    }
  }

  lemma TransactionCompletedKeepsGood(s: State, d: PaddleData, now: int)
    requires Good(s)
    ensures Good(TransactionCompleted(s, d, now))
  {
    var credited, i, plan, s1 := CompletedShape(s, d, now);
    if credited {
      if d.subscriptionId != "" {
        UpsertKeepsOwnership(s, i, d.subscriptionId, d.customerId, Some(d.id), Active, plan, now);
      }
      CompletedCreditKeepsGood(s, s1, i, plan, d.id);
    }
  }

  /**
   * `handleTransactionCompleted` either writes nothing, or writes the
   * optional subscription row and then one credit transaction.
   */
  lemma CompletedShape(s: State, d: PaddleData, now: int) returns (credited: bool, i: nat, plan: PlanType, s1: State)
    ensures !credited ==> TransactionCompleted(s, d, now) == s
    ensures credited ==>
      i < |s.users| && !KeyUsed(s.ledger, TransactionKey(d.id))
      && (d.subscriptionId != "" ==>
            s1 == s.(subscriptions := Upsert(s.subscriptions, s.users[i].id, d.subscriptionId, d.customerId, Some(d.id), Active, plan, now)))
      && (d.subscriptionId == "" ==> s1 == s)
      && TransactionCompleted(s, d, now)
         == Transact(s1, i, SubscriptionCredit, PlanCredits(plan), s.users[i].creditsBalance + PlanCredits(plan), Some(TransactionKey(d.id)))
  {
    credited, i, plan, s1 := false, 0, Starter, s;
    if d.id != "" && d.status == "completed" && !KeyUsed(s.ledger, TransactionKey(d.id))
       && EmailUser(s, d.email).Some? && d.plan.Some? {
      credited, i, plan := true, EmailUser(s, d.email).value, d.plan.value;
      s1 := if d.subscriptionId != "" then
        s.(subscriptions := Upsert(s.subscriptions, s.users[i].id, d.subscriptionId, d.customerId, Some(d.id), Active, plan, now))
      else s;
    }
  }

  /** The credit of a completed transaction, after the optional subscription write, keeps the invariant. */
  lemma CompletedCreditKeepsGood(s: State, s1: State, i: nat, plan: PlanType, id: string)
    requires Good(s) && i < |s.users| && !KeyUsed(s.ledger, TransactionKey(id))
    requires s1.users == s.users && s1.ledger == s.ledger && RowsOwned(s1)
    ensures Good(Transact(s1, i, SubscriptionCredit, PlanCredits(plan), s1.users[i].creditsBalance + PlanCredits(plan), Some(TransactionKey(id))))
  {
    TransactKeepsGood(s1, i, SubscriptionCredit, PlanCredits(plan), Some(TransactionKey(id)));
  }

  /** Every Paddle event keeps the ledger invariant. */
  lemma WebhookKeepsGood(s: State, secret: string, signatureValid: bool, event: Option<PaddleEvent>, now: int)
    requires Good(s)
    ensures Good(Post(s, secret, signatureValid, event, now).0)
  {
    if secret != "" && signatureValid && event.Some? {
      var d := event.value.data;
      match HandlerFor(event.value.eventType)
      case Some(OnTransactionCompleted) =>
        TransactionCompletedKeepsGood(s, d, now);
      case Some(OnSubscriptionCreated) =>
        if d.id != "" && EmailUser(s, d.email).Some? && d.plan.Some? {
          UpsertKeepsOwnership(s, EmailUser(s, d.email).value, d.id, d.customerId, None,
                               NormalizeStatus(d.status).GetOr(Active), d.plan.value, now);
        }
      case _ =>
    }
  }
}
