/**
 * The read-only `/api/me` route: the session user's profile and balance,
 * plus that user's most recent subscription when, and only when, it is
 * active.
 */
module Me {
  import opened Wrappers
  import opened Constants
  import opened Ledger

  datatype SubscriptionView = SubscriptionView(status: SubStatus, plan: PlanType, currentPeriodEnd: Option<int>)

  datatype MeResponse =
    | Unauthorized
    | UserNotFound
    | Profile(id: string, email: string, name: Option<string>, creditsBalance: int, subscription: Option<SubscriptionView>)

  function StatusCode(r: MeResponse): int
  {
    match r
    case Unauthorized => 401
    case UserNotFound => 404
    case Profile(_, _, _, _, _) => 200
  }

  /**
   * `findMany({where: {userId}, orderBy: {createdAt: "desc"}, take: 1})`:
   * the user's subscription with the latest `createdAt`; among equal
   * timestamps the one stored first.  The status filter lists every status,
   * so it excludes nothing.
   */
  function Latest(subs: seq<Subscription>, userId: string): (r: Option<nat>)
    ensures r.Some? ==> r.value < |subs| && subs[r.value].userId == userId
    ensures r.Some? ==> forall k :: 0 <= k < |subs| && subs[k].userId == userId ==> subs[k].createdAt <= subs[r.value].createdAt
    ensures r.None? <==> forall k :: 0 <= k < |subs| ==> subs[k].userId != userId
    decreases |subs|
  {
    if subs == [] then None
    else
      var n := |subs| - 1;
      var r := Latest(subs[..n], userId);
      if subs[n].userId == userId && (r.None? || subs[r.value].createdAt < subs[n].createdAt) then Some(n)
      else r
  }

  function View(sub: Subscription): SubscriptionView
  {
    SubscriptionView(sub.status, sub.plan, sub.currentPeriodEnd)
  }

  /** `subscriptions.find(sub => sub.status === "active") || null` over the one-element list. */
  function ActiveSubscription(s: State, userId: string, queryFailed: bool): (r: Option<SubscriptionView>)
    ensures r.Some? ==> r.value.status == Active
  {
    if queryFailed then None
    else match Latest(s.subscriptions, userId)
      case None => None
      case Some(k) => if s.subscriptions[k].status == Active then Some(View(s.subscriptions[k])) else None
  }

  /** `GET`; `sessionUserId` is "" without a session, `queryFailed` says the subscription query threw. */
  function GetMe(s: State, sessionUserId: string, queryFailed: bool): MeResponse
  {
    if sessionUserId == "" then Unauthorized
    else match FindUser(s.users, sessionUserId)
      case None => UserNotFound
      case Some(i) =>
        var u := s.users[i];
        Profile(u.id, u.email, u.name, u.creditsBalance, ActiveSubscription(s, sessionUserId, queryFailed))
  }

  // ------------------------------------------------------------ properties

  /**
   * The profile reports the stored balance exactly; the subscription it
   * reports is the user's most recent one and is active, and when the
   * query succeeds and that most recent one is active it is reported.
   */
  lemma ProfileIsFaithful(s: State, sessionUserId: string, queryFailed: bool)
    ensures var r := GetMe(s, sessionUserId, queryFailed);
      (r == Unauthorized <==> sessionUserId == "")
      && (r == UserNotFound <==> sessionUserId != "" && FindUser(s.users, sessionUserId).None?)
      && (r.Profile? ==>
            var u := s.users[FindUser(s.users, sessionUserId).value];
            r.id == u.id && r.email == u.email && r.name == u.name && r.creditsBalance == u.creditsBalance
            && (queryFailed ==> r.subscription.None?)
            && (r.subscription.Some? ==>
                  exists k :: 0 <= k < |s.subscriptions| && s.subscriptions[k].userId == sessionUserId
                    && s.subscriptions[k].status == Active && View(s.subscriptions[k]) == r.subscription.value
                    && forall j :: 0 <= j < |s.subscriptions| && s.subscriptions[j].userId == sessionUserId ==>
                         s.subscriptions[j].createdAt <= s.subscriptions[k].createdAt)
            && (!queryFailed && Latest(s.subscriptions, sessionUserId).Some?
                && s.subscriptions[Latest(s.subscriptions, sessionUserId).value].status == Active
                ==> r.subscription == Some(View(s.subscriptions[Latest(s.subscriptions, sessionUserId).value]))))
  {
    var r := GetMe(s, sessionUserId, queryFailed);
    if r.Profile? && r.subscription.Some? {
      var k := Latest(s.subscriptions, sessionUserId).value;
      assert s.subscriptions[k].status == Active && View(s.subscriptions[k]) == r.subscription.value;
    }
  }

  /**
   * A subscription that is active and strictly newer than every other
   * subscription of the user is the one reported.
   */
  lemma NewestActiveIsReported(s: State, userId: string, newest: nat)
    requires newest < |s.subscriptions| && s.subscriptions[newest].userId == userId
    requires s.subscriptions[newest].status == Active
    requires forall k :: 0 <= k < |s.subscriptions| && s.subscriptions[k].userId == userId && k != newest ==>
               s.subscriptions[k].createdAt < s.subscriptions[newest].createdAt
    ensures ActiveSubscription(s, userId, false) == Some(View(s.subscriptions[newest]))
  {
    var r := Latest(s.subscriptions, userId);
    assert r.Some?;
    assert r.value == newest;
  }

  /**
   * An older active subscription is never reported when a strictly newer
   * subscription of the user is not active.
   */
  lemma OlderActiveIsHidden(s: State, userId: string, older: nat, newer: nat)
    requires older < |s.subscriptions| && newer < |s.subscriptions|
    requires s.subscriptions[older].userId == userId && s.subscriptions[newer].userId == userId
    requires s.subscriptions[older].status == Active && s.subscriptions[newer].status != Active
    requires forall k :: 0 <= k < |s.subscriptions| && s.subscriptions[k].userId == userId && k != newer ==>
               s.subscriptions[k].createdAt < s.subscriptions[newer].createdAt
    ensures ActiveSubscription(s, userId, false).None?
  {
  }
}
