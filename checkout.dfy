/**
 * The Lemon Squeezy checkout route: base-URL resolution, the variant id
 * for a plan, plan validation, the checkout request it sends and the
 * checkout URL it picks from the reply.  The session and the API call are
 * inputs; environment variables are parameters ("" when unset).
 */
module Checkout {
  import opened Wrappers
  import opened Strings
  import opened Constants

  /** `s.replace(/\/$/, "")`: removes one trailing "/". */
  function StripSlash(s: string): (r: string)
    ensures EndsWith(s, "/") ==> s == r + "/"
    ensures !EndsWith(s, "/") ==> r == s
  {
    if EndsWith(s, "/") then s[..|s| - 1] else s
  }

  /** `a || b` on strings. */
  function Or(a: string, b: string): string
  {
    if a != "" then a else b
  }

  /** The environment and request headers `getBaseUrl` reads. */
  datatype BaseInputs = BaseInputs(siteUrl: string, nextAuthUrl: string, forwardedHost: string, host: string,
                                   forwardedProto: string, vercelUrl: string)

  /** `getBaseUrl`. */
  function BaseUrl(e: BaseInputs): string
  {
    var explicit := Or(e.siteUrl, e.nextAuthUrl);
    if explicit != "" then StripSlash(explicit)
    else
      var host := Or(e.forwardedHost, e.host);
      var proto := Or(e.forwardedProto, "https");
      if host != "" then StripSlash(proto + "://" + host)
      else if e.vercelUrl != "" then StripSlash("https://" + e.vercelUrl)
      else "http://localhost:3000"
  }

  /** The signed-in user, when there is one; "" stands for a missing field. */
  datatype Session = Session(userId: string, email: string)

  /** The checkout the route asks the API to create. */
  datatype CheckoutRequest = CheckoutRequest(storeId: string, variantId: string, email: string, userId: string,
                                             plan: PlanType, redirectUrl: string)

  /**
   * The API's answer: the call threw, answered with a non-OK status, or
   * answered OK with these attributes ("" when missing).
   */
  datatype Reply = Threw | NotOk(status: int) | Ok(url: string, checkoutUrl: string, redirectUrl: string)

  datatype Response =
    | NotConfigured
    | Unauthorized
    | InvalidPlan
    | VariantMissing(plan: PlanType)
    | CheckoutFailed(status: int)
    | UrlMissing
    | Created(checkoutUrl: string)
    | ServerError

  function StatusCode(r: Response): int
  {
    match r
    case NotConfigured => 500
    case Unauthorized => 401
    case InvalidPlan => 400
    case VariantMissing(_) => 500
    case CheckoutFailed(status) => status
    case UrlMissing => 500
    case Created(_) => 200
    case ServerError => 500
  }

  /** The success page the checkout returns to. */
  function RedirectUrl(e: BaseInputs): string
  {
    BaseUrl(e) + "/account?payment=success"
  }

  /**
   * `POST /api/lemonsqueezy/checkout`: the response and the checkout
   * request sent, `None` when the route answers before calling the API.
   * `plan` is `body.plan || ""`.
   */
  function Checkout(apiKey: string, storeId: string, session: Option<Session>, plan: string, ids: ConfiguredIds,
                    e: BaseInputs, reply: Reply): (Response, Option<CheckoutRequest>)
  {
    if apiKey == "" || storeId == "" then (NotConfigured, None)
    else if session.None? || session.value.userId == "" || session.value.email == "" then (Unauthorized, None)
    else
      var p := ParsePlan(plan);
      if p.None? then (InvalidPlan, None)
      else
        var variantId := IdFor(ids, p.value);
        if variantId == "" then (VariantMissing(p.value), None)
        else
          var request := CheckoutRequest(storeId, variantId, session.value.email, session.value.userId, p.value, RedirectUrl(e));
          var response := match reply
            case Threw => ServerError
            case NotOk(status) => CheckoutFailed(status)
            case Ok(url, checkoutUrl, redirectUrl) =>
              var chosen := Or(url, Or(checkoutUrl, redirectUrl));
              if chosen == "" then UrlMissing else Created(chosen);
          (response, Some(request))
  }

  // ------------------------------------------------------------ properties

  /** Exactly one trailing "/" is removed: a URL ending in "//" keeps one. */
  lemma StripSlashRemovesOne(s: string)
    ensures StripSlash(s + "/") == s
    ensures EndsWith(s, "/") ==> EndsWith(StripSlash(s + "/"), "/")
  {
    assert (s + "/")[..|s|] == s;
  }

  /**
   * Resolution order: an explicit site URL, then NEXTAUTH_URL, then the
   * forwarded or plain host header with the forwarded protocol (https by
   * default), then the Vercel URL, then localhost.
   */
  lemma BaseUrlPrecedence(e: BaseInputs)
    ensures e.siteUrl != "" ==> BaseUrl(e) == StripSlash(e.siteUrl)
    ensures e.siteUrl == "" && e.nextAuthUrl != "" ==> BaseUrl(e) == StripSlash(e.nextAuthUrl)
    ensures e.siteUrl == "" && e.nextAuthUrl == "" && e.forwardedHost != "" ==>
      BaseUrl(e) == StripSlash(Or(e.forwardedProto, "https") + "://" + e.forwardedHost)
    ensures e.siteUrl == "" && e.nextAuthUrl == "" && e.forwardedHost == "" && e.host != "" ==>
      BaseUrl(e) == StripSlash(Or(e.forwardedProto, "https") + "://" + e.host)
    ensures e.siteUrl == "" && e.nextAuthUrl == "" && e.forwardedHost == "" && e.host == "" ==>
      BaseUrl(e) == (if e.vercelUrl != "" then StripSlash("https://" + e.vercelUrl) else "http://localhost:3000")
  {
  }

  /** The API is only called for a configured, signed-in request naming a known plan with a configured variant. */
  lemma RequestOnlyWhenValid(apiKey: string, storeId: string, session: Option<Session>, plan: string,
                             ids: ConfiguredIds, e: BaseInputs, reply: Reply)
    ensures var (r, req) := Checkout(apiKey, storeId, session, plan, ids, e, reply);
      req.Some? <==> apiKey != "" && storeId != "" && session.Some? && session.value.userId != ""
                     && session.value.email != "" && ParsePlan(plan).Some? && IdFor(ids, ParsePlan(plan).value) != ""
  {
  }

  /**
   * The request carries the signed-in user, the plan's own variant id
   * and the success redirect under the resolved base URL.
   */
  lemma RequestContents(apiKey: string, storeId: string, session: Option<Session>, plan: string,
                        ids: ConfiguredIds, e: BaseInputs, reply: Reply)
    requires Checkout(apiKey, storeId, session, plan, ids, e, reply).1.Some?
    ensures var req := Checkout(apiKey, storeId, session, plan, ids, e, reply).1.value;
      req.userId == session.value.userId && req.email == session.value.email
      && PlanName(req.plan) == plan && req.variantId == IdFor(ids, req.plan) && req.variantId != ""
      && req.redirectUrl == BaseUrl(e) + "/account?payment=success" && req.storeId == storeId
  {
  }

  /** The checkout URL is the reply's `url`, else `checkout_url`, else `redirect_url`; none of them is a 500. */
  lemma CheckoutUrlSelection(apiKey: string, storeId: string, s: Session, plan: string, ids: ConfiguredIds,
                             e: BaseInputs, url: string, checkoutUrl: string, redirectUrl: string)
    requires apiKey != "" && storeId != "" && s.userId != "" && s.email != ""
    requires ParsePlan(plan).Some? && IdFor(ids, ParsePlan(plan).value) != ""
    ensures var r := Checkout(apiKey, storeId, Some(s), plan, ids, e, Ok(url, checkoutUrl, redirectUrl)).0;
      (url != "" ==> r == Created(url))
      && (url == "" && checkoutUrl != "" ==> r == Created(checkoutUrl))
      && (url == "" && checkoutUrl == "" && redirectUrl != "" ==> r == Created(redirectUrl))
      && (url == "" && checkoutUrl == "" && redirectUrl == "" ==> r == UrlMissing && StatusCode(r) == 500)
  {
  }

  /** A failed API call is answered with the API's own status. */
  lemma FailedCallStatusPassedThrough(apiKey: string, storeId: string, s: Session, plan: string, ids: ConfiguredIds,
                                      e: BaseInputs, status: int)
    requires apiKey != "" && storeId != "" && s.userId != "" && s.email != ""
    requires ParsePlan(plan).Some? && IdFor(ids, ParsePlan(plan).value) != ""
    ensures StatusCode(Checkout(apiKey, storeId, Some(s), plan, ids, e, NotOk(status)).0) == status
  {
  }
}
