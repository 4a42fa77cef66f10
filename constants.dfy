/** Plans, their monthly credits and their prices (lib/constants.ts). */
module Constants {
  import opened Wrappers

  /** `PlanType`: the keys of the credits table, and nothing else. */
  datatype PlanType = Starter | Pro | Plus

  /** `PLAN_CREDITS`. */
  function PlanCredits(p: PlanType): nat
  {
    match p
    case Starter => 100
    case Pro => 200
    case Plus => 500
  }

  /** `PLAN_PRICES`, in dollars. */
  function PlanPrice(p: PlanType): nat
  {
    match p
    case Starter => 5
    case Pro => 10
    case Plus => 15
  }

  /** The plan's name as stored in the database and sent in requests. */
  function PlanName(p: PlanType): string
  {
    match p
    case Starter => "starter"
    case Pro => "pro"
    case Plus => "plus"
  }

  /** Membership in `["starter", "pro", "plus"]`. */
  function ParsePlan(s: string): (r: Option<PlanType>)
    ensures r.Some? <==> s in {"starter", "pro", "plus"}
    ensures r.Some? ==> PlanName(r.value) == s
  {
    if s == "starter" then Some(Starter)
    else if s == "pro" then Some(Pro)
    else if s == "plus" then Some(Plus)
    else None
  }

  /** Rank of a plan, cheapest first. */
  function Rank(p: PlanType): nat
  {
    match p
    case Starter => 0
    case Pro => 1
    case Plus => 2
  }

  /** A dearer plan always buys strictly more credits at a strictly higher price. */
  lemma CreditsAndPricesIncrease(p: PlanType, q: PlanType)
    requires Rank(p) < Rank(q)
    ensures PlanCredits(p) < PlanCredits(q) && PlanPrice(p) < PlanPrice(q)
  {
  }

  /** Every plan name parses back to its plan, and only the three names parse. */
  lemma PlanNameRoundTrip(p: PlanType)
    ensures ParsePlan(PlanName(p)) == Some(p)
  {
  }

  /**
   * Processor ids configured per plan through the environment
   * (`..._STARTER_ID`, `..._PRO_ID`, `..._PLUS_ID`); "" when unset.
   */
  datatype ConfiguredIds = ConfiguredIds(starter: string, pro: string, plus: string)

  /**
   * The id-to-plan record both payment libraries fill: one entry per set
   * variable, assigned in the order starter, pro, plus, so a later plan
   * overwrites an earlier one configured with the same id.
   */
  function IdMap(ids: ConfiguredIds): (m: map<string, PlanType>)
    ensures "" !in m
    ensures forall k :: k in m <==> k != "" && k in {ids.starter, ids.pro, ids.plus}
  {
    var m0: map<string, PlanType> := map[];
    var m1 := if ids.starter != "" then m0[ids.starter := Starter] else m0;
    var m2 := if ids.pro != "" then m1[ids.pro := Pro] else m1;
    if ids.plus != "" then m2[ids.plus := Plus] else m2
  }

  /** The id configured for a plan ("" when unset). */
  function IdFor(ids: ConfiguredIds, p: PlanType): string
  {
    match p
    case Starter => ids.starter
    case Pro => ids.pro
    case Plus => ids.plus
  }

  /** With distinct configured ids, the record maps each id back to its own plan. */
  lemma IdMapInverts(ids: ConfiguredIds, p: PlanType)
    requires IdFor(ids, p) != ""
    requires ids.starter != ids.pro && ids.pro != ids.plus && ids.starter != ids.plus
    ensures IdFor(ids, p) in IdMap(ids) && IdMap(ids)[IdFor(ids, p)] == p
  {
  }
}
