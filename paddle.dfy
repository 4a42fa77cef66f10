/**
 * Plan mapping of the Paddle library (lib/paddle.ts).
 * `verifyPaddleSignature` is an HMAC-SHA256 comparison; the webhook model
 * receives its verdict as a boolean.  `getCreditsForPlan` is
 * `Constants.PlanCredits`.
 */
module Paddle {
  import opened Wrappers
  import opened Strings
  import opened Constants
  import LemonSqueezy

  /**
   * `mapPaddlePriceToPlanType`: a configured price id wins; otherwise the
   * lower-cased product name is tested for "starter", then "pro", then "plus".
   */
  function PricePlan(ids: ConfiguredIds, priceId: Option<string>, productName: string): Option<PlanType>
  {
    var idStr := LemonSqueezy.IdString(priceId);
    if idStr in IdMap(ids) then Some(IdMap(ids)[idStr])
    else if productName != "" then
      var nameLower := Lower(productName);
      if Contains(nameLower, "starter") then Some(Starter)
      else if Contains(nameLower, "pro") then Some(Pro)
      else if Contains(nameLower, "plus") then Some(Plus)
      else None
    else None
  }

  /**
   * The Paddle chain of conditional returns and the Lemon Squeezy table loop
   * are the same mapping: same id precedence, same name order, same null.
   */
  lemma PricePlanAgreesWithVariantPlan(ids: ConfiguredIds, id: Option<string>, name: string)
    ensures PricePlan(ids, id, name) == LemonSqueezy.VariantPlan(ids, id, name)
  {
    var n := Lower(name);
    var e := LemonSqueezy.NameEntries;
    assert e[1..] == [("pro", Pro), ("plus", Plus)];
    assert e[1..][1..] == [("plus", Plus)];
    assert e[1..][1..][1..] == [];
  }

  /** A configured price id decides the plan whatever the product name says. */
  lemma PriceIdTakesPrecedence(ids: ConfiguredIds, priceId: Option<string>, productName: string)
    requires LemonSqueezy.IdString(priceId) in IdMap(ids)
    ensures PricePlan(ids, priceId, productName) == Some(IdMap(ids)[LemonSqueezy.IdString(priceId)])
  {
  }

  /** Unmatched id and no plan word in the name: null. */
  lemma PricePlanNull(ids: ConfiguredIds, priceId: Option<string>, productName: string)
    ensures PricePlan(ids, priceId, productName) == None <==>
      LemonSqueezy.IdString(priceId) !in IdMap(ids) &&
      (productName == "" || (!Contains(Lower(productName), "starter") && !Contains(Lower(productName), "pro")
                             && !Contains(Lower(productName), "plus")))
  {
  }
}
