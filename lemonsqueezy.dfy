/**
 * Plan mapping of the Lemon Squeezy library (lib/lemonsqueezy.ts).
 * `verifyLemonSqueezySignature` is an HMAC-SHA256 comparison; the webhook
 * model receives its verdict as a boolean.  `getCreditsForPlan` is
 * `Constants.PlanCredits`.
 */
module LemonSqueezy {
  import opened Wrappers
  import opened Strings
  import opened Constants

  /** `variantNameMap`, in insertion order (the order `Object.entries` yields). */
  const NameEntries: seq<(string, PlanType)> := [("starter", Starter), ("pro", Pro), ("plus", Plus)]

  /** `String(variantId)`: an absent id prints as "undefined". */
  function IdString(variantId: Option<string>): string
  {
    match variantId
    case Some(s) => s
    case None => "undefined"
  }

  /** The plan of the first entry whose key occurs in `name`. */
  function FirstNameHit(name: string, entries: seq<(string, PlanType)>): Option<PlanType>
    decreases |entries|
  {
    if entries == [] then None
    else if Contains(name, entries[0].0) then Some(entries[0].1)
    else FirstNameHit(name, entries[1..])
  }

  /**
   * `mapLemonSqueezyPlanToPlanType`: a configured variant id wins; otherwise
   * the first of starter, pro, plus found in the lower-cased variant name;
   * otherwise null.  An empty variant name is JavaScript-falsy and skipped.
   */
  function VariantPlan(ids: ConfiguredIds, variantId: Option<string>, variantName: string): Option<PlanType>
  {
    var idStr := IdString(variantId);
    if idStr in IdMap(ids) then Some(IdMap(ids)[idStr])
    else if variantName != "" then FirstNameHit(Lower(variantName), NameEntries)
    else None
  }

  /** The source's loop over the name table with its early return. */
  method MapLemonSqueezyPlanToPlanType(ids: ConfiguredIds, variantId: Option<string>, variantName: string)
    returns (r: Option<PlanType>)
    ensures r == VariantPlan(ids, variantId, variantName)
  {
    var variantIdMap := IdMap(ids);
    var idStr := IdString(variantId);
    if idStr in variantIdMap {
      return Some(variantIdMap[idStr]);
    }
    if variantName != "" {
      var nameLower := Lower(variantName);
      var i := 0;
      while i < |NameEntries|
        invariant 0 <= i <= |NameEntries|
        invariant FirstNameHit(nameLower, NameEntries) == FirstNameHit(nameLower, NameEntries[i..])
      {
        var (key, value) := NameEntries[i];
        if Contains(nameLower, key) {
          return Some(value);
        }
        i := i + 1;
      }
    }
    return None;
  }

  /**
   * The name fallback yields plan `p` exactly when some entry's key occurs in
   * the name with plan `p` and no earlier entry's key does.
   */
  lemma {:induction false} FirstNameHitIsFirst(name: string, entries: seq<(string, PlanType)>, p: PlanType)
    ensures FirstNameHit(name, entries) == Some(p) <==>
      exists k :: 0 <= k < |entries| && Contains(name, entries[k].0) && entries[k].1 == p
        && forall j :: 0 <= j < k ==> !Contains(name, entries[j].0)
    decreases |entries|
  {
    if entries != [] {
      FirstNameHitIsFirst(name, entries[1..], p);
      if FirstNameHit(name, entries) == Some(p) && !Contains(name, entries[0].0) {
        var k :| 0 <= k < |entries[1..]| && Contains(name, entries[1..][k].0) && entries[1..][k].1 == p
          && forall j :: 0 <= j < k ==> !Contains(name, entries[1..][j].0);
        assert forall j :: 0 <= j < k + 1 ==> !Contains(name, entries[j].0) by {
          forall j | 0 <= j < k + 1 ensures !Contains(name, entries[j].0) {
            if j > 0 { assert entries[j] == entries[1..][j - 1]; }
          }
        }
      }
      if exists k :: 0 <= k < |entries| && Contains(name, entries[k].0) && entries[k].1 == p
          && forall j :: 0 <= j < k ==> !Contains(name, entries[j].0) {
        var k :| 0 <= k < |entries| && Contains(name, entries[k].0) && entries[k].1 == p
          && forall j :: 0 <= j < k ==> !Contains(name, entries[j].0);
        if k > 0 {
          assert Contains(name, entries[1..][k - 1].0) && entries[1..][k - 1].1 == p;
          assert forall j :: 0 <= j < k - 1 ==> !Contains(name, entries[1..][j].0) by {
            forall j | 0 <= j < k - 1 ensures !Contains(name, entries[1..][j].0) {
              assert entries[1..][j] == entries[j + 1];
            }
          }
        }
      }
    }
  }

  /** The name fallback finds nothing exactly when no key occurs in the name. */
  lemma {:induction false} FirstNameHitNone(name: string, entries: seq<(string, PlanType)>)
    ensures FirstNameHit(name, entries) == None <==> forall k :: 0 <= k < |entries| ==> !Contains(name, entries[k].0)
    decreases |entries|
  {
    if entries != [] {
      FirstNameHitNone(name, entries[1..]);
      assert forall k :: 1 <= k < |entries| ==> entries[k] == entries[1..][k - 1];
    }
  }

  /** A configured variant id decides the plan whatever the variant name says. */
  lemma VariantIdTakesPrecedence(ids: ConfiguredIds, variantId: Option<string>, variantName: string)
    requires IdString(variantId) in IdMap(ids)
    ensures VariantPlan(ids, variantId, variantName) == Some(IdMap(ids)[IdString(variantId)])
  {
  }

  /**
   * A name containing both "pro" and "plus" (and not "starter") maps to pro:
   * the name table is scanned in the order starter, pro, plus.
   */
  lemma ProBeforePlus(ids: ConfiguredIds, variantId: Option<string>, variantName: string)
    requires IdString(variantId) !in IdMap(ids)
    requires Contains(Lower(variantName), "pro") && Contains(Lower(variantName), "plus")
    requires !Contains(Lower(variantName), "starter")
    ensures VariantPlan(ids, variantId, variantName) == Some(Pro)
  {
  }

  /** null exactly when neither a configured id nor any plan name matches. */
  lemma VariantPlanNull(ids: ConfiguredIds, variantId: Option<string>, variantName: string)
    ensures VariantPlan(ids, variantId, variantName) == None <==>
      IdString(variantId) !in IdMap(ids) &&
      (variantName == "" || forall k :: 0 <= k < |NameEntries| ==> !Contains(Lower(variantName), NameEntries[k].0))
  {
    FirstNameHitNone(Lower(variantName), NameEntries);
  }
}
