/**
 * The credit plans on the profile page, the per-plan image and video
 * counts, and the purchase action, which adds credits by calling
 * `deductCredits` with the negated plan size.
 */
module CreditPurchaseOptions {
  import opened CreditContext

  /** `CreditPlan`; the price is kept in cents. */
  datatype CreditPlan = CreditPlan(id: string, credits: nat, priceCents: nat, highlight: bool)

  const CreditPlans: seq<CreditPlan> := [
    CreditPlan("basic", 500, 499, false),
    CreditPlan("standard", 2000, 1499, true),
    CreditPlan("premium", 5000, 2999, false)
  ]

  /** The plan table: three plans of growing size, and only `standard` is highlighted. */
  lemma PlanTable()
    ensures |CreditPlans| == 3
    ensures CreditPlans[0].credits == 500 && CreditPlans[1].credits == 2000 && CreditPlans[2].credits == 5000
    ensures forall i :: 0 <= i < |CreditPlans| ==> (CreditPlans[i].highlight <==> CreditPlans[i].id == "standard")
    ensures forall i, j :: 0 <= i < j < |CreditPlans| ==> CreditPlans[i].credits < CreditPlans[j].credits
  {
  }

  /** `Math.floor(credits / 5)`: how many images a number of credits pays for. */
  function ImagesFor(credits: int): (n: int)
    ensures 5 * n <= credits < 5 * n + 5
  {
    credits / 5
  }

  /** `Math.floor(credits / 15)`: how many videos a number of credits pays for. */
  function VideosFor(credits: int): (n: int)
    ensures 15 * n <= credits < 15 * n + 15
  {
    credits / 15
  }

  /** The counts each plan card shows. */
  lemma PlanCounts()
    ensures ImagesFor(500) == 100 && VideosFor(500) == 33
    ensures ImagesFor(2000) == 400 && VideosFor(2000) == 133
    ensures ImagesFor(5000) == 1000 && VideosFor(5000) == 333
  {
  }

  /**
   * `handlePurchase(plan)`: `deductCredits(0 - plan.credits)`. On a balance of
   * at least `-plan.credits` (any non-negative one) it goes through and adds
   * the plan's credits.
   */
  method HandlePurchase(ledger: CreditProvider, plan: CreditPlan)
    requires ledger.Valid()
    modifies ledger, ledger.store
    ensures ledger.Valid()
    ensures ledger.credits == Deduct(old(ledger.credits), 0 - plan.credits).balance
    ensures old(ledger.credits) >= 0 ==> ledger.credits == old(ledger.credits) + plan.credits
    ensures ledger.store.creations == old(ledger.store.creations)
  {
    var _ := ledger.DeductCredits(0 - plan.credits);
  }
}
