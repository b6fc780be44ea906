/** The subscription plans of `lib/stripe.ts`: the `PLANS` table and the
    `getPlan` lookup by plan id. The Stripe price ids come from environment
    variables, which are a parameter here. */
module StripePlans {
  import opened Prelude

  /** `PlanId`: the three subscription tiers, cheapest first. */
  datatype PlanId = Starter | Pro | Elite

  /** The string the id stands for in requests and in the table's keys. */
  function PlanKey(id: PlanId): string {
    match id
    case Starter => "starter"
    case Pro => "pro"
    case Elite => "elite"
  }

  /** The tier's position in the table, for stating the ordering lemmas. */
  function Rank(id: PlanId): nat {
    match id
    case Starter => 0
    case Pro => 1
    case Elite => 2
  }

  /** `limits.maxBarbers`: a number or 'unlimited'. */
  datatype BarberLimit = AtMost(count: nat) | Unlimited

  /** A limit that allows no more barbers than `b` does. */
  predicate NoMoreThan(a: BarberLimit, b: BarberLimit) {
    match (a, b)
    case (_, Unlimited) => true
    case (Unlimited, AtMost(_)) => false
    case (AtMost(m), AtMost(n)) => m <= n
  }

  datatype Plan = Plan(
    id: PlanId,
    name: string,
    priceMonthlyCents: nat,
    stripePriceId: string,
    highlights: seq<string>,
    maxBarbers: BarberLimit)

  /** `STRIPE_PRICE_STARTER`, `STRIPE_PRICE_PRO` and `STRIPE_PRICE_ELITE`;
      None when the variable is not set. */
  datatype PriceEnv = PriceEnv(starter: Option<string>, pro: Option<string>, elite: Option<string>)

  /** `process.env.X ?? ''`. */
  function OrEmpty(v: Option<string>): string {
    if v.Some? then v.value else ""
  }

  /** `PLANS[id]`. The entry is filed under its own id. */
  function Plans(env: PriceEnv, id: PlanId): (p: Plan)
    ensures p.id == id
  {
    match id
    case Starter =>
      Plan(Starter, "Starter", 4900, OrEmpty(env.starter), ["Apenas agenda", "1 barbeiro"], AtMost(1))
    case Pro =>
      Plan(Pro, "Pro", 9900, OrEmpty(env.pro), ["Agenda", "PDV", "Comissões", "Até 5 barbeiros"], AtMost(5))
    case Elite =>
      Plan(Elite, "Elite", 14900, OrEmpty(env.elite), ["Ilimitado", "Estoque", "CRM", "Lembretes WhatsApp"], Unlimited)
  }

  /** `getPlan`: the table entry whose key is `planId`, null for any other string. */
  function GetPlan(env: PriceEnv, planId: string): (r: Option<Plan>)
    ensures r.Some? ==> PlanKey(r.value.id) == planId && r.value == Plans(env, r.value.id)
  {
    if planId == "starter" then Some(Plans(env, Starter))
    else if planId == "pro" then Some(Plans(env, Pro))
    else if planId == "elite" then Some(Plans(env, Elite))
    else None
  }

  /** Every key of the table is found by `getPlan`, and finds its own entry. */
  lemma GetPlanFindsEveryKey(env: PriceEnv, id: PlanId)
    ensures GetPlan(env, PlanKey(id)) == Some(Plans(env, id))
  {
  }

  /** `getPlan` is null exactly for the strings that are not a plan key. */
  lemma GetPlanNullIffUnknown(env: PriceEnv, planId: string)
    ensures GetPlan(env, planId).None? <==> forall id: PlanId :: PlanKey(id) != planId
  {
    if GetPlan(env, planId).None? {
      forall id: PlanId
        ensures PlanKey(id) != planId
      {
      }
    } else {
      assert PlanKey(GetPlan(env, planId).value.id) == planId;
    }
  }

  /** The keys are distinct, so a key names one tier. */
  lemma PlanKeyInjective(a: PlanId, b: PlanId)
    ensures PlanKey(a) == PlanKey(b) <==> a == b
  {
    if a != b {
      assert PlanKey(a)[0] != PlanKey(b)[0];
    }
  }

  /** A higher tier costs strictly more and allows at least as many barbers. */
  lemma HigherTierCostsMoreAndAllowsMore(env: PriceEnv, a: PlanId, b: PlanId)
    requires Rank(a) < Rank(b)
    ensures Plans(env, a).priceMonthlyCents < Plans(env, b).priceMonthlyCents
    ensures NoMoreThan(Plans(env, a).maxBarbers, Plans(env, b).maxBarbers)
  {
  }

  /** Only the top tier is unlimited; the others cap the team. */
  lemma OnlyEliteIsUnlimited(env: PriceEnv, id: PlanId)
    ensures Plans(env, id).maxBarbers == Unlimited <==> id == Elite
  {
  }
}
