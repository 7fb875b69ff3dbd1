/** The premium price list (PRICING_PLANS), identical in both copies of the
    application: a price in naira and a duration in days per plan. */
module Plans {
  import opened Wrappers

  datatype Plan = Daily | Weekly | Monthly

  /** Price of the plan in naira. */
  function Price(p: Plan): nat
  {
    match p
    case Daily => 200
    case Weekly => 1000
    case Monthly => 3000
  }

  /** Length of the premium period the plan buys, in days. */
  function DurationDays(p: Plan): nat
  {
    match p
    case Daily => 1
    case Weekly => 7
    case Monthly => 30
  }

  /** The plan's key in the price list, as clients send it. */
  function Key(p: Plan): string
  {
    match p
    case Daily => "daily"
    case Weekly => "weekly"
    case Monthly => "monthly"
  }

  /** `plan_type in PRICING_PLANS`, returning the plan the key names. */
  function ParsePlan(key: string): (p: Option<Plan>)
    ensures p.Some? <==> key in {"daily", "weekly", "monthly"}
    ensures p.Some? ==> Key(p.value) == key
  {
    if key == "daily" then Some(Daily)
    else if key == "weekly" then Some(Weekly)
    else if key == "monthly" then Some(Monthly)
    else None
  }

  /** Every plan's key parses back to the plan, and a longer plan costs more
      per purchase. */
  lemma PlansAreOrdered(p: Plan, q: Plan)
    ensures ParsePlan(Key(p)) == Some(p)
    ensures DurationDays(p) < DurationDays(q) <==> Price(p) < Price(q)
    ensures DurationDays(p) >= 1
  {
  }
}
