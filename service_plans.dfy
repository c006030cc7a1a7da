/**
 * The four service plans. A plan has a name, a rank id that orders upgrades,
 * and a commission rate: a fraction of the amount that callers multiply by
 * the amount (0.002 means 0.2%).
 */
module ServicePlans {
  import opened Wrappers

  datatype Plan = Standard | Student | Silver | Gold
  {
    /** The plan's name (`getPlan`). */
    function Name(): (r: string)
      ensures r == "standard" || r == "student" || r == "silver" || r == "gold"
    {
      match this
      case Standard => "standard"
      case Student => "student"
      case Silver => "silver"
      case Gold => "gold"
    }

    /** The plan's rank (`getId`). */
    function Id(): (r: int)
      ensures 1 <= r <= 4
    {
      match this
      case Standard => 1
      case Student => 2
      case Silver => 3
      case Gold => 4
    }

    /**
     * The commission rate for an amount. Student and gold do not override
     * the interface's default, which is 0 whatever the amount.
     */
    function CommissionRate(amount: real): (r: real)
      ensures 0.0 <= r <= 0.002
      ensures this == Student || this == Gold ==> r == 0.0
    {
      match this
      case Standard => 0.2 / 100.0
      case Silver => if amount >= 500.0 then 0.1 / 100.0 else 0.0
      case Student => 0.0
      case Gold => 0.0
    }
  }

  /** `PlanFactory.createPlan`: one of the four names gives that plan, anything else nothing. */
  function CreatePlan(name: string): (r: Option<Plan>)
    ensures r.Some? <==> name == "standard" || name == "student" || name == "silver" || name == "gold"
    ensures r.Some? ==> r.value.Name() == name
  {
    if name == "standard" then Some(Standard)
    else if name == "student" then Some(Student)
    else if name == "silver" then Some(Silver)
    else if name == "gold" then Some(Gold)
    else None
  }

  /** Creating a plan from a plan's own name gives back that plan. */
  lemma CreatePlanRoundTrip(p: Plan)
    ensures CreatePlan(p.Name()) == Some(p)
    ensures CreatePlan(p.Name()).value.Id() == p.Id()
  {
  }

  /** Names and ids identify plans: two plans with the same name or the same id are the same plan. */
  lemma NamesAndIdsIdentify(p: Plan, q: Plan)
    ensures p.Name() == q.Name() <==> p == q
    ensures p.Id() == q.Id() <==> p == q
  {
  }

  /**
   * The ranks run standard < student < silver < gold, so standard is the
   * lowest, gold the highest, and any change away from gold is either the
   * same plan or a downgrade.
   */
  lemma IdRanks(p: Plan)
    ensures Standard.Id() <= p.Id() <= Gold.Id()
    ensures p != Standard ==> Standard.Id() < p.Id()
    ensures p != Gold ==> p.Id() < Gold.Id()
    ensures Standard.Id() < Student.Id() < Silver.Id() < Gold.Id()
  {
  }

  /** Every rate is a fraction in [0, 1). */
  lemma RateIsFraction(p: Plan, amount: real)
    ensures 0.0 <= p.CommissionRate(amount) < 1.0
  {
  }

  /** Student and gold inherit the zero default, so they are commission-free at every amount. */
  lemma InheritedRateIsZero(amount: real)
    ensures Student.CommissionRate(amount) == 0.0
    ensures Gold.CommissionRate(amount) == 0.0
  {
  }

  /** Standard charges 0.2% whatever the amount. */
  lemma StandardRateIsConstant(a: real, b: real)
    ensures Standard.CommissionRate(a) == 0.002
    ensures Standard.CommissionRate(a) == Standard.CommissionRate(b) > 0.0
  {
  }

  /** Silver charges 0.1% from 500 inclusive and nothing below, so its rate never falls as the amount grows. */
  lemma SilverThreshold(a: real, b: real)
    ensures a >= 500.0 ==> Silver.CommissionRate(a) == 0.001
    ensures a < 500.0 ==> Silver.CommissionRate(a) == 0.0
    ensures Silver.CommissionRate(500.0) > 0.0
    ensures a <= b ==> Silver.CommissionRate(a) <= Silver.CommissionRate(b)
  {
  }
}
