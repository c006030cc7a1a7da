/**
 * Merchants and their cashback strategies: a spending-threshold tier table
 * keyed by the account's running total, and a per-account transaction
 * counter that activates category coupons.
 */
module Commerciants {
  import opened Wrappers
  import opened ServicePlans
  import opened Ledger

  datatype Strategy = AmountThreshold | NumberOfTransactions

  /** The strategy a merchant's configured name selects; any other name selects none. */
  function StrategyFor(name: string): (r: Option<Strategy>)
    ensures name == "spendingThreshold" <==> r == Some(AmountThreshold)
    ensures name == "nrOfTransactions" <==> r == Some(NumberOfTransactions)
    ensures name != "spendingThreshold" && name != "nrOfTransactions" <==> r == None
  {
    if name == "spendingThreshold" then Some(AmountThreshold)
    else if name == "nrOfTransactions" then Some(NumberOfTransactions)
    else None
  }

  /** The configured name of a strategy object. */
  function StrategyName(s: Option<Strategy>): string {
    match s
    case Some(AmountThreshold) => "spendingThreshold"
    case Some(NumberOfTransactions) => "nrOfTransactions"
    case None => ""
  }

  class Seller {
    const commerciant: string
    /** The merchant's category, which names the coupon its payments use. */
    const category: string
    const id: int
    const iban: string
    const cashbackType: string
    const cashbackStrategy: Option<Strategy>
    /** Per-account payment counts; a stored null is kept apart from an absent key. */
    var numberOfTransactions: map<Account, Option<int>>

    /** A merchant built around a given strategy object. */
    constructor (commerciant: string, category: string, strategy: Option<Strategy>)
      ensures this.commerciant == commerciant && this.category == category && cashbackStrategy == strategy
      ensures cashbackType == StrategyName(strategy) && numberOfTransactions == map[]
      ensures id == 0 && iban == ""
    {
      this.commerciant := commerciant;
      this.category := category;
      cashbackStrategy := strategy;
      cashbackType := StrategyName(strategy);
      numberOfTransactions := map[];
      id, iban := 0, "";
    }

    /** A merchant read from the input; the strategy is chosen by its configured name. */
    constructor FromInput(commerciant: string, category: string, id: int, account: string, strategyName: string)
      ensures this.commerciant == commerciant && this.category == category && this.id == id && iban == account
      ensures cashbackType == strategyName && cashbackStrategy == StrategyFor(strategyName)
      ensures numberOfTransactions == map[]
    {
      this.commerciant := commerciant;
      this.category := category;
      this.id := id;
      iban := account;
      cashbackType := strategyName;
      if strategyName == "spendingThreshold" {
        cashbackStrategy := Some(AmountThreshold);
      } else if strategyName == "nrOfTransactions" {
        cashbackStrategy := Some(NumberOfTransactions);
      } else {
        cashbackStrategy := None;
      }
      numberOfTransactions := map[];
    }
  }

  // ---------------------------------------------------------------------
  // Spending-threshold cashback

  /** The cashback rate for a plan at a cumulative total: tiers from 100, 300 and 500. */
  function ThresholdRate(plan: Plan, total: real): (r: real)
    ensures 0.0 <= r <= 0.007
    ensures r == 0.0 <==> total < 100.0
  {
    if total >= 500.0 then
      match plan
      case Standard => 0.0025
      case Student => 0.0025
      case Silver => 0.005
      case Gold => 0.007
    else if total >= 300.0 then
      match plan
      case Standard => 0.002
      case Student => 0.002
      case Silver => 0.004
      case Gold => 0.0055
    else if total >= 100.0 then
      match plan
      case Standard => 0.001
      case Student => 0.001
      case Silver => 0.003
      case Gold => 0.005
    else 0.0
  }

  function ThresholdCashback(plan: Plan, total: real, amount: real): real {
    ThresholdRate(plan, total) * amount
  }

  /** Below a total of 100 there is no cashback; from 100 every plan earns a positive rate. */
  lemma ThresholdRateBounds(plan: Plan, total: real)
    ensures total < 100.0 ==> ThresholdRate(plan, total) == 0.0
    ensures total >= 100.0 ==> 0.0 < ThresholdRate(plan, total) <= 0.007
  {
  }

  /** For a fixed plan the rate never falls as the total rises. */
  lemma ThresholdRateMonotone(plan: Plan, t1: real, t2: real)
    requires t1 <= t2
    ensures ThresholdRate(plan, t1) <= ThresholdRate(plan, t2)
  {
  }

  /** For a fixed total, gold ≥ silver ≥ standard = student. */
  lemma ThresholdRateByPlan(total: real)
    ensures ThresholdRate(Gold, total) >= ThresholdRate(Silver, total) >= ThresholdRate(Standard, total)
    ensures ThresholdRate(Standard, total) == ThresholdRate(Student, total)
  {
  }

  /**
   * The cashback is chosen by the stored total plus this amount; the stored
   * total grows by the amount only for "spendingThreshold" merchants.
   */
  method AmountThresholdCashback(seller: Seller, account: Account, user: User, transactionAmount: real)
    returns (cashback: real)
    modifies account`totalSpentPerCommerciant
    ensures cashback == ThresholdCashback(user.servicePlan, old(account.totalSpentPerCommerciant) + transactionAmount, transactionAmount)
    ensures seller.cashbackType == "spendingThreshold" ==>
              account.totalSpentPerCommerciant == old(account.totalSpentPerCommerciant) + transactionAmount
    ensures seller.cashbackType != "spendingThreshold" ==>
              account.totalSpentPerCommerciant == old(account.totalSpentPerCommerciant)
  {
    var totalSpent := account.totalSpentPerCommerciant + transactionAmount;
    cashback := ThresholdCashback(user.servicePlan, totalSpent, transactionAmount);
    if seller.cashbackType == "spendingThreshold" {
      account.totalSpentPerCommerciant := totalSpent;
    }
  }

  // ---------------------------------------------------------------------
  // Transaction-count cashback

  /** `map.get(key)`: the stored count, or null when the key is absent. */
  function CountOf(m: map<Account, Option<int>>, a: Account): Option<int> {
    if a in m then m[a] else None
  }

  /** The count written back: one more (1 when null) for "nrOfTransactions" merchants, else the same. */
  function NextCount(cashbackType: string, c: Option<int>): (r: Option<int>)
    ensures cashbackType == "nrOfTransactions" ==> r.Some? && r.value == (if c.None? then 1 else c.value + 1)
    ensures cashbackType != "nrOfTransactions" ==> r == c
  {
    if cashbackType == "nrOfTransactions" then
      if c.None? then Some(1) else Some(c.value + 1)
    else c
  }

  /** A coupon's value, an absent category counting as 0. */
  function CouponOf(coupons: map<string, real>, category: string): real {
    if category in coupons then coupons[category] else 0.0
  }

  /** Sets a coupon unless it is used up (-1). */
  function Activate(coupons: map<string, real>, category: string, rate: real): map<string, real> {
    if CouponOf(coupons, category) != -1.0 then coupons[category := rate] else coupons
  }

  /** The coupons after reaching count `n`: 2 activates Food at 2%, 5 Clothes at 5%, 10 Tech at 10%. */
  function CouponsAfter(coupons: map<string, real>, n: Option<int>): map<string, real> {
    if n == Some(2) then Activate(coupons, "Food", 0.02)
    else if n == Some(5) then Activate(coupons, "Clothes", 0.05)
    else if n == Some(10) then Activate(coupons, "Tech", 0.1)
    else coupons
  }

  /**
   * A used-up coupon stays used up; at most one category changes, and only
   * the one the count selects; other counts leave every coupon as it was.
   */
  lemma CouponsAfterFacts(coupons: map<string, real>, n: Option<int>)
    ensures forall c :: CouponOf(coupons, c) == -1.0 ==> CouponOf(CouponsAfter(coupons, n), c) == -1.0
    ensures forall c1, c2 ::
              (CouponOf(CouponsAfter(coupons, n), c1) != CouponOf(coupons, c1) &&
               CouponOf(CouponsAfter(coupons, n), c2) != CouponOf(coupons, c2)) ==> c1 == c2
    ensures n != Some(2) && n != Some(5) && n != Some(10) ==> CouponsAfter(coupons, n) == coupons
    ensures n == Some(2) && CouponOf(coupons, "Food") != -1.0 ==> CouponOf(CouponsAfter(coupons, n), "Food") == 0.02
    ensures n == Some(5) && CouponOf(coupons, "Clothes") != -1.0 ==> CouponOf(CouponsAfter(coupons, n), "Clothes") == 0.05
    ensures n == Some(10) && CouponOf(coupons, "Tech") != -1.0 ==> CouponOf(CouponsAfter(coupons, n), "Tech") == 0.1
  {
  }

  /**
   * Always returns 0: the strategy only counts the payment (for
   * "nrOfTransactions" merchants) and activates a coupon when the count
   * reaches 2, 5 or 10. Other accounts' counts are untouched.
   */
  method NumberOfTransactionsCashback(seller: Seller, account: Account, user: User, transactionAmount: real)
    returns (cashback: real)
    modifies seller`numberOfTransactions, account`coupons
    ensures cashback == 0.0
    ensures seller.numberOfTransactions ==
              old(seller.numberOfTransactions)[account := NextCount(seller.cashbackType, CountOf(old(seller.numberOfTransactions), account))]
    ensures account.coupons ==
              CouponsAfter(old(account.coupons), NextCount(seller.cashbackType, CountOf(old(seller.numberOfTransactions), account)))
  {
    var transactions := CountOf(seller.numberOfTransactions, account);
    if seller.cashbackType == "nrOfTransactions" {
      if transactions.None? {
        transactions := Some(1);
      } else {
        transactions := Some(transactions.value + 1);
      }
    }
    seller.numberOfTransactions := seller.numberOfTransactions[account := transactions];
    if transactions.None? {
      return 0.0;
    }
    if transactions.value == 2 {
      if CouponOf(account.coupons, "Food") != -1.0 {
        account.coupons := account.coupons["Food" := 0.02];
      }
    } else if transactions.value == 5 {
      if CouponOf(account.coupons, "Clothes") != -1.0 {
        account.coupons := account.coupons["Clothes" := 0.05];
      }
    } else if transactions.value == 10 {
      if CouponOf(account.coupons, "Tech") != -1.0 {
        account.coupons := account.coupons["Tech" := 0.1];
      }
    }
    return 0.0;
  }

  // ---------------------------------------------------------------------
  // Either strategy, by the strategy object the merchant holds

  /** The cashback a strategy grants on an amount, given the account's running total before it. */
  function CashbackFor(s: Strategy, plan: Plan, total: real, amount: real): real {
    match s
    case AmountThreshold => ThresholdCashback(plan, total + amount, amount)
    case NumberOfTransactions => 0.0
  }

  /** The running total after a strategy has seen an amount. */
  function TotalAfter(s: Strategy, cashbackType: string, total: real, amount: real): real {
    if s == AmountThreshold && cashbackType == "spendingThreshold" then total + amount else total
  }

  /** The merchant's per-account counts after a strategy has seen a payment from `account`. */
  function CountsAfter(s: Strategy, cashbackType: string, counts: map<Account, Option<int>>, account: Account)
    : map<Account, Option<int>>
  {
    if s == NumberOfTransactions then counts[account := NextCount(cashbackType, CountOf(counts, account))] else counts
  }

  /** The account's coupons after a strategy has seen a payment. */
  function CouponsAfterStrategy(s: Strategy, cashbackType: string, coupons: map<string, real>,
                                counts: map<Account, Option<int>>, account: Account): map<string, real>
  {
    if s == NumberOfTransactions then CouponsAfter(coupons, NextCount(cashbackType, CountOf(counts, account))) else coupons
  }

  /**
   * A non-negative amount earns at most 0.7% back and never a negative
   * cashback; only the counting strategy touches counts and coupons, and
   * only the threshold strategy the running total.
   */
  lemma CashbackForBounds(s: Strategy, plan: Plan, total: real, amount: real)
    requires amount >= 0.0
    ensures 0.0 <= CashbackFor(s, plan, total, amount) <= 0.007 * amount
    ensures s == NumberOfTransactions ==> CashbackFor(s, plan, total, amount) == 0.0
    ensures total + amount < 100.0 ==> CashbackFor(s, plan, total, amount) == 0.0
  {
    if s == AmountThreshold {
      ThresholdRateBounds(plan, total + amount);
      var rate := ThresholdRate(plan, total + amount);
      assert 0.0 <= rate <= 0.007;
      assert rate * amount <= 0.007 * amount;
    }
  }

  /** The cashback the merchant's strategy grants, with that strategy's effects. */
  method CalculateCashback(seller: Seller, account: Account, user: User, transactionAmount: real)
    returns (cashback: real)
    requires seller.cashbackStrategy.Some?
    modifies seller`numberOfTransactions, account`coupons, account`totalSpentPerCommerciant
    ensures cashback == CashbackFor(seller.cashbackStrategy.value, user.servicePlan, old(account.totalSpentPerCommerciant),
                                    transactionAmount)
    ensures account.totalSpentPerCommerciant ==
              TotalAfter(seller.cashbackStrategy.value, seller.cashbackType, old(account.totalSpentPerCommerciant), transactionAmount)
    ensures seller.numberOfTransactions ==
              CountsAfter(seller.cashbackStrategy.value, seller.cashbackType, old(seller.numberOfTransactions), account)
    ensures account.coupons ==
              CouponsAfterStrategy(seller.cashbackStrategy.value, seller.cashbackType, old(account.coupons),
                                   old(seller.numberOfTransactions), account)
  {
    if seller.cashbackStrategy.value == AmountThreshold {
      cashback := AmountThresholdCashback(seller, account, user, transactionAmount);
    } else {
      cashback := NumberOfTransactionsCashback(seller, account, user, transactionAmount);
    }
  }
}
