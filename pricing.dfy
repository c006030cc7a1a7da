/**
 * The arithmetic the payment pipelines share: currency conversion through
 * the bank's rates, the commission-and-cashback debit, the category coupon
 * a payment consumes, the business spending books and the counter of big
 * payments that triggers the automatic gold upgrade record.
 */
module Pricing {
  import opened Wrappers
  import opened ServicePlans
  import opened Records
  import opened ExchangeRates
  import opened Ledger
  import opened Commerciants

  // ---------------------------------------------------------------------
  // Conversion and debit

  /** An amount multiplied by a rate. */
  function Scale(amount: real, rate: real): real {
    amount * rate
  }

  /** `amount` given in `from`, expressed in `to`: multiplied by the looked-up rate unless the currencies match. */
  function Convert(edges: seq<ExchangeRate>, amount: real, from: string, to: string): (r: real)
    ensures from == to ==> r == amount
    ensures amount == 0.0 ==> r == 0.0
  {
    if from == to then amount else Scale(amount, Rate(edges, from, to))
  }

  /** The conversion as the pipelines perform it: one rate lookup unless the currencies match. */
  method Exchange(bank: Bnr, amount: real, from: string, to: string) returns (r: real)
    ensures r == Convert(bank.exchangeRates, amount, from, to)
  {
    r := amount;
    if from != to {
      var rate := bank.GetExchangeRate(from, to);
      r := Scale(amount, rate);
    }
  }

  /**
   * Same currency is the identity; over positive rates a reachable target
   * keeps the sign of the amount, and an unreachable one (the -1 sentinel)
   * flips it.
   */
  lemma ConvertFacts(edges: seq<ExchangeRate>, amount: real, from: string, to: string)
    requires Positive(edges)
    ensures from == to ==> Convert(edges, amount, from, to) == amount
    ensures from != to && Reachable(edges, from, to) && amount > 0.0 ==> Convert(edges, amount, from, to) > 0.0
    ensures from != to && !Reachable(edges, from, to) ==> Convert(edges, amount, from, to) == -amount
  {
    RateSentinel(edges, from, to);
    if from != to && Reachable(edges, from, to) && amount > 0.0 {
      var r := Rate(edges, from, to);
      assert r > 0.0;
      assert amount * r > 0.0;
    }
  }

  /** The rate `RON -> currency` the pipelines scale cashback by (1 for a RON account). */
  function RonRate(edges: seq<ExchangeRate>, currency: string): real {
    Convert(edges, 1.0, "RON", currency)
  }

  /** Over non-zero rates the scaling rate can be divided by. */
  lemma RonRateNonZero(edges: seq<ExchangeRate>, currency: string)
    requires NonZero(edges)
    ensures RonRate(edges, currency) != 0.0
  {
    if currency != "RON" {
      RateNonZero(edges, "RON", currency);
    }
  }

  /** The balance after paying `amount` plus the commission at `rate` on it. */
  function Debited(balance: real, amount: real, rate: real): real {
    balance - amount - amount * rate
  }

  /** The funds check most pipelines share: what is left after the debit stays above the minimum. */
  predicate Affords(balance: real, amount: real, rate: real, minBalance: real) {
    Debited(balance, amount, rate) > minBalance
  }

  /**
   * A debit costs the amount plus at most 0.2% of it (the largest plan
   * rate), and exactly the amount for a commission-free plan.
   */
  lemma DebitedBounds(plan: Plan, balance: real, amount: real, ron: real)
    requires amount >= 0.0
    ensures balance - 1.002 * amount <= Debited(balance, amount, plan.CommissionRate(ron)) <= balance - amount
    ensures plan == Student || plan == Gold ==> Debited(balance, amount, plan.CommissionRate(ron)) == balance - amount
  {
    var rate := plan.CommissionRate(ron);
    RateIsFraction(plan, ron);
    assert 0.0 <= rate <= 0.002;
    assert 0.0 <= amount * rate <= amount * 0.002;
  }

  /** The credit of a payment: the strategy's RON cashback converted to the account currency, plus the coupon. */
  function Credit(cashback: real, ronRate: real, coupon: real): real {
    cashback * ronRate + coupon
  }

  /**
   * The payment plus its commission, back in RON (the measure of a big
   * payment). Over the bank's non-zero rates the divisor is never 0; the
   * value given for 0 only keeps the function total.
   */
  function RonValue(amount: real, rate: real, ronRate: real): real {
    if ronRate == 0.0 then 0.0 else amount / ronRate + amount * rate / ronRate
  }

  // ---------------------------------------------------------------------
  // Coupons

  /** A coupon neither used up (-1) nor absent (0). */
  predicate CouponActive(coupons: map<string, real>, category: string) {
    CouponOf(coupons, category) != -1.0 && CouponOf(coupons, category) != 0.0
  }

  /** What an active coupon is worth on an amount; nothing otherwise. */
  function CouponValue(coupons: map<string, real>, category: string, amount: real): (r: real)
    ensures !CouponActive(coupons, category) ==> r == 0.0
  {
    if CouponActive(coupons, category) then CouponOf(coupons, category) * amount else 0.0
  }

  /**
   * The coupons after a payment in a category: an active coupon of that
   * category is used up, every other entry stays.
   */
  function CouponUsed(coupons: map<string, real>, category: string): (r: map<string, real>)
    ensures !CouponActive(r, category)
    ensures CouponActive(coupons, category) ==> CouponOf(r, category) == -1.0
    ensures !CouponActive(coupons, category) ==> r == coupons
    ensures forall c :: c != category ==> CouponOf(r, c) == CouponOf(coupons, c)
  {
    if CouponActive(coupons, category) then coupons[category := -1.0] else coupons
  }

  /** A coupon is worth something once: the next payment in the category gets nothing from it. */
  lemma CouponOnce(coupons: map<string, real>, category: string, amount: real)
    ensures CouponValue(CouponUsed(coupons, category), category, amount) == 0.0
    ensures CouponUsed(CouponUsed(coupons, category), category) == CouponUsed(coupons, category)
  {
  }

  /** Consumes the category's coupon (`coupons.put(type, -1)` when active) and returns its value on the amount. */
  method UseCoupon(account: Account, category: string, amount: real) returns (coupon: real)
    modifies account`coupons
    ensures coupon == CouponValue(old(account.coupons), category, amount)
    ensures account.coupons == CouponUsed(old(account.coupons), category)
  {
    coupon := 0.0;
    if CouponOf(account.coupons, category) != -1.0 && CouponOf(account.coupons, category) != 0.0 {
      coupon := CouponOf(account.coupons, category) * amount;
      account.coupons := account.coupons[category := -1.0];
    }
  }

  // ---------------------------------------------------------------------
  // Business spending

  /** An employee (checked by the command's email) paying more than the business account's spending limit. */
  predicate OverLimit(account: Account, email: string, amount: real)
    reads account`employees, account`spendingLimit
  {
    account.kind == Business && email in account.employees && amount > account.spendingLimit
  }

  /**
   * The associate a business spending is booked on: when the command's email
   * is an employee, the employee under the paying user's email; otherwise
   * the manager under the user's email, if any.
   */
  function Spender(account: Account, email: string, userEmail: string): (r: Option<Employee>)
    requires account.kind == Business && email in account.employees ==> userEmail in account.employees
    reads account`employees, account`managers
    ensures r.None? <==> account.kind != Business || (email !in account.employees && userEmail !in account.managers)
  {
    if account.kind != Business then None
    else if email in account.employees then Some(account.employees[userEmail])
    else if userEmail in account.managers then Some(account.managers[userEmail])
    else None
  }

  /**
   * The merchant summary after an associate paid `amount` to `commerciant`:
   * the entry is created when missing, the associate's username is appended
   * to its employee or manager list, and the amount is added to its total;
   * every other merchant's entry stays.
   */
  function Booked(m: map<string, BusinessCommerciant>, commerciant: string, username: string, asEmployee: bool,
                  amount: real): (r: map<string, BusinessCommerciant>)
    ensures r.Keys == m.Keys + {commerciant}
    ensures forall k :: k in m && k != commerciant ==> r[k] == m[k]
    ensures var before := if commerciant in m then m[commerciant] else NewBusinessCommerciant(commerciant);
      r[commerciant] == before.(employees := before.employees + (if asEmployee then [username] else []),
                                managers := before.managers + (if asEmployee then [] else [username]),
                                totalReceived := before.totalReceived + amount)
  {
    var before := if commerciant in m then m[commerciant] else NewBusinessCommerciant(commerciant);
    if asEmployee then
      m[commerciant := before.(employees := before.employees + [username], totalReceived := before.totalReceived + amount)]
    else
      m[commerciant := before.(managers := before.managers + [username], totalReceived := before.totalReceived + amount)]
  }

  /** The total a merchant summary records as received, over all merchants. */
  function TotalReceived(m: map<string, BusinessCommerciant>, keys: seq<string>): real
    requires forall k :: k in keys ==> k in m
  {
    if keys == [] then 0.0 else TotalReceived(m, keys[..|keys| - 1]) + m[keys[|keys| - 1]].totalReceived
  }

  /**
   * Booking adds the amount to the summary's grand total, taken over the
   * merchants in any order that lists each once, and one payer name.
   */
  lemma {:induction false} BookedTotal(m: map<string, BusinessCommerciant>, commerciant: string, username: string,
                                       asEmployee: bool, amount: real, keys: seq<string>)
    requires forall k :: k in keys ==> k in m
    requires commerciant !in keys
    ensures forall k :: k in keys ==> k in Booked(m, commerciant, username, asEmployee, amount)
    ensures TotalReceived(Booked(m, commerciant, username, asEmployee, amount), keys + [commerciant])
            == TotalReceived(m, keys) + (if commerciant in m then m[commerciant].totalReceived else 0.0) + amount
  {
    var r := Booked(m, commerciant, username, asEmployee, amount);
    SameTotal(m, r, keys);
    assert (keys + [commerciant])[..|keys|] == keys;
  }

  lemma {:induction false} SameTotal(m: map<string, BusinessCommerciant>, r: map<string, BusinessCommerciant>, keys: seq<string>)
    requires forall k :: k in keys ==> k in m && k in r && r[k].totalReceived == m[k].totalReceived
    ensures TotalReceived(r, keys) == TotalReceived(m, keys)
  {
    if keys != [] {
      SameTotal(m, r, keys[..|keys| - 1]);
    }
  }

  /** The acting associate as a frame: the one employee object a booking changes. */
  function SpenderFrame(account: Account, email: string, userEmail: string): set<Employee>
    requires account.kind == Business && email in account.employees ==> userEmail in account.employees
    reads account`employees, account`managers
  {
    match Spender(account, email, userEmail)
    case None => {}
    case Some(e) => {e}
  }

  /**
   * Books a business spending on the acting associate: its `spent` and the
   * account's `totalSpent` grow by the amount and, for a payment to a
   * merchant, the merchant summary records it. Without an acting associate
   * (the owner, or a stranger) nothing changes. No other associate changes.
   */
  method BookSpending(account: Account, email: string, userEmail: string, commerciant: Option<string>, amount: real)
    requires account.kind == Business && email in account.employees ==> userEmail in account.employees
    modifies SpenderFrame(account, email, userEmail)`spent, account`totalSpent,
             (if commerciant.Some? then {account} else {})`businessCommerciants
    ensures Spender(account, email, userEmail).None? ==>
              account.totalSpent == old(account.totalSpent) && account.businessCommerciants == old(account.businessCommerciants)
    ensures Spender(account, email, userEmail).Some? ==>
              Spender(account, email, userEmail).value.spent == old(Spender(account, email, userEmail).value.spent) + amount
              && account.totalSpent == old(account.totalSpent) + amount
              && account.businessCommerciants ==
                   (if commerciant.Some? then
                      Booked(old(account.businessCommerciants), commerciant.value, Spender(account, email, userEmail).value.username,
                             email in account.employees, amount)
                    else old(account.businessCommerciants))
  {
    var spender := Spender(account, email, userEmail);
    if spender.None? {
      return;
    }
    var associate := spender.value;
    associate.SetSpent(associate.spent + amount);
    account.totalSpent := account.totalSpent + amount;
    if commerciant.Some? {
      account.businessCommerciants :=
        Booked(account.businessCommerciants, commerciant.value, associate.username, email in account.employees, amount);
    }
  }

  // ---------------------------------------------------------------------
  // Big payments and the automatic upgrade record

  /** The counter after a payment: one more for a big payment while below 5. */
  function Bumped(big: int, isBig: bool): int {
    if isBig && big < 5 then big + 1 else big
  }

  /** A silver user at 5 big payments is due the automatic gold upgrade. */
  predicate UpgradeDue(big: int, plan: Plan) {
    big == 5 && plan == Silver
  }

  /** The counter after recording: 6 once the upgrade record is written, so it is written once. */
  function AfterUpgrade(big: int, plan: Plan): int {
    if UpgradeDue(big, plan) then 6 else big
  }

  /** The upgrade record a payment writes, if due. */
  function UpgradeRecords(due: bool, timestamp: int, iban: string): seq<Record> {
    if due then [AutomaticUpgrade(timestamp, iban, "gold")] else []
  }

  /** The number of upgrade records a run of payments writes, starting from a counter, for a plan that stays. */
  function UpgradesWritten(big: int, plan: Plan, bigs: seq<bool>): nat
    decreases |bigs|
  {
    if bigs == [] then 0
    else var b := Bumped(big, bigs[0]);
      (if UpgradeDue(b, plan) then 1 else 0) + UpgradesWritten(AfterUpgrade(b, plan), plan, bigs[1..])
  }

  /**
   * From a counter of at most 5 (or the 6 the upgrade leaves), any run of
   * payments writes the upgrade record at most once, and never once the
   * counter has reached 6. The record is never executed, so the plan stays.
   */
  lemma {:induction false} UpgradeWrittenOnce(big: int, plan: Plan, bigs: seq<bool>)
    requires big <= 6
    ensures UpgradesWritten(big, plan, bigs) <= 1
    ensures big == 6 ==> UpgradesWritten(big, plan, bigs) == 0
    decreases |bigs|
  {
    if bigs != [] {
      var b := Bumped(big, bigs[0]);
      UpgradeWrittenOnce(AfterUpgrade(b, plan), plan, bigs[1..]);
      if UpgradeDue(b, plan) {
        assert AfterUpgrade(b, plan) == 6;
      }
    }
  }

  /**
   * Records a payment on the user: the record goes before the last `keep`
   * entries (the card-rotation records, when there are any) and, when the
   * counter is at 5 on silver, the automatic gold upgrade record goes right
   * after it and the counter becomes 6.
   */
  method RecordWithUpgrade(user: User, record: Record, iban: string, timestamp: int, keep: nat)
    requires keep <= |user.transactions|
    modifies user`transactions, user`bigTransactions
    ensures var n := |old(user.transactions)| - keep;
      user.transactions == old(user.transactions)[..n] + [record]
                           + UpgradeRecords(UpgradeDue(old(user.bigTransactions), user.servicePlan), timestamp, iban)
                           + old(user.transactions)[n..]
    ensures user.bigTransactions == AfterUpgrade(old(user.bigTransactions), user.servicePlan)
  {
    ghost var h := user.transactions;
    ghost var n := |h| - keep;
    user.transactions := InsertAt(user.transactions, |user.transactions| - keep, record);
    if user.bigTransactions == 5 && user.servicePlan == Silver {
      user.SetBigTransactions(6);
      user.transactions := InsertAt(user.transactions, |user.transactions| - keep, AutomaticUpgrade(timestamp, iban, "gold"));
      assert user.transactions == h[..n] + [record] + [AutomaticUpgrade(timestamp, iban, "gold")] + h[n..];
    } else {
      assert user.transactions == h[..n] + [record] + h[n..];
    }
  }
}
