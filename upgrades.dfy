/**
 * `upgradePlan` (`UpgradePlanTransaction`): a user moves to a higher service
 * plan, paying a fixed fee in RON from the named account.
 */
module Upgrades {
  import opened Wrappers
  import opened ServicePlans
  import opened Records
  import opened ExchangeRates
  import opened Ledger
  import opened Pricing

  /**
   * The fee, in RON: from standard or student, 100 to silver and 350 to gold;
   * from silver, 250 to gold; nothing for any other move.
   */
  function UpgradeFee(from: Plan, to: string): (r: int)
    ensures 0 <= r <= 350
    ensures r > 0 <==> (to == "silver" || to == "gold") && from.Id() < CreatePlan(to).value.Id()
  {
    match from
    case Standard => if to == "silver" then 100 else if to == "gold" then 350 else 0
    case Student => if to == "silver" then 100 else if to == "gold" then 350 else 0
    case Silver => if to == "gold" then 250 else 0
    case Gold => 0
  }

  /** Going to gold through silver costs what going there at once does. */
  lemma FeeThroughSilver(from: Plan)
    requires from == Standard || from == Student
    ensures UpgradeFee(from, "silver") + UpgradeFee(Silver, "gold") == UpgradeFee(from, "gold")
  {
  }

  /** A fee is charged only for a move to a higher-ranked plan. */
  lemma FeeOnlyUpwards(from: Plan, to: Plan)
    ensures UpgradeFee(from, to.Name()) > 0 ==> to.Id() > from.Id()
  {
  }

  /** How an upgrade ends once the user and the account exist. */
  datatype UpgradeOutcome =
    | AlreadyHas    // the user is on the named plan
    | Downgrade     // the named plan ranks below the current one
    | Unaffordable  // the fee would take the balance below the minimum
    | Upgraded      // the fee is paid and the plan changed

  function UpgradeOutcomeOf(current: Plan, target: Plan, targetName: string, balance: real, fee: real, minBalance: real)
    : UpgradeOutcome
  {
    if current.Name() == targetName then AlreadyHas
    else if current.Id() > target.Id() then Downgrade
    else if balance - fee < minBalance then Unaffordable
    else Upgraded
  }

  /** The record an upgrade writes on the user and the account, for each outcome. */
  function UpgradeRecord(o: UpgradeOutcome, iban: string, targetName: string, timestamp: int): Record {
    match o
    case AlreadyHas => PlanUpgrade(timestamp, "The user already has the " + targetName + " plan.", None, None)
    case Downgrade => PlanUpgrade(timestamp, "You cannot downgrade your plan.", Some(iban), Some(targetName))
    case Unaffordable => PlanUpgrade(timestamp, "Insufficient funds", None, None)
    case Upgraded => PlanUpgrade(timestamp, "Upgrade plan", Some(iban), Some(targetName))
  }

  /**
   * An upgrade to the plan named `newPlanType`, asked from the account with
   * IBAN `iban`. A missing user or account is "Account not found" as an
   * output notice. Otherwise one record goes on both the user and the
   * account: see `UpgradeOutcomeOf` and `UpgradeRecord`; only an upgrade
   * moves money, taking the fee converted into the account's currency. An
   * unknown plan name makes the source fail unless it is the current plan's.
   */
  method UpgradePlan(user: User?, account: Account?, bank: Bnr, iban: string, newPlanType: string, command: string,
                     timestamp: int, output: Output)
    requires user != null && account != null && user.servicePlan.Name() != newPlanType ==>
               CreatePlan(newPlanType).Some?
    modifies output, UserFrame(user)`transactions, UserFrame(user)`servicePlan, AccountFrame(account)`transactions,
             AccountFrame(account)`balance
    ensures user == null || account == null ==>
              output.entries == old(output.entries) + [Notice(command, timestamp, "description", "Account not found")]
              && unchanged(UserFrame(user), AccountFrame(account))
    ensures user != null && account != null ==>
              var current := old(user.servicePlan);
              var target := if current.Name() == newPlanType then current else CreatePlan(newPlanType).value;
              var fee := Convert(bank.exchangeRates, UpgradeFee(current, newPlanType) as real, "RON", account.currency);
              var o := UpgradeOutcomeOf(current, target, newPlanType, old(account.balance), fee, account.minBalance);
              var record := UpgradeRecord(o, iban, newPlanType, timestamp);
              output.entries == old(output.entries)
              && user.transactions == old(user.transactions) + [record]
              && account.transactions == old(account.transactions) + [record]
              && (o == Upgraded ==> account.balance == old(account.balance) - fee && user.servicePlan == target)
              && (o != Upgraded ==> account.balance == old(account.balance) && user.servicePlan == current)
    // a plan never loses rank, and a paid fee leaves at least the minimum
    ensures user != null && account != null ==> user.servicePlan.Id() >= old(user.servicePlan).Id()
    ensures account != null ==> account.balance == old(account.balance) || account.balance >= account.minBalance
  {
    if user == null || account == null {
      output.PrintError(command, "Account not found", timestamp);
      return;
    }
    if user.servicePlan.Name() == newPlanType {
      var record := PlanUpgrade(timestamp, "The user already has the " + newPlanType + " plan.", None, None);
      user.transactions := user.transactions + [record];
      account.transactions := account.transactions + [record];
      return;
    }
    var newPlan := CreatePlan(newPlanType).value;
    if user.servicePlan.Id() > newPlan.Id() {
      var record := PlanUpgrade(timestamp, "You cannot downgrade your plan.", Some(iban), Some(newPlanType));
      user.transactions := user.transactions + [record];
      account.transactions := account.transactions + [record];
      return;
    }
    var fee := Exchange(bank, UpgradeFee(user.servicePlan, newPlanType) as real, "RON", account.currency);
    var record;
    if account.balance - fee < account.minBalance {
      record := PlanUpgrade(timestamp, "Insufficient funds", None, None);
    } else {
      account.balance := account.balance - fee;
      user.servicePlan := newPlan;
      record := PlanUpgrade(timestamp, "Upgrade plan", Some(iban), Some(newPlanType));
    }
    user.transactions := user.transactions + [record];
    account.transactions := account.transactions + [record];
  }
}
