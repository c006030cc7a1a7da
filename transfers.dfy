/**
 * The `sendMoney` command: a transfer to a merchant's IBAN
 * (`SendMoneyToCommerciantTransaction`) and a transfer between two
 * accounts (`SendMoneyTransaction`). Both stop with "User not found" when
 * either side is missing, and both still write a failed record when the
 * sender's balance does not exceed the amount.
 */
module Transfers {
  import opened Wrappers
  import opened ServicePlans
  import opened Records
  import opened ExchangeRates
  import opened Ledger
  import opened Commerciants
  import opened Pricing
  import opened Payments

  // ---------------------------------------------------------------------
  // The sender's history

  /** The written side of a transfer: the user's history and big-payment count, and the account's history. */
  datatype Log = Log(userHistory: seq<Record>, big: int, history: seq<Record>)

  function LogOf(user: User, account: Account): Log
    reads user`transactions, user`bigTransactions, account`transactions
  {
    Log(user.transactions, user.bigTransactions, account.transactions)
  }

  /**
   * A transfer record written down: on the user when `onUser` (followed by
   * the automatic upgrade record when it is due, which moves the counter to
   * 6), and on a classic account.
   */
  function Logged(g: Log, kind: Kind, onUser: bool, plan: Plan, iban: string, record: Record, timestamp: int): Log {
    Log(if onUser then g.userHistory + [record] + UpgradeRecords(UpgradeDue(g.big, plan), timestamp, iban)
        else g.userHistory,
        if onUser then AfterUpgrade(g.big, plan) else g.big,
        g.history + (if kind == Classic then [record] else []))
  }

  /**
   * Whether the sender's user gets the record: always, except on a business
   * account, where only the owner's user does.
   */
  predicate OnUser(account: Account, user: User)
    requires account.kind == Business ==> account.owner != null
    reads account`owner
  {
    account.kind != Business || account.owner.user == user
  }

  /** Writes the record down: see `Logged`. */
  method LogTransfer(user: User, account: Account, ghost g0: Log, onUser: bool, record: Record, timestamp: int)
    requires g0 == Log(user.transactions, user.bigTransactions, account.transactions)
    modifies user`transactions, user`bigTransactions, account`transactions
    ensures var g := Logged(g0, account.kind, onUser, user.servicePlan, account.iban, record, timestamp);
              user.transactions == g.userHistory && user.bigTransactions == g.big && account.transactions == g.history
  {
    if onUser {
      RecordWithUpgrade(user, record, account.iban, timestamp, 0);
      assert g0.userHistory[..|g0.userHistory|] == g0.userHistory && g0.userHistory[|g0.userHistory|..] == [];
    }
    if account.kind == Classic {
      account.transactions := account.transactions + [record];
    }
  }

  // ---------------------------------------------------------------------
  // A transfer to a merchant

  /** How a transfer to a merchant ends once both sides exist. */
  datatype MerchantOutcome =
    | NoFunds                  // the balance does not exceed the amount: a failed record
    | OverSpendingLimit        // an employee above the spending limit: nothing happens
    | UnderMinimum             // the rate check against the minimum balance fails: only the coupon is used
    | OverLimitWithCommission  // an employee above the limit with the commission added: the cashback is earned, no debit
    | Delivered                // debited, booked and recorded

  /**
   * The guards in order. The minimum-balance check subtracts the commission
   * RATE, not the commission, and so does the second limit check; the
   * debit itself takes `amount * rate`.
   */
  function MerchantOutcomeOf(balance: real, amount: real, overLimit: bool, q: Quote, minBalance: real,
                             overLimitWithCommission: bool): (r: MerchantOutcome)
    ensures r == NoFunds <==> balance - amount <= 0.0
    ensures r == Delivered <==> balance - amount > 0.0 && !overLimit && balance - amount - q.rate > minBalance
                                && !overLimitWithCommission
  {
    if balance - amount <= 0.0 then NoFunds
    else if overLimit then OverSpendingLimit
    else if balance - amount - q.rate <= minBalance then UnderMinimum
    else if overLimitWithCommission then OverLimitWithCommission
    else Delivered
  }

  /** The cashback side: the coupon goes once the limit passes, the strategy runs once the minimum passes, the balance moves only on delivery. */
  function MerchantEarningsAfter(e: Earnings, o: MerchantOutcome, t: Terms, q: Quote): Earnings {
    var used := e.(coupons := CouponUsed(e.coupons, t.category));
    var earned := Earned(used, t, t.plan, q.paid, q.ron, q.rate, q.ronRate, CouponValue(e.coupons, t.category, q.paid));
    match o
    case NoFunds => e
    case OverSpendingLimit => e
    case UnderMinimum => used
    case OverLimitWithCommission => earned.(balance := e.balance)
    case Delivered => earned
  }

  /** The listing side: only a delivered transfer is booked on the acting associate and the merchant summary. */
  function MerchantListingAfter(l: Listing, o: MerchantOutcome, t: Terms, amount: real): Listing {
    if o == Delivered then Spending(l, t, amount) else l
  }

  /**
   * The written side: the failed record for `NoFunds`; for a delivery, a
   * big transfer (over 300 RON with its commission) is counted and the
   * sent record written; nothing otherwise.
   */
  function MerchantLogAfter(g: Log, o: MerchantOutcome, t: Terms, onUser: bool, q: Quote, sent: Record,
                            timestamp: int): Log {
    match o
    case NoFunds =>
      Logged(g, t.kind, onUser, t.plan, t.iban, MerchantTransfer(timestamp, "Insufficient funds", None, None, None, None),
             timestamp)
    case Delivered =>
      Logged(g.(big := Bumped(g.big, RonValue(q.paid, q.rate, q.ronRate) > 300.0)), t.kind, onUser, t.plan, t.iban, sent,
             timestamp)
    case OverSpendingLimit => g
    case UnderMinimum => g
    case OverLimitWithCommission => g
  }

  /** A transfer is delivered exactly when every guard passes, in the order `MerchantOutcomeOf` checks them. */
  lemma DeliveredWhenGuardsPass(balance: real, amount: real, overLimit: bool, q: Quote, minBalance: real,
                                overLimitWithCommission: bool)
    ensures MerchantOutcomeOf(balance, amount, overLimit, q, minBalance, overLimitWithCommission) == Delivered
            <==> balance - amount > 0.0 && !overLimit && balance - amount - q.rate > minBalance
                 && !overLimitWithCommission
  {
  }

  /**
   * Only a delivery moves the balance and books the spending; only a
   * delivery or a failed transfer writes a record; the two limit stops
   * leave the cashback state as it was.
   */
  lemma MerchantOnlyDeliveryMoves(e: Earnings, l: Listing, g: Log, o: MerchantOutcome, t: Terms, onUser: bool, q: Quote,
                                  sent: Record, timestamp: int)
    ensures o != Delivered ==> MerchantEarningsAfter(e, o, t, q).balance == e.balance
    ensures o != Delivered ==> MerchantListingAfter(l, o, t, q.paid) == l
    ensures o != Delivered && o != NoFunds ==> MerchantLogAfter(g, o, t, onUser, q, sent, timestamp) == g
    ensures o == NoFunds || o == OverSpendingLimit ==> MerchantEarningsAfter(e, o, t, q) == e
  {
  }

  /**
   * The minimum-balance check subtracts the commission rate, not the
   * commission: on the standard plan, 1000 sent from a balance of 1001 with
   * no minimum passes every guard, although amount and commission (1002)
   * exceed the balance.
   */
  lemma MinimumCheckUsesRate()
    ensures MerchantOutcomeOf(1001.0, 1000.0, false, Quote([], 1000.0, 1000.0, Standard.CommissionRate(1000.0), 1.0), 0.0,
                              false) == Delivered
    ensures Debited(1001.0, 1000.0, Standard.CommissionRate(1000.0)) < 0.0
  {
  }

  /** What a transfer to a merchant reads: as for a card payment, booked by the command's email on the user's. */
  function MerchantTermsOf(email: string, user: User, seller: Seller, account: Account): Terms
    requires seller.cashbackStrategy.Some?
    requires account.kind == Business && email in account.employees ==> user.email in account.employees
    reads user`servicePlan, account`employees, account`managers
  {
    Terms(account.kind, account.iban, user.servicePlan, user.email, false, seller.cashbackStrategy.value,
          seller.cashbackType, seller.category, seller.commerciant, BookerOf(account, email, user.email),
          email in account.employees, account)
  }

  /** The sent record of a delivered transfer to a merchant. */
  function SentToMerchant(account: Account, seller: Seller, amount: real, description: string, timestamp: int): Record {
    MerchantTransfer(timestamp, description, Some(account.iban), Some(seller.iban), Some(Money(amount, account.currency)),
                     Some("sent"))
  }

  /** The RON value of an amount in the currency, and the `RON -> currency` rate. */
  method RonQuote(bank: Bnr, amount: real, currency: string) returns (ron: real, ronRate: real)
    ensures ron == Convert(bank.exchangeRates, amount, currency, "RON")
    ensures ronRate == RonRate(bank.exchangeRates, currency)
  {
    ron, ronRate := amount, 1.0;
    if currency != "RON" {
      var toRon := bank.GetExchangeRate(currency, "RON");
      ron := Scale(amount, toRon);
      ronRate := bank.GetExchangeRate("RON", currency);
    }
  }

  /** Books a delivered transfer on the acting associate and the merchant summary: see `Spending`. */
  method BookAtMerchant(account: Account, user: User, seller: Seller, ghost t: Terms, ghost l0: Listing, email: string,
                        amount: real)
    requires account.kind == Business && email in account.employees ==> user.email in account.employees
    requires t.merchant == seller.commerciant && t.booker == BookerOf(account, email, user.email)
    requires t.asEmployee == (email in account.employees)
    requires l0 == Listing(account.payments, account.totalSpent, account.businessCommerciants,
                           SpentBy(account, email, user.email))
    modifies account`totalSpent, account`businessCommerciants, SpenderFrame(account, email, user.email)`spent
    ensures var l := Spending(l0, t, amount);
              account.totalSpent == l.totalSpent && account.businessCommerciants == l.merchants
              && SpentBy(account, email, user.email) == l.spent
  {
    BookSpending(account, email, user.email, Some(seller.commerciant), amount);
  }

  /** Counts a big transfer (while below 5) and writes the record down: see `Logged`. */
  method LogCounted(user: User, account: Account, ghost g0: Log, onUser: bool, isBig: bool, record: Record,
                    timestamp: int)
    requires g0 == Log(user.transactions, user.bigTransactions, account.transactions)
    modifies user`transactions, user`bigTransactions, account`transactions
    ensures var g := Logged(g0.(big := Bumped(g0.big, isBig)), account.kind, onUser, user.servicePlan, account.iban, record,
                            timestamp);
              user.transactions == g.userHistory && user.bigTransactions == g.big && account.transactions == g.history
  {
    if isBig && user.bigTransactions < 5 {
      user.bigTransactions := user.bigTransactions + 1;
    }
    LogTransfer(user, account, g0.(big := user.bigTransactions), onUser, record, timestamp);
  }

  /** The delivery: booked, debited by amount and commission and credited the cashback and coupon, counted, recorded. */
  method Deliver(account: Account, user: User, seller: Seller, ghost t: Terms, ghost e1: Earnings, ghost l0: Listing,
                 ghost g0: Log, email: string, q: Quote, coupon: real, cashback: real, sent: Record, timestamp: int)
    requires account.kind == Business && email in account.employees ==> user.email in account.employees
    requires account.kind == Business ==> account.owner != null
    requires t.kind == account.kind && t.iban == account.iban && t.plan == user.servicePlan
    requires t.merchant == seller.commerciant && t.booker == BookerOf(account, email, user.email)
    requires t.asEmployee == (email in account.employees)
    requires e1.balance == account.balance
    requires l0 == Listing(account.payments, account.totalSpent, account.businessCommerciants,
                           SpentBy(account, email, user.email))
    requires g0 == Log(user.transactions, user.bigTransactions, account.transactions)
    modifies account`balance, account`totalSpent, account`businessCommerciants, SpenderFrame(account, email, user.email)`spent,
             user`transactions, user`bigTransactions, account`transactions
    ensures account.balance == Debited(e1.balance, q.paid, q.rate) + Credit(cashback, q.ronRate, coupon)
    ensures var l := Spending(l0, t, q.paid);
              account.totalSpent == l.totalSpent && account.businessCommerciants == l.merchants
              && SpentBy(account, email, user.email) == l.spent
    ensures var g := Logged(g0.(big := Bumped(g0.big, RonValue(q.paid, q.rate, q.ronRate) > 300.0)), t.kind,
                            OnUser(account, user), t.plan, t.iban, sent, timestamp);
              user.transactions == g.userHistory && user.bigTransactions == g.big && account.transactions == g.history
  {
    account.balance := Debited(account.balance, q.paid, q.rate) + Credit(cashback, q.ronRate, coupon);
    LogCounted(user, account, g0, OnUser(account, user), RonValue(q.paid, q.rate, q.ronRate) > 300.0, sent, timestamp);
    // the booking touches none of the state the record writes, so it may come last
    BookAtMerchant(account, user, seller, t, l0, email, q.paid);
  }

  /** The employee limit with the commission added stops the transfer; otherwise it is delivered. */
  method DeliverWithinLimit(account: Account, user: User, seller: Seller, ghost t: Terms, ghost e1: Earnings,
                            ghost l0: Listing, ghost g0: Log, email: string, q: Quote, coupon: real, cashback: real,
                            sent: Record, timestamp: int, ghost o: MerchantOutcome)
    requires account.kind == Business && email in account.employees ==> user.email in account.employees
    requires account.kind == Business ==> account.owner != null
    requires t.kind == account.kind && t.iban == account.iban && t.plan == user.servicePlan
    requires t.merchant == seller.commerciant && t.booker == BookerOf(account, email, user.email)
    requires t.asEmployee == (email in account.employees)
    requires e1.balance == account.balance
    requires l0 == Listing(account.payments, account.totalSpent, account.businessCommerciants,
                           SpentBy(account, email, user.email))
    requires g0 == Log(user.transactions, user.bigTransactions, account.transactions)
    requires o == if OverLimit(account, email, q.paid + q.rate) then OverLimitWithCommission else Delivered
    modifies account`balance, account`totalSpent, account`businessCommerciants, SpenderFrame(account, email, user.email)`spent,
             user`transactions, user`bigTransactions, account`transactions
    ensures var l := MerchantListingAfter(l0, o, t, q.paid);
      var g := MerchantLogAfter(g0, o, t, OnUser(account, user), q, sent, timestamp);
      account.balance == (if o == Delivered then Debited(e1.balance, q.paid, q.rate) + Credit(cashback, q.ronRate, coupon)
                          else e1.balance)
      && account.totalSpent == l.totalSpent && account.businessCommerciants == l.merchants
      && SpentBy(account, email, user.email) == l.spent
      && user.transactions == g.userHistory && user.bigTransactions == g.big && account.transactions == g.history
  {
    if OverLimit(account, email, q.paid + q.rate) {
      return;
    }
    Deliver(account, user, seller, t, e1, l0, g0, email, q, coupon, cashback, sent, timestamp);
  }

  /** After the minimum-balance check: the strategy runs, then the employee limit with the commission decides. */
  method EarnThenDeliver(account: Account, user: User, seller: Seller, ghost t: Terms, ghost e0: Earnings,
                         ghost l0: Listing, ghost g0: Log, email: string, q: Quote, coupon: real, sent: Record,
                         timestamp: int, ghost o: MerchantOutcome)
    requires seller.cashbackStrategy.Some?
    requires account.kind == Business ==> account.owner != null
    requires account.kind == Business && email in account.employees ==> user.email in account.employees
    requires seller.cashbackStrategy == Some(t.strategy) && seller.cashbackType == t.cashbackType
    requires t.category == seller.category && t.merchant == seller.commerciant && t.key == account
    requires t.kind == account.kind && t.iban == account.iban && t.plan == user.servicePlan
    requires t.booker == BookerOf(account, email, user.email) && t.asEmployee == (email in account.employees)
    requires l0 == Listing(account.payments, account.totalSpent, account.businessCommerciants,
                           SpentBy(account, email, user.email))
    requires g0 == Log(user.transactions, user.bigTransactions, account.transactions)
    requires account.balance == e0.balance && account.totalSpentPerCommerciant == e0.spentPerCommerciant
    requires seller.numberOfTransactions == e0.counts
    requires account.coupons == CouponUsed(e0.coupons, t.category) && coupon == CouponValue(e0.coupons, t.category, q.paid)
    requires e0.balance - q.paid > 0.0 && !OverLimit(account, email, q.paid)
    requires e0.balance - q.paid - q.rate > account.minBalance
    requires o == MerchantOutcomeOf(e0.balance, q.paid, OverLimit(account, email, q.paid), q, account.minBalance,
                                    OverLimit(account, email, q.paid + q.rate))
    modifies account`balance, account`coupons, account`totalSpentPerCommerciant, account`totalSpent,
             account`businessCommerciants, account`transactions, SpenderFrame(account, email, user.email)`spent,
             user`transactions, user`bigTransactions, seller`numberOfTransactions
    ensures var e := MerchantEarningsAfter(e0, o, t, q);
      var l := MerchantListingAfter(l0, o, t, q.paid);
      var g := MerchantLogAfter(g0, o, t, OnUser(account, user), q, sent, timestamp);
      account.balance == e.balance && account.coupons == e.coupons
      && account.totalSpentPerCommerciant == e.spentPerCommerciant && seller.numberOfTransactions == e.counts
      && account.totalSpent == l.totalSpent && account.businessCommerciants == l.merchants
      && SpentBy(account, email, user.email) == l.spent
      && user.transactions == g.userHistory && user.bigTransactions == g.big && account.transactions == g.history
  {
    var cashback := CalculateCashback(seller, account, user, q.ron);
    DeliverWithinLimit(account, user, seller, t, e0, l0, g0, email, q, coupon, cashback, sent, timestamp, o);
  }

  /** Within the spending limit: the coupon is used, the commission priced, and the minimum balance checked. */
  method PayMerchantUnderLimit(account: Account, user: User, seller: Seller, bank: Bnr, ghost t: Terms,
                               ghost e0: Earnings, ghost l0: Listing, ghost g0: Log, email: string, amount: real,
                               ghost q: Quote, sent: Record, timestamp: int, ghost o: MerchantOutcome)
    requires seller.cashbackStrategy.Some?
    requires account.kind == Business ==> account.owner != null
    requires account.kind == Business && email in account.employees ==> user.email in account.employees
    requires seller.cashbackStrategy == Some(t.strategy) && seller.cashbackType == t.cashbackType
    requires t.category == seller.category && t.merchant == seller.commerciant && t.key == account
    requires t.kind == account.kind && t.iban == account.iban && t.plan == user.servicePlan
    requires t.booker == BookerOf(account, email, user.email) && t.asEmployee == (email in account.employees)
    requires l0 == Listing(account.payments, account.totalSpent, account.businessCommerciants,
                           SpentBy(account, email, user.email))
    requires g0 == Log(user.transactions, user.bigTransactions, account.transactions)
    requires e0 == Earnings(account.balance, account.coupons, account.totalSpentPerCommerciant, seller.numberOfTransactions)
    requires q == QuoteFor(bank.exchangeRates, amount, account.currency, account.currency, user.servicePlan)
    requires e0.balance - q.paid > 0.0 && !OverLimit(account, email, q.paid)
    requires o == MerchantOutcomeOf(e0.balance, q.paid, OverLimit(account, email, q.paid), q, account.minBalance,
                                    OverLimit(account, email, q.paid + q.rate))
    modifies account`balance, account`coupons, account`totalSpentPerCommerciant, account`totalSpent,
             account`businessCommerciants, account`transactions, SpenderFrame(account, email, user.email)`spent,
             user`transactions, user`bigTransactions, seller`numberOfTransactions
    ensures var e := MerchantEarningsAfter(e0, o, t, q);
      var l := MerchantListingAfter(l0, o, t, q.paid);
      var g := MerchantLogAfter(g0, o, t, OnUser(account, user), q, sent, timestamp);
      account.balance == e.balance && account.coupons == e.coupons
      && account.totalSpentPerCommerciant == e.spentPerCommerciant && seller.numberOfTransactions == e.counts
      && account.totalSpent == l.totalSpent && account.businessCommerciants == l.merchants
      && SpentBy(account, email, user.email) == l.spent
      && user.transactions == g.userHistory && user.bigTransactions == g.big && account.transactions == g.history
  {
    var coupon := UseCoupon(account, seller.category, amount);
    var ron, ronRate := RonQuote(bank, amount, account.currency);
    var quote := Quote(bank.exchangeRates, amount, ron, user.servicePlan.CommissionRate(ron), ronRate);
    assert quote == q;
    if account.balance - quote.paid - quote.rate <= account.minBalance {
      return;
    }
    EarnThenDeliver(account, user, seller, t, e0, l0, g0, email, quote, coupon, sent, timestamp, o);
  }

  /** A transfer to a merchant once both sides exist: the guards of `MerchantOutcomeOf` in order. */
  method PayMerchant(account: Account, user: User, seller: Seller, bank: Bnr, ghost t: Terms, ghost e0: Earnings,
                     ghost l0: Listing, ghost g0: Log, email: string, amount: real, ghost q: Quote, sent: Record,
                     timestamp: int, ghost o: MerchantOutcome)
    requires seller.cashbackStrategy.Some?
    requires account.kind == Business ==> account.owner != null
    requires account.kind == Business && email in account.employees ==> user.email in account.employees
    requires seller.cashbackStrategy == Some(t.strategy) && seller.cashbackType == t.cashbackType
    requires t.category == seller.category && t.merchant == seller.commerciant && t.key == account
    requires t.kind == account.kind && t.iban == account.iban && t.plan == user.servicePlan
    requires t.booker == BookerOf(account, email, user.email) && t.asEmployee == (email in account.employees)
    requires l0 == Listing(account.payments, account.totalSpent, account.businessCommerciants,
                           SpentBy(account, email, user.email))
    requires g0 == Log(user.transactions, user.bigTransactions, account.transactions)
    requires e0 == Earnings(account.balance, account.coupons, account.totalSpentPerCommerciant, seller.numberOfTransactions)
    requires q == QuoteFor(bank.exchangeRates, amount, account.currency, account.currency, user.servicePlan)
    requires o == MerchantOutcomeOf(e0.balance, q.paid, OverLimit(account, email, q.paid), q, account.minBalance,
                                    OverLimit(account, email, q.paid + q.rate))
    modifies account`balance, account`coupons, account`totalSpentPerCommerciant, account`totalSpent,
             account`businessCommerciants, account`transactions, SpenderFrame(account, email, user.email)`spent,
             user`transactions, user`bigTransactions, seller`numberOfTransactions
    ensures var e := MerchantEarningsAfter(e0, o, t, q);
      var l := MerchantListingAfter(l0, o, t, q.paid);
      var g := MerchantLogAfter(g0, o, t, OnUser(account, user), q, sent, timestamp);
      account.balance == e.balance && account.coupons == e.coupons
      && account.totalSpentPerCommerciant == e.spentPerCommerciant && seller.numberOfTransactions == e.counts
      && account.totalSpent == l.totalSpent && account.businessCommerciants == l.merchants
      && SpentBy(account, email, user.email) == l.spent
      && user.transactions == g.userHistory && user.bigTransactions == g.big && account.transactions == g.history
  {
    if account.balance - amount <= 0.0 {
      LogTransfer(user, account, g0, OnUser(account, user),
                  MerchantTransfer(timestamp, "Insufficient funds", None, None, None, None), timestamp);
      return;
    }
    if OverLimit(account, email, amount) {
      return;
    }
    PayMerchantUnderLimit(account, user, seller, bank, t, e0, l0, g0, email, amount, q, sent, timestamp, o);
  }

  /** The associate a transfer from a possibly missing account books on: see `SpenderFrame`. */
  function SpendersOf(account: Account?, user: User?, email: string): set<Employee>
    requires account != null && user != null && account.kind == Business && email in account.employees ==>
               user.email in account.employees
    reads account
  {
    if account == null || user == null then {} else SpenderFrame(account, email, user.email)
  }

  /**
   * A same-currency quote converts nothing: the amount is paid as given, no
   * rate is stored, and the RON value and rate are those of the account's
   * currency.
   */
  lemma SameCurrencyQuote(edges: seq<ExchangeRate>, amount: real, currency: string, plan: Plan)
    ensures var q := QuoteFor(edges, amount, currency, currency, plan);
              q.paid == amount && q.edges == edges && q.ron == Convert(edges, amount, currency, "RON")
              && q.rate == plan.CommissionRate(q.ron) && q.ronRate == RonRate(edges, currency)
  {
  }

  /**
   * `SendMoneyToCommerciantTransaction.makeTransaction`: "User not found"
   * when the sender's account or user or the merchant is missing; otherwise
   * `PayMerchant`, priced in the account's own currency.
   */
  method SendMoneyToCommerciant(account: Account?, user: User?, seller: Seller?, bank: Bnr, email: string, amount: real,
                                description: string, command: string, timestamp: int, output: Output)
    requires seller != null ==> seller.cashbackStrategy.Some?
    requires account != null && account.kind == Business ==> account.owner != null
    requires account != null && user != null && account.kind == Business && email in account.employees ==>
               user.email in account.employees
    modifies output, AccountFrame(account)`balance, AccountFrame(account)`coupons,
             AccountFrame(account)`totalSpentPerCommerciant, AccountFrame(account)`totalSpent,
             AccountFrame(account)`businessCommerciants, AccountFrame(account)`transactions,
             SpendersOf(account, user, email)`spent, UserFrame(user)`transactions, UserFrame(user)`bigTransactions,
             SellerFrame(seller)`numberOfTransactions
    ensures account == null || user == null || seller == null ==>
              output.entries == old(output.entries) + [Notice(command, timestamp, "description", "User not found")]
              && unchanged(AccountFrame(account), UserFrame(user), SellerFrame(seller))
              && unchanged(SpendersOf(account, user, email))
    ensures account != null && user != null && seller != null ==>
              var t := old(MerchantTermsOf(email, user, seller, account));
              var e0 := old(EarningsOf(seller, account));
              var l0 := old(ListingOf(account, email, user.email));
              var g0 := old(LogOf(user, account));
              var q := old(QuoteFor(bank.exchangeRates, amount, account.currency, account.currency, user.servicePlan));
              var o := old(MerchantOutcomeOf(account.balance, q.paid, OverLimit(account, email, q.paid), q,
                                             account.minBalance, OverLimit(account, email, q.paid + q.rate)));
              var e := MerchantEarningsAfter(e0, o, t, q);
              var l := MerchantListingAfter(l0, o, t, q.paid);
              var g := MerchantLogAfter(g0, o, t, OnUser(account, user), q,
                                        SentToMerchant(account, seller, amount, description, timestamp), timestamp);
              output.entries == old(output.entries)
              && account.balance == e.balance && account.coupons == e.coupons
              && account.totalSpentPerCommerciant == e.spentPerCommerciant && seller.numberOfTransactions == e.counts
              && account.totalSpent == l.totalSpent && account.businessCommerciants == l.merchants
              && SpentBy(account, email, user.email) == l.spent
              && user.transactions == g.userHistory && user.bigTransactions == g.big && account.transactions == g.history
  {
    if account == null || user == null || seller == null {
      output.PrintError(command, "User not found", timestamp);
      return;
    }
    ghost var q := QuoteFor(bank.exchangeRates, amount, account.currency, account.currency, user.servicePlan);
    PayMerchant(account, user, seller, bank, MerchantTermsOf(email, user, seller, account), EarningsOf(seller, account),
                ListingOf(account, email, user.email), LogOf(user, account), email, amount, q,
                SentToMerchant(account, seller, amount, description, timestamp), timestamp,
                MerchantOutcomeOf(account.balance, q.paid, OverLimit(account, email, q.paid), q, account.minBalance,
                                  OverLimit(account, email, q.paid + q.rate)));
  }
}
