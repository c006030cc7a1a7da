/**
 * The payment pipelines: a card payment at a merchant, a transfer to a
 * merchant, a transfer between accounts and a cash withdrawal. Each is a
 * chain of early-exit guards followed by the debit and the history records.
 * The one-time card's replacement number is a parameter (`freshNumber`).
 */
module Payments {
  import opened Wrappers
  import opened ServicePlans
  import opened Records
  import opened ExchangeRates
  import opened Ledger
  import opened Commerciants
  import opened Pricing

  // ---------------------------------------------------------------------
  // Finding a card among a user's accounts

  /** Every card on the accounts. */
  function CardsOf(accounts: seq<Account>): set<Card>
    reads accounts
  {
    set a, c | a in accounts && c in a.cards :: c
  }

  /** Every business associate of the user's accounts. */
  function AssociatesIn(user: User): set<Employee>
    reads user, user.accounts
  {
    set a, e | a in user.accounts && e in a.employees.Values + a.managers.Values :: e
  }

  /** The first account, and on it the first card, with the number: accounts in order, cards in order. */
  function FindCardIn(accounts: seq<Account>, number: string, from: nat): (r: Option<(nat, nat)>)
    requires from <= |accounts|
    reads accounts, CardsOf(accounts)
    ensures r.Some? ==> from <= r.value.0 < |accounts| && r.value.1 < |accounts[r.value.0].cards|
                        && accounts[r.value.0].cards[r.value.1].cardNumber == number
                        && FindCard(accounts[r.value.0].cards, number, 0) == Some(r.value.1)
                        && forall j :: from <= j < r.value.0 ==> FindCard(accounts[j].cards, number, 0).None?
    ensures r.None? ==> forall j :: from <= j < |accounts| ==> FindCard(accounts[j].cards, number, 0).None?
    decreases |accounts| - from
  {
    if from == |accounts| then None
    else
      assert forall c :: c in accounts[from].cards ==> c in CardsOf(accounts) by {
        assert accounts[from] in accounts;
      }
      match FindCard(accounts[from].cards, number, 0)
      case Some(k) => Some((from, k))
      case None => FindCardIn(accounts, number, from + 1)
  }

  /** No card has the number exactly when the search finds nothing. */
  lemma FindCardInNone(accounts: seq<Account>, number: string)
    ensures FindCardIn(accounts, number, 0).None? <==>
            forall a, c :: a in accounts && c in a.cards ==> c.cardNumber != number
  {
    if FindCardIn(accounts, number, 0).None? {
      forall a, c | a in accounts && c in a.cards
        ensures c.cardNumber != number
      {
        var i :| 0 <= i < |accounts| && accounts[i] == a;
        var k :| 0 <= k < |a.cards| && a.cards[k] == c;
        assert FindCard(a.cards, number, 0).None?;
      }
    }
  }

  /**
   * `pickCard`'s search: the first account of the user (in order) holding a
   * card with the number, and that card; both null when there is none.
   */
  method PickCard(user: User, number: string) returns (account: Account?, card: Card?)
    ensures FindCardIn(user.accounts, number, 0).None? <==> account == null
    ensures account == null <==> card == null
    ensures FindCardIn(user.accounts, number, 0).Some? ==>
              account == user.accounts[FindCardIn(user.accounts, number, 0).value.0]
              && card == account.cards[FindCardIn(user.accounts, number, 0).value.1]
  {
    var i := 0;
    while i < |user.accounts|
      invariant 0 <= i <= |user.accounts|
      invariant FindCardIn(user.accounts, number, 0) == FindCardIn(user.accounts, number, i)
    {
      var candidate := user.accounts[i];
      var j := 0;
      while j < |candidate.cards|
        invariant 0 <= j <= |candidate.cards|
        invariant FindCard(candidate.cards, number, 0) == FindCard(candidate.cards, number, j)
      {
        if candidate.cards[j].cardNumber == number {
          return candidate, candidate.cards[j];
        }
        j := j + 1;
      }
      i := i + 1;
    }
    return null, null;
  }

  // ---------------------------------------------------------------------
  // Card payment at a merchant

  /** The merchant as a frame: itself, or nothing when it is missing. */
  function SellerFrame(seller: Seller?): set<Seller> {
    if seller == null then {} else {seller}
  }

  /** The plan a payment from the account is priced by: the owner's for a business account, the payer's otherwise. */
  function PayingUser(account: Account, user: User): (u: User)
    requires account.kind == Business ==> account.owner != null
    reads account, account.owner
    ensures account.kind != Business ==> u == user
    ensures account.kind == Business ==> u == account.owner.user
  {
    if account.kind == Business then account.owner.user else user
  }

  /** The edge list after a payment converted from `from` to `to`: the rate used is stored as a new edge. */
  function EdgesAfter(edges: seq<ExchangeRate>, from: string, to: string): (r: seq<ExchangeRate>)
    ensures |r| == |edges| + (if from == to then 0 else 1) && r[..|edges|] == edges
  {
    if from != to then edges + [ExchangeRate(from, to, Rate(edges, from, to), 0)] else edges
  }

  /** The stored rate is a search result over non-zero rates, so the bank stays valid. */
  lemma EdgesAfterNonZero(edges: seq<ExchangeRate>, from: string, to: string)
    requires NonZero(edges)
    ensures NonZero(EdgesAfter(edges, from, to))
  {
    RateNonZero(edges, from, to);
  }

  /** The amounts a card payment is priced with. */
  datatype Quote = Quote(edges: seq<ExchangeRate>, paid: real, ron: real, rate: real, ronRate: real)

  /**
   * The command amount in `from` converted to the account currency `to`
   * (recording the rate), its value in RON, the plan's commission rate on that
   * value and the `RON -> to` rate.
   */
  function QuoteFor(edges: seq<ExchangeRate>, amount: real, from: string, to: string, plan: Plan): (q: Quote)
    ensures q.edges == EdgesAfter(edges, from, to) && q.paid == Convert(edges, amount, from, to)
    ensures q.ron == Convert(q.edges, q.paid, to, "RON") && q.rate == plan.CommissionRate(q.ron)
    ensures q.ronRate == RonRate(q.edges, to)
  {
    var e := EdgesAfter(edges, from, to);
    var paid := Convert(edges, amount, from, to);
    var ron := Convert(e, paid, to, "RON");
    Quote(e, paid, ron, plan.CommissionRate(ron), RonRate(e, to))
  }

  /** The two records a one-time card's rotation writes. */
  function Rotation(timestamp: int, iban: string, oldNumber: string, newNumber: string, holder: string): seq<Record> {
    [CardDestruction(timestamp, "The card has been destroyed", iban, oldNumber, holder),
     CardCreation(timestamp, "New card created", iban, newNumber, holder)]
  }

  /** What the acting associate has spent (0 without one). */
  function SpentBy(account: Account, email: string, userEmail: string): real
    requires account.kind == Business && email in account.employees ==> userEmail in account.employees
    reads account`employees, account`managers, SpenderFrame(account, email, userEmail)`spent
  {
    match Spender(account, email, userEmail)
    case None => 0.0
    case Some(e) => e.spent
  }

  /** The username a business payment is booked under, if any. */
  function BookerOf(account: Account, email: string, userEmail: string): Option<string>
    requires account.kind == Business && email in account.employees ==> userEmail in account.employees
    reads account`employees, account`managers
  {
    match Spender(account, email, userEmail)
    case None => None
    case Some(e) => Some(e.username)
  }

  // The three groups of state a card payment changes, as values; each stage
  // of the payment changes one group.

  /** The cashback side: the account's balance, coupons and merchant total, and the merchant's counts. */
  datatype Earnings = Earnings(balance: real, coupons: map<string, real>, spentPerCommerciant: real,
                               counts: map<Account, Option<int>>)

  function EarningsOf(seller: Seller?, account: Account): Earnings
    reads SellerFrame(seller)`numberOfTransactions, account`balance, account`coupons, account`totalSpentPerCommerciant
  {
    Earnings(account.balance, account.coupons, account.totalSpentPerCommerciant,
             if seller == null then map[] else seller.numberOfTransactions)
  }

  /** The listing side: the account's payments, business total and merchant summary, and the acting associate's spending. */
  datatype Listing = Listing(payments: seq<Payment>, totalSpent: real, merchants: map<string, BusinessCommerciant>,
                             spent: real)

  function ListingOf(account: Account, email: string, userEmail: string): Listing
    requires account.kind == Business && email in account.employees ==> userEmail in account.employees
    reads account`payments, account`totalSpent, account`businessCommerciants, account`employees,
          account`managers, SpenderFrame(account, email, userEmail)`spent
  {
    Listing(account.payments, account.totalSpent, account.businessCommerciants, SpentBy(account, email, userEmail))
  }

  /** The written side: the user's history and big-payment count, the card's number and status, the account's history. */
  datatype Writing = Writing(userHistory: seq<Record>, big: int, cardNumber: string, cardStatus: string,
                             history: seq<Record>)

  function WritingOf(user: User, account: Account, card: Card): Writing
    reads user`transactions, user`bigTransactions, card`cardNumber, card`status, account`transactions
  {
    Writing(user.transactions, user.bigTransactions, card.cardNumber, card.status, account.transactions)
  }

  /**
   * What a card payment reads and never changes: the account's kind and
   * IBAN, the user's plan (for the upgrade record) and email, whether the
   * card is one-time, the merchant's strategy, strategy name, category and
   * name, the acting associate's username and role, and the account as the
   * key of the merchant's counts.
   */
  datatype Terms = Terms(kind: Kind, iban: string, plan: Plan, holder: string, oneTime: bool, strategy: Strategy,
                         cashbackType: string, category: string, merchant: string, booker: Option<string>,
                         asEmployee: bool, key: Account)

  function TermsOf(user: User, seller: Seller, account: Account, card: Card): Terms
    requires seller.cashbackStrategy.Some?
    reads user`servicePlan, account`employees, account`managers
  {
    Terms(account.kind, account.iban, user.servicePlan, user.email, card.oneTime, seller.cashbackStrategy.value,
          seller.cashbackType, seller.category, seller.commerciant, BookerOf(account, user.email, user.email),
          user.email in account.employees, account)
  }

  /**
   * The cashback and the debit of a covered payment of `paid` (`ron` in
   * RON) priced on `plan`: the merchant's strategy runs, and the balance
   * loses amount and commission and gains the cashback (scaled by
   * `ronRate`) and the coupon's value.
   */
  function Earned(e: Earnings, t: Terms, plan: Plan, paid: real, ron: real, rate: real, ronRate: real, coupon: real)
    : Earnings
  {
    var cashback := CashbackFor(t.strategy, plan, e.spentPerCommerciant, ron);
    Earnings(Debited(e.balance, paid, rate) + Credit(cashback, ronRate, coupon),
             CouponsAfterStrategy(t.strategy, t.cashbackType, e.coupons, e.counts, t.key),
             TotalAfter(t.strategy, t.cashbackType, e.spentPerCommerciant, ron),
             CountsAfter(t.strategy, t.cashbackType, e.counts, t.key))
  }

  /**
   * A covered payment listed: a classic account keeps it among its
   * payments; on a business account the acting associate's spending and the
   * account's total grow by the amount and the merchant summary records the
   * payer; otherwise nothing moves.
   */
  function Listed(l: Listing, t: Terms, payment: Payment): Listing {
    if t.kind == Classic then l.(payments := l.payments + [payment]) else Spending(l, t, payment.amount)
  }

  /**
   * A business spending of `amount` at the merchant: with an acting
   * associate, its spending and the account's total grow by the amount and
   * the merchant summary records the payer; otherwise nothing moves.
   */
  function Spending(l: Listing, t: Terms, amount: real): Listing {
    if t.booker.Some? then
      Listing(l.payments, l.totalSpent + amount, Booked(l.merchants, t.merchant, t.booker.value, t.asEmployee, amount),
              l.spent + amount)
    else l
  }

  /**
   * A covered payment written down: a big payment is counted, the payment
   * record (and a due upgrade record) goes on the user's history before a
   * one-time card's rotation records, a one-time card takes the fresh number
   * and is active again, and a classic account's history gets the record.
   */
  function Written(w: Writing, t: Terms, payment: Payment, isBig: bool, freshNumber: string): Writing {
    var bumped := Bumped(w.big, isBig);
    Writing(w.userHistory + [payment.AsRecord()]
              + UpgradeRecords(UpgradeDue(bumped, t.plan), payment.timestamp, t.iban)
              + (if t.oneTime then Rotation(payment.timestamp, t.iban, w.cardNumber, freshNumber, t.holder) else []),
            AfterUpgrade(bumped, t.plan),
            if t.oneTime then freshNumber else w.cardNumber,
            if t.oneTime then "active" else w.cardStatus,
            w.history + (if t.kind == Classic then [payment.AsRecord()] else []))
  }

  /** A payment the funds do not cover: "Insufficient funds" on the user (with a due upgrade record) and on a classic account. */
  function Refused(w: Writing, t: Terms, timestamp: int): Writing {
    var failed := CardPayment(timestamp, Some("Insufficient funds"), None, None);
    w.(userHistory := w.userHistory + [failed] + UpgradeRecords(UpgradeDue(w.big, t.plan), timestamp, t.iban),
       big := AfterUpgrade(w.big, t.plan),
       history := w.history + (if t.kind == Classic then [failed] else []))
  }

  /** How a card payment past the early exits ends. */
  datatype Outcome = OverTheLimit | Insufficient | Covered

  /**
   * An employee over the spending limit stops the payment; otherwise it is
   * covered when the balance pays amount and commission and stays above the
   * minimum balance.
   */
  function OutcomeOf(overLimit: bool, balance: real, q: Quote, minBalance: real): (r: Outcome)
    ensures r == OverTheLimit <==> overLimit
    ensures r == Covered <==> !overLimit && Debited(balance, q.paid, q.rate) > minBalance
  {
    if overLimit then OverTheLimit
    else if !Affords(balance, q.paid, q.rate, minBalance) then Insufficient
    else Covered
  }

  /** The cashback side after a payment quoted as `q` on `plan`: a payment under the limit consumes the category coupon, and a covered one earns. */
  function EarningsAfter(e: Earnings, o: Outcome, t: Terms, plan: Plan, q: Quote): Earnings {
    match o
    case OverTheLimit => e
    case Insufficient => e.(coupons := CouponUsed(e.coupons, t.category))
    case Covered =>
      Earned(e.(coupons := CouponUsed(e.coupons, t.category)), t, plan, q.paid, q.ron, q.rate, q.ronRate,
             CouponValue(e.coupons, t.category, q.paid))
  }

  /** The listing side after a payment: only a covered payment is listed. */
  function ListingAfter(l: Listing, o: Outcome, t: Terms, payment: Payment): Listing {
    if o == Covered then Listed(l, t, payment) else l
  }

  /** The written side after a payment: a refused payment is written as refused, a covered one as paid; big when worth 300 RON or more with its commission. */
  function WritingAfter(w: Writing, o: Outcome, t: Terms, q: Quote, payment: Payment, freshNumber: string): Writing {
    match o
    case OverTheLimit => w
    case Insufficient => Refused(w, t, payment.timestamp)
    case Covered => Written(w, t, payment, RonValue(q.paid, q.rate, q.ronRate) >= 300.0, freshNumber)
  }

  // The stages below take the values of their group at entry as ghost
  // snapshots (`e0`, `l0`, `w0`), so that each caller's contract names the
  // same values as its callees'.

  /** The cashback and the debit of a covered payment (`calculateCashback`, then `setBalance`): see `Earned`. */
  method Earn(seller: Seller, account: Account, payer: User, ghost t: Terms, ghost e0: Earnings, paid: real, ron: real,
              rate: real, ronRate: real, coupon: real)
    requires seller.cashbackStrategy == Some(t.strategy) && seller.cashbackType == t.cashbackType && t.key == account
    requires e0 == Earnings(account.balance, account.coupons, account.totalSpentPerCommerciant, seller.numberOfTransactions)
    modifies seller`numberOfTransactions, account`coupons, account`totalSpentPerCommerciant, account`balance
    ensures var e := Earned(e0, t, old(payer.servicePlan), paid, ron, rate, ronRate, coupon);
              account.balance == e.balance && account.coupons == e.coupons
              && account.totalSpentPerCommerciant == e.spentPerCommerciant && seller.numberOfTransactions == e.counts
  {
    var cashback := CalculateCashback(seller, account, payer, ron);
    account.balance := Debited(account.balance, paid, rate) + Credit(cashback, ronRate, coupon);
  }

  /** Lists a covered payment: see `Listed`. */
  method ListPayment(user: User, seller: Seller, account: Account, ghost t: Terms, ghost l0: Listing, payment: Payment)
    requires t.kind == account.kind && t.merchant == seller.commerciant && t.booker == BookerOf(account, user.email, user.email)
    requires t.asEmployee == (user.email in account.employees)
    requires l0 == Listing(account.payments, account.totalSpent, account.businessCommerciants, SpentBy(account, user.email, user.email))
    modifies account`payments, account`totalSpent, account`businessCommerciants,
             SpenderFrame(account, user.email, user.email)`spent
    ensures var l := Listed(l0, t, payment);
              account.payments == l.payments && account.totalSpent == l.totalSpent
              && account.businessCommerciants == l.merchants && SpentBy(account, user.email, user.email) == l.spent
  {
    if account.kind == Classic {
      account.payments := account.payments + [payment];
    } else if account.kind == Business {
      BookSpending(account, user.email, user.email, Some(seller.commerciant), payment.amount);
    }
  }

  /** Writes a covered payment down: see `Written`. */
  method RecordPayment(user: User, account: Account, card: Card, ghost t: Terms, ghost w0: Writing, payment: Payment,
                       isBig: bool, freshNumber: string)
    requires t.kind == account.kind && t.iban == account.iban && t.plan == user.servicePlan
    requires t.holder == user.email && t.oneTime == card.oneTime
    requires w0 == Writing(user.transactions, user.bigTransactions, card.cardNumber, card.status, account.transactions)
    modifies user`transactions, user`bigTransactions, card`cardNumber, card`status, account`transactions
    ensures var w := Written(w0, t, payment, isBig, freshNumber);
              user.transactions == w.userHistory && user.bigTransactions == w.big && card.cardNumber == w.cardNumber
              && card.status == w.cardStatus && account.transactions == w.history
  {
    if isBig && user.bigTransactions < 5 {
      user.bigTransactions := user.bigTransactions + 1;
    }
    ghost var h := user.transactions;
    var changed := card.UseCard(account.iban, user, user.email, payment.timestamp, freshNumber);
    ghost var rotated := user.transactions;
    assert rotated[..|h|] == h && rotated[|h|..] == rotated[|rotated| - (if changed == 1 then 2 else 0)..];
    RecordWithUpgrade(user, payment.AsRecord(), account.iban, payment.timestamp, if changed == 1 then 2 else 0);
    if account.kind == Classic {
      account.transactions := account.transactions + [payment.AsRecord()];
    }
  }

  /** Lists and writes down a covered payment: see `Listed` and `Written`. */
  method Book(user: User, seller: Seller, account: Account, card: Card, ghost t: Terms, ghost l0: Listing,
              ghost w0: Writing, payment: Payment, isBig: bool, freshNumber: string)
    requires t.kind == account.kind && t.merchant == seller.commerciant && t.booker == BookerOf(account, user.email, user.email)
    requires t.asEmployee == (user.email in account.employees)
    requires t.iban == account.iban && t.plan == user.servicePlan && t.holder == user.email && t.oneTime == card.oneTime
    requires l0 == Listing(account.payments, account.totalSpent, account.businessCommerciants, SpentBy(account, user.email, user.email))
    requires w0 == Writing(user.transactions, user.bigTransactions, card.cardNumber, card.status, account.transactions)
    modifies account`payments, account`totalSpent, account`businessCommerciants,
             SpenderFrame(account, user.email, user.email)`spent,
             user`transactions, user`bigTransactions, card`cardNumber, card`status, account`transactions
    ensures var l := Listed(l0, t, payment);
              account.payments == l.payments && account.totalSpent == l.totalSpent
              && account.businessCommerciants == l.merchants && SpentBy(account, user.email, user.email) == l.spent
    ensures var w := Written(w0, t, payment, isBig, freshNumber);
              user.transactions == w.userHistory && user.bigTransactions == w.big && card.cardNumber == w.cardNumber
              && card.status == w.cardStatus && account.transactions == w.history
  {
    ListPayment(user, seller, account, t, l0, payment);
    RecordPayment(user, account, card, t, w0, payment, isBig, freshNumber);
  }

  /** The part of a card payment after the funds check: earned, listed and written down. */
  method Settle(user: User, payer: User, seller: Seller, account: Account, card: Card, ghost t: Terms,
                ghost e0: Earnings, ghost l0: Listing, ghost w0: Writing, paid: real, ron: real, rate: real,
                ronRate: real, coupon: real, payment: Payment, freshNumber: string)
    requires seller.cashbackStrategy.Some? && t == TermsOf(user, seller, account, card)
    requires e0 == Earnings(account.balance, account.coupons, account.totalSpentPerCommerciant, seller.numberOfTransactions)
    requires l0 == Listing(account.payments, account.totalSpent, account.businessCommerciants, SpentBy(account, user.email, user.email))
    requires w0 == Writing(user.transactions, user.bigTransactions, card.cardNumber, card.status, account.transactions)
    modifies user`transactions, user`bigTransactions, card`cardNumber, card`status,
             account`transactions, account`balance, account`coupons, account`totalSpentPerCommerciant,
             account`payments, account`totalSpent, account`businessCommerciants,
             SpenderFrame(account, user.email, user.email)`spent, seller`numberOfTransactions
    ensures var e := Earned(e0, t, old(payer.servicePlan), paid, ron, rate, ronRate, coupon);
              account.balance == e.balance && account.coupons == e.coupons
              && account.totalSpentPerCommerciant == e.spentPerCommerciant && seller.numberOfTransactions == e.counts
    ensures var l := Listed(l0, t, payment);
              account.payments == l.payments && account.totalSpent == l.totalSpent
              && account.businessCommerciants == l.merchants && SpentBy(account, user.email, user.email) == l.spent
    ensures var w := Written(w0, t, payment, RonValue(paid, rate, ronRate) >= 300.0, freshNumber);
              user.transactions == w.userHistory && user.bigTransactions == w.big && card.cardNumber == w.cardNumber
              && card.status == w.cardStatus && account.transactions == w.history
  {
    Earn(seller, account, payer, t, e0, paid, ron, rate, ronRate, coupon);
    Book(user, seller, account, card, t, l0, w0, payment, RonValue(paid, rate, ronRate) >= 300.0, freshNumber);
  }

  /** The refused payment written down: see `Refused`. */
  method Refuse(user: User, account: Account, ghost t: Terms, ghost w0: Writing, timestamp: int)
    requires t.kind == account.kind && t.iban == account.iban && t.plan == user.servicePlan
    requires w0.userHistory == user.transactions && w0.big == user.bigTransactions && w0.history == account.transactions
    modifies user`transactions, user`bigTransactions, account`transactions
    ensures var w := Refused(w0, t, timestamp);
              user.transactions == w.userHistory && user.bigTransactions == w.big && account.transactions == w.history
  {
    var record := CardPayment(timestamp, Some("Insufficient funds"), None, None);
    RecordWithUpgrade(user, record, account.iban, timestamp, 0);
    if account.kind == Classic {
      account.transactions := account.transactions + [record];
    }
  }

  /**
   * The conversions of a card payment: the amount into the account currency
   * (the rate used is stored in the bank), its value in RON, the plan's
   * commission rate and the `RON -> to` rate (see `QuoteFor`).
   */
  method Price(bank: Bnr, amount: real, from: string, to: string, plan: Plan) returns (q: Quote)
    requires bank.Valid()
    modifies bank`exchangeRates
    ensures bank.Valid()
    ensures q == QuoteFor(old(bank.exchangeRates), amount, from, to, plan) && bank.exchangeRates == q.edges
  {
    ghost var edges := bank.exchangeRates;
    var paid := amount;
    if from != to {
      var rate := bank.GetExchangeRate(from, to);
      bank.exchangeRates := bank.exchangeRates + [ExchangeRate(from, to, rate, 0)];
      paid := Scale(amount, rate);
    }
    EdgesAfterNonZero(edges, from, to);
    var ron, ronRate := paid, 1.0;
    if to != "RON" {
      var toRon := bank.GetExchangeRate(to, "RON");
      ron := Scale(paid, toRon);
      ronRate := bank.GetExchangeRate("RON", to);
    }
    q := Quote(bank.exchangeRates, paid, ron, plan.CommissionRate(ron), ronRate);
  }

  /** A card payment within the spending limit: the coupon is used, and the funds decide between refusal and settlement. */
  method ChargeUnderLimit(user: User, payer: User, seller: Seller, account: Account, card: Card, ghost t: Terms,
                          ghost e0: Earnings, ghost l0: Listing, ghost w0: Writing, q: Quote, commerciant: string,
                          timestamp: int, freshNumber: string)
    requires seller.cashbackStrategy.Some? && t == TermsOf(user, seller, account, card)
    requires e0 == Earnings(account.balance, account.coupons, account.totalSpentPerCommerciant, seller.numberOfTransactions)
    requires l0 == Listing(account.payments, account.totalSpent, account.businessCommerciants, SpentBy(account, user.email, user.email))
    requires w0 == Writing(user.transactions, user.bigTransactions, card.cardNumber, card.status, account.transactions)
    modifies user`transactions, user`bigTransactions, card`cardNumber, card`status,
             account`transactions, account`balance, account`coupons, account`totalSpentPerCommerciant,
             account`payments, account`totalSpent, account`businessCommerciants,
             SpenderFrame(account, user.email, user.email)`spent, seller`numberOfTransactions
    ensures var o := OutcomeOf(false, e0.balance, q, account.minBalance);
      var e := EarningsAfter(e0, o, t, old(payer.servicePlan), q);
      var l := ListingAfter(l0, o, t, Payment(timestamp, q.paid, commerciant));
      var w := WritingAfter(w0, o, t, q, Payment(timestamp, q.paid, commerciant), freshNumber);
      account.balance == e.balance && account.coupons == e.coupons
      && account.totalSpentPerCommerciant == e.spentPerCommerciant && seller.numberOfTransactions == e.counts
      && account.payments == l.payments && account.totalSpent == l.totalSpent
      && account.businessCommerciants == l.merchants && SpentBy(account, user.email, user.email) == l.spent
      && user.transactions == w.userHistory && user.bigTransactions == w.big && card.cardNumber == w.cardNumber
      && card.status == w.cardStatus && account.transactions == w.history
  {
    var coupon := UseCoupon(account, seller.category, q.paid);
    if !Affords(account.balance, q.paid, q.rate, account.minBalance) {
      Refuse(user, account, t, w0, timestamp);
      return;
    }
    Settle(user, payer, seller, account, card, t, e0.(coupons := CouponUsed(e0.coupons, t.category)), l0, w0, q.paid,
           q.ron, q.rate, q.ronRate, coupon, Payment(timestamp, q.paid, commerciant), freshNumber);
  }

  /** A card payment past the early exits: the bank stores the rate used, and each group changes by the outcome. */
  method Charge(user: User, payer: User, bank: Bnr, seller: Seller, account: Account, card: Card, ghost t: Terms,
                ghost e0: Earnings, ghost l0: Listing, ghost w0: Writing, amount: real, currency: string,
                commerciant: string, timestamp: int, freshNumber: string)
    requires bank.Valid()
    requires seller.cashbackStrategy.Some? && t == TermsOf(user, seller, account, card)
    requires e0 == Earnings(account.balance, account.coupons, account.totalSpentPerCommerciant, seller.numberOfTransactions)
    requires l0 == Listing(account.payments, account.totalSpent, account.businessCommerciants, SpentBy(account, user.email, user.email))
    requires w0 == Writing(user.transactions, user.bigTransactions, card.cardNumber, card.status, account.transactions)
    modifies bank`exchangeRates, user`transactions, user`bigTransactions, card`cardNumber, card`status,
             account`transactions, account`balance, account`coupons, account`totalSpentPerCommerciant,
             account`payments, account`totalSpent, account`businessCommerciants,
             SpenderFrame(account, user.email, user.email)`spent, seller`numberOfTransactions
    ensures bank.Valid()
    ensures var q := QuoteFor(old(bank.exchangeRates), amount, currency, account.currency, old(payer.servicePlan));
      var o := OutcomeOf(OverLimit(account, user.email, q.paid), e0.balance, q, account.minBalance);
      var e := EarningsAfter(e0, o, t, old(payer.servicePlan), q);
      var l := ListingAfter(l0, o, t, Payment(timestamp, q.paid, commerciant));
      var w := WritingAfter(w0, o, t, q, Payment(timestamp, q.paid, commerciant), freshNumber);
      bank.exchangeRates == q.edges
      && account.balance == e.balance && account.coupons == e.coupons
      && account.totalSpentPerCommerciant == e.spentPerCommerciant && seller.numberOfTransactions == e.counts
      && account.payments == l.payments && account.totalSpent == l.totalSpent
      && account.businessCommerciants == l.merchants && SpentBy(account, user.email, user.email) == l.spent
      && user.transactions == w.userHistory && user.bigTransactions == w.big && card.cardNumber == w.cardNumber
      && card.status == w.cardStatus && account.transactions == w.history
  {
    var q := Price(bank, amount, currency, account.currency, payer.servicePlan);
    if OverLimit(account, user.email, q.paid) {
      return;
    }
    ChargeUnderLimit(user, payer, seller, account, card, t, e0, l0, w0, q, commerciant, timestamp, freshNumber);
  }

  /** A payment stopped before any conversion: the record goes on the user when asked, and on a classic account. */
  method Stop(user: User, account: Account, record: Record, onUser: bool)
    modifies user`transactions, account`transactions
    ensures user.transactions == old(user.transactions) + (if onUser then [record] else [])
    ensures account.transactions == old(account.transactions) + (if account.kind == Classic then [record] else [])
  {
    if onUser {
      user.transactions := user.transactions + [record];
    }
    if account.kind == Classic {
      account.transactions := account.transactions + [record];
    }
  }

  /** The account `FindCardIn` picks for the number, as a frame (empty when there is none). */
  function FoundAccount(user: User, number: string): set<Account>
    reads user, user.accounts, CardsOf(user.accounts)
  {
    match FindCardIn(user.accounts, number, 0)
    case None => {}
    case Some(ix) => {user.accounts[ix.0]}
  }

  /** The card `FindCardIn` picks for the number, as a frame. */
  function FoundCard(user: User, number: string): set<Card>
    reads user, user.accounts, CardsOf(user.accounts)
  {
    match FindCardIn(user.accounts, number, 0)
    case None => {}
    case Some(ix) => {user.accounts[ix.0].cards[ix.1]}
  }

  /** The acting associate of the user on the picked account, as a frame. */
  function FoundSpender(user: User, number: string): set<Employee>
    reads user, user.accounts, CardsOf(user.accounts)
  {
    match FindCardIn(user.accounts, number, 0)
    case None => {}
    case Some(ix) => SpenderFrame(user.accounts[ix.0], user.email, user.email)
  }

  /**
   * A card payment with a found card. A missing merchant or an amount of 0
   * stops at once, recording an empty payment on a classic account; a frozen
   * card records "The card is frozen" on the user (and on a classic account).
   * Otherwise the payment is charged as `Charge` says, on the owner's plan
   * for a business account and the user's otherwise.
   */
  method PayWithCard(user: User, bank: Bnr, seller: Seller?, account: Account, card: Card, amount: real,
                     currency: string, commerciant: string, timestamp: int, freshNumber: string)
    requires bank.Valid()
    requires account.kind == Business ==> account.owner != null
    requires seller != null ==> seller.cashbackStrategy.Some?
    modifies bank`exchangeRates, user`transactions, user`bigTransactions, card`cardNumber, card`status,
             account`transactions, account`balance, account`coupons, account`totalSpentPerCommerciant,
             account`payments, account`totalSpent, account`businessCommerciants,
             SpenderFrame(account, user.email, user.email)`spent, SellerFrame(seller)`numberOfTransactions
    ensures bank.Valid()
    // stopped before any conversion
    ensures seller == null || amount == 0.0 || old(card.status) == "frozen" ==>
              var record := CardPayment(timestamp, if old(card.status) == "frozen" then Some("The card is frozen") else None,
                                        None, None);
              var w := old(WritingOf(user, account, card));
              WritingOf(user, account, card) ==
                w.(userHistory := w.userHistory + (if seller != null && amount != 0.0 then [record] else []),
                   history := w.history + (if account.kind == Classic then [record] else []))
              && EarningsOf(seller, account) == old(EarningsOf(seller, account))
              && ListingOf(account, user.email, user.email) == old(ListingOf(account, user.email, user.email)) && unchanged(bank)
    // charged, on the owner's plan for a business account
    ensures seller != null && amount != 0.0 && old(card.status) != "frozen" ==>
              var plan := old(PayingUser(account, user).servicePlan);
              var q := QuoteFor(old(bank.exchangeRates), amount, currency, account.currency, plan);
              var e0 := old(EarningsOf(seller, account));
              var o := OutcomeOf(OverLimit(account, user.email, q.paid), e0.balance, q, account.minBalance);
              var t := old(TermsOf(user, seller, account, card));
              var e := EarningsAfter(e0, o, t, plan, q);
              var l := ListingAfter(old(ListingOf(account, user.email, user.email)), o, t, Payment(timestamp, q.paid, commerciant));
              var w := WritingAfter(old(WritingOf(user, account, card)), o, t, q, Payment(timestamp, q.paid, commerciant),
                                    freshNumber);
              bank.exchangeRates == q.edges
              && account.balance == e.balance && account.coupons == e.coupons
              && account.totalSpentPerCommerciant == e.spentPerCommerciant && seller.numberOfTransactions == e.counts
              && account.payments == l.payments && account.totalSpent == l.totalSpent
              && account.businessCommerciants == l.merchants && SpentBy(account, user.email, user.email) == l.spent
              && user.transactions == w.userHistory && user.bigTransactions == w.big && card.cardNumber == w.cardNumber
              && card.status == w.cardStatus && account.transactions == w.history
  {
    var frozen := card.status == "frozen";
    if seller == null || amount == 0.0 || frozen {
      Stop(user, account, CardPayment(timestamp, if frozen then Some("The card is frozen") else None, None, None),
           seller != null && amount != 0.0);
      return;
    }
    var payer := PayingUser(account, user);
    Charge(user, payer, bank, seller, account, card, TermsOf(user, seller, account, card), EarningsOf(seller, account),
           ListingOf(account, user.email, user.email), WritingOf(user, account, card), amount, currency, commerciant, timestamp, freshNumber);
  }

  /**
   * `PayOnlineTransaction.makeTransaction` with `pickCard`, for the user the
   * command's email names: the card is searched over the user's accounts
   * (`FindCardIn`, the search `PickCard` performs); a missing card gives a
   * "Card not found" notice and changes nothing else, a found one is paid
   * with as `PayWithCard` says. Only the picked account, its card and the
   * user's acting associate on it, the user, the bank and the merchant can
   * change.
   */
  method PayOnline(user: User, bank: Bnr, seller: Seller?, cardNumber: string, amount: real, currency: string,
                   commerciant: string, command: string, timestamp: int, freshNumber: string, output: Output)
    returns (account: Account?, card: Card?)
    requires bank.Valid()
    requires forall a :: a in user.accounts && a.kind == Business ==> a.owner != null
    requires seller != null ==> seller.cashbackStrategy.Some?
    modifies bank`exchangeRates, output, user`transactions, user`bigTransactions,
             FoundCard(user, cardNumber)`cardNumber, FoundCard(user, cardNumber)`status,
             FoundAccount(user, cardNumber)`transactions, FoundAccount(user, cardNumber)`balance,
             FoundAccount(user, cardNumber)`coupons, FoundAccount(user, cardNumber)`totalSpentPerCommerciant,
             FoundAccount(user, cardNumber)`payments, FoundAccount(user, cardNumber)`totalSpent,
             FoundAccount(user, cardNumber)`businessCommerciants, FoundSpender(user, cardNumber)`spent,
             SellerFrame(seller)`numberOfTransactions
    ensures bank.Valid()
    ensures var found := old(FindCardIn(user.accounts, cardNumber, 0));
              (found.None? <==> account == null) && (account == null <==> card == null)
              && (found.Some? ==> account == user.accounts[found.value.0] && card == old(account.cards[found.value.1]))
    // no such card
    ensures account == null ==>
              output.entries == old(output.entries) + [Notice(command, timestamp, "description", "Card not found")]
              && unchanged(bank, user) && unchanged(SellerFrame(seller))
    ensures account != null ==> output.entries == old(output.entries)
    // a found card, stopped before any conversion
    ensures account != null && (seller == null || amount == 0.0 || old(card.status) == "frozen") ==>
              var record := CardPayment(timestamp, if old(card.status) == "frozen" then Some("The card is frozen") else None,
                                        None, None);
              var w := old(WritingOf(user, account, card));
              WritingOf(user, account, card) ==
                w.(userHistory := w.userHistory + (if seller != null && amount != 0.0 then [record] else []),
                   history := w.history + (if account.kind == Classic then [record] else []))
              && EarningsOf(seller, account) == old(EarningsOf(seller, account))
              && ListingOf(account, user.email, user.email) == old(ListingOf(account, user.email, user.email)) && unchanged(bank)
    // a found card, charged
    ensures account != null && seller != null && amount != 0.0 && old(card.status) != "frozen" ==>
              var plan := old(PayingUser(account, user).servicePlan);
              var q := QuoteFor(old(bank.exchangeRates), amount, currency, account.currency, plan);
              var e0 := old(EarningsOf(seller, account));
              var o := OutcomeOf(OverLimit(account, user.email, q.paid), e0.balance, q, account.minBalance);
              var t := old(TermsOf(user, seller, account, card));
              var e := EarningsAfter(e0, o, t, plan, q);
              var l := ListingAfter(old(ListingOf(account, user.email, user.email)), o, t, Payment(timestamp, q.paid, commerciant));
              var w := WritingAfter(old(WritingOf(user, account, card)), o, t, q, Payment(timestamp, q.paid, commerciant),
                                    freshNumber);
              bank.exchangeRates == q.edges
              && account.balance == e.balance && account.coupons == e.coupons
              && account.totalSpentPerCommerciant == e.spentPerCommerciant && seller.numberOfTransactions == e.counts
              && account.payments == l.payments && account.totalSpent == l.totalSpent
              && account.businessCommerciants == l.merchants && SpentBy(account, user.email, user.email) == l.spent
              && user.transactions == w.userHistory && user.bigTransactions == w.big && card.cardNumber == w.cardNumber
              && card.status == w.cardStatus && account.transactions == w.history
  {
    var found := FindCardIn(user.accounts, cardNumber, 0);
    if found.None? {
      account, card := null, null;
      output.PrintError(command, "Card not found", timestamp);
      return;
    }
    account := user.accounts[found.value.0];
    card := account.cards[found.value.1];
    PayWithCard(user, bank, seller, account, card, amount, currency, commerciant, timestamp, freshNumber);
  }
}
