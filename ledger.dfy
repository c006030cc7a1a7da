/**
 * The ledger's mutable entities: cards, business associates, accounts and
 * users. They refer to one another (a user holds accounts, an account holds
 * cards and associates, an associate holds its user), so they share a module.
 *
 * The three account classes of the source become one class whose constant
 * `kind` says which class it is; the fields of the savings and business
 * subclasses are present on every account and keep their initial values on
 * the others.
 */
module Ledger {
  import opened Wrappers
  import opened ServicePlans
  import opened Records
  import opened ExchangeRates

  // ---------------------------------------------------------------------
  // Cards

  class Card {
    var cardNumber: string
    var status: string
    var checkedStatus: int
    const creatorEmail: string
    /** A `OneTimeCard`, which is replaced by a new number whenever it pays. */
    const oneTime: bool

    constructor (cardNumber: string, email: string, status: string)
      ensures this.cardNumber == cardNumber && creatorEmail == email && this.status == status
      ensures checkedStatus == 0 && !oneTime
    {
      this.cardNumber := cardNumber;
      creatorEmail := email;
      this.status := status;
      checkedStatus := 0;
      oneTime := false;
    }

    constructor OneTime(cardNumber: string, email: string)
      ensures this.cardNumber == cardNumber && creatorEmail == email && status == "active"
      ensures checkedStatus == 0 && oneTime
    {
      this.cardNumber := cardNumber;
      creatorEmail := email;
      status := "active";
      checkedStatus := 0;
      oneTime := true;
    }

    method SetStatus(s: string)
      modifies this`status
      ensures status == s
    {
      status := s;
    }

    /**
     * Called after a successful payment. A plain card does nothing and
     * returns 0. A one-time card records its destruction (old number) and
     * the creation of its replacement (`freshNumber`, standing for the
     * generated number) on the user's history, takes the new number, becomes
     * active again and returns 1.
     */
    method UseCard(account: string, user: User, cardHolder: string, timestamp: int, freshNumber: string)
      returns (changed: int)
      modifies this`cardNumber, this`status, user`transactions
      ensures !oneTime ==> changed == 0 && cardNumber == old(cardNumber) && status == old(status)
                           && user.transactions == old(user.transactions)
      ensures oneTime ==> changed == 1 && cardNumber == freshNumber && status == "active"
      ensures oneTime ==> user.transactions == old(user.transactions)
                            + [CardDestruction(timestamp, "The card has been destroyed", account, old(cardNumber), cardHolder),
                               CardCreation(timestamp, "New card created", account, freshNumber, cardHolder)]
    {
      if !oneTime {
        return 0;
      }
      user.transactions := user.transactions + [CardDestruction(timestamp, "The card has been destroyed", account, cardNumber, cardHolder)];
      cardNumber := freshNumber;
      user.transactions := user.transactions + [CardCreation(timestamp, "New card created", account, cardNumber, cardHolder)];
      status := "active";
      return 1;
    }
  }

  // ---------------------------------------------------------------------
  // Business associates

  /** One merchant's entry in a business account's merchant summary. */
  datatype BusinessCommerciant = BusinessCommerciant(commerciant: string, employees: seq<string>, managers: seq<string>,
                                                     totalReceived: real)

  /** `new BusinessCommerciant(name)`: no payers yet and nothing received. */
  function NewBusinessCommerciant(name: string): (r: BusinessCommerciant)
    ensures r.commerciant == name && r.employees == [] && r.managers == [] && r.totalReceived == 0.0
  {
    BusinessCommerciant(name, [], [], 0.0)
  }

  /**
   * An employee, manager or owner of a business account. Permissions rank
   * the role: 0 employee, 1 manager, 2 owner; only an owner has an account
   * back-reference.
   */
  class Employee {
    var deposited: real
    var spent: real
    const username: string
    const user: User
    const permissions: int
    var account: Account?

    constructor (user: User)
      ensures this.user == user && deposited == 0.0 && spent == 0.0
      ensures username == user.lastName + " " + user.firstName
      ensures permissions == 0 && account == null
    {
      this.user := user;
      deposited := 0.0;
      spent := 0.0;
      username := user.lastName + " " + user.firstName;
      permissions := 0;
      account := null;
    }

    constructor Manager(user: User)
      ensures this.user == user && deposited == 0.0 && spent == 0.0
      ensures username == user.lastName + " " + user.firstName
      ensures permissions == 1 && account == null
    {
      this.user := user;
      deposited := 0.0;
      spent := 0.0;
      username := user.lastName + " " + user.firstName;
      permissions := 1;
      account := null;
    }

    constructor Owner(user: User, account: Account)
      ensures this.user == user && deposited == 0.0 && spent == 0.0
      ensures username == user.lastName + " " + user.firstName
      ensures permissions == 2 && this.account == account
    {
      this.user := user;
      deposited := 0.0;
      spent := 0.0;
      username := user.lastName + " " + user.firstName;
      this.account := account;
      permissions := 2;
    }

    method SetDeposited(amount: real)
      modifies this`deposited
      ensures deposited == amount
    {
      deposited := amount;
    }

    method SetSpent(amount: real)
      modifies this`spent
      ensures spent == amount
    {
      spent := amount;
    }
  }

  // ---------------------------------------------------------------------
  // Accounts

  datatype Kind = Classic | Savings | Business

  /** The balance after one interest payment: old + old × rate. */
  function WithInterest(balance: real, interest: real): (r: real)
    ensures interest == 0.0 || balance == 0.0 ==> r == balance
  {
    balance + balance * interest
  }

  /** Interest at rate 0, or on a zero balance, changes nothing; with both non-negative it never lowers the balance. */
  lemma InterestFacts(balance: real, interest: real)
    ensures interest == 0.0 ==> WithInterest(balance, interest) == balance
    ensures balance == 0.0 ==> WithInterest(balance, interest) == balance
    ensures balance >= 0.0 && interest >= 0.0 ==> WithInterest(balance, interest) >= balance
    ensures interest > 0.0 && balance < 0.0 ==> WithInterest(balance, interest) < balance
  {
    assert WithInterest(balance, interest) - balance == balance * interest;
    if balance >= 0.0 && interest >= 0.0 {
      assert balance * interest >= 0.0;
    }
    if interest > 0.0 && balance < 0.0 {
      assert balance * interest < 0.0;
    }
  }

  /** The spending and deposit limits a new business account starts with: 500 RON in the account's currency. */
  function InitialLimit(edges: seq<ExchangeRate>, currency: string): (r: real)
    ensures currency == "RON" ==> r == 0.0
    ensures currency != "RON" && Rate(edges, "RON", currency) == -1.0 ==> r == -500.0
  {
    if currency == "RON" then 0.0 else Rate(edges, "RON", currency) * 500.0
  }

  /**
   * A RON account starts at 0. The -1 "no conversion" result is not checked,
   * so a currency unreachable from RON starts at -500, and a reachable one at
   * a positive limit.
   */
  lemma InitialLimitFacts(edges: seq<ExchangeRate>, currency: string)
    requires Positive(edges)
    ensures currency == "RON" ==> InitialLimit(edges, currency) == 0.0
    ensures currency != "RON" && !Reachable(edges, "RON", currency) ==> InitialLimit(edges, currency) == -500.0
    ensures currency != "RON" && Reachable(edges, "RON", currency) ==> InitialLimit(edges, currency) > 0.0
  {
    RateSentinel(edges, "RON", currency);
  }

  class Account {
    const kind: Kind
    const iban: string
    const currency: string
    var balance: real
    var minBalance: real
    var cards: seq<Card>
    var transactions: seq<Record>
    /** The card payments made at merchants (`getCommerciants().getPayments()`). */
    var payments: seq<Payment>
    /** Category coupons: -1 used up, 0 (or absent) none, positive an active rate. */
    var coupons: map<string, real>
    /** The running total the spending-threshold cashback tiers are chosen by. */
    var totalSpentPerCommerciant: real
    // savings accounts
    var interest: real
    // business accounts
    var depositLimit: real
    var spendingLimit: real
    var employees: map<string, Employee>
    var managers: map<string, Employee>
    var totalDeposited: real
    var totalSpent: real
    var owner: Employee?
    var businessCommerciants: map<string, BusinessCommerciant>

    /** The `type` string the pipelines branch on. */
    function Type(): string {
      match kind
      case Classic => "classic"
      case Savings => "savings"
      case Business => "business"
    }

    /** The fields every new account starts with. */
    ghost predicate Initial()
      reads this
    {
      balance == 0.0 && minBalance == 0.0 && cards == [] && transactions == [] && payments == []
      && coupons == map[] && totalSpentPerCommerciant == 0.0
      && depositLimit == 0.0 && spendingLimit == 0.0 && employees == map[] && managers == map[]
      && totalDeposited == 0.0 && totalSpent == 0.0 && businessCommerciants == map[]
    }

    constructor (iban: string, currency: string)
      ensures kind == Classic && this.iban == iban && this.currency == currency
      ensures Initial() && interest == 0.0 && owner == null
    {
      kind := Classic;
      this.iban := iban;
      this.currency := currency;
      balance, minBalance := 0.0, 0.0;
      cards, transactions, payments := [], [], [];
      coupons := map[];
      totalSpentPerCommerciant, interest := 0.0, 0.0;
      depositLimit, spendingLimit := 0.0, 0.0;
      employees, managers := map[], map[];
      totalDeposited, totalSpent := 0.0, 0.0;
      owner := null;
      businessCommerciants := map[];
    }

    constructor SavingsAccount(iban: string, currency: string, interest: real)
      ensures kind == Savings && this.iban == iban && this.currency == currency
      ensures Initial() && this.interest == interest && owner == null
    {
      kind := Savings;
      this.iban := iban;
      this.currency := currency;
      balance, minBalance := 0.0, 0.0;
      cards, transactions, payments := [], [], [];
      coupons := map[];
      totalSpentPerCommerciant := 0.0;
      this.interest := interest;
      depositLimit, spendingLimit := 0.0, 0.0;
      employees, managers := map[], map[];
      totalDeposited, totalSpent := 0.0, 0.0;
      owner := null;
      businessCommerciants := map[];
    }

    /** A business account: `user` becomes its owner; both limits start at 500 RON converted. */
    constructor BusinessAccount(iban: string, currency: string, user: User, bank: Bnr)
      ensures kind == Business && this.iban == iban && this.currency == currency && interest == 0.0
      ensures balance == 0.0 && minBalance == 0.0 && cards == [] && transactions == [] && payments == []
      ensures coupons == map[] && totalSpentPerCommerciant == 0.0
      ensures employees == map[] && managers == map[] && totalDeposited == 0.0 && totalSpent == 0.0
      ensures businessCommerciants == map[]
      ensures spendingLimit == InitialLimit(bank.exchangeRates, currency)
      ensures depositLimit == InitialLimit(bank.exchangeRates, currency)
      ensures owner != null && fresh(owner) && owner.user == user && owner.account == this && owner.permissions == 2
      ensures owner.deposited == 0.0 && owner.spent == 0.0
    {
      var limit := 0.0;
      if currency != "RON" {
        var rate := bank.GetExchangeRate("RON", currency);
        limit := rate * 500.0;
      }
      kind := Business;
      this.iban := iban;
      this.currency := currency;
      balance, minBalance := 0.0, 0.0;
      cards, transactions, payments := [], [], [];
      coupons := map[];
      totalSpentPerCommerciant, interest := 0.0, 0.0;
      employees, managers := map[], map[];
      totalDeposited, totalSpent := 0.0, 0.0;
      businessCommerciants := map[];
      spendingLimit, depositLimit := limit, limit;
      new;
      owner := new Employee.Owner(user, this);
    }

    method SetBalance(b: real)
      modifies this`balance
      ensures balance == b
    {
      balance := b;
    }

    method SetMinBalance(m: real)
      modifies this`minBalance
      ensures minBalance == m
    {
      minBalance := m;
    }

    method SetSpendingLimit(l: real)
      modifies this`spendingLimit
      ensures spendingLimit == l
    {
      spendingLimit := l;
    }

    method SetDepositLimit(l: real)
      modifies this`depositLimit
      ensures depositLimit == l
    {
      depositLimit := l;
    }

    /** Only a savings account stores a new rate; the classic (and business) hook does nothing. */
    method ChangeInterest(rate: real)
      modifies this`interest
      ensures kind == Savings ==> interest == rate
      ensures kind != Savings ==> interest == old(interest)
    {
      if kind == Savings {
        interest := rate;
      }
    }

    /** Only a savings account earns interest; the classic (and business) hook does nothing. */
    method AddInterest()
      modifies this`balance
      ensures kind == Savings ==> balance == WithInterest(old(balance), interest)
      ensures kind != Savings ==> balance == old(balance)
    {
      if kind == Savings {
        var initialBalance := balance;
        balance := initialBalance + initialBalance * interest;
      }
    }
  }

  // ---------------------------------------------------------------------
  // Users

  /** The plan a new user gets from their occupation. */
  function PlanFor(occupation: string): (p: Plan)
    ensures occupation == "student" <==> p == Student
    ensures occupation != "student" <==> p == Standard
  {
    if occupation == "student" then Student else Standard
  }

  class User {
    const firstName: string
    const lastName: string
    const email: string
    var accounts: seq<Account>
    var transactions: seq<Record>
    const birthDate: string
    const occupation: string
    var numberOfSavingsAccounts: int
    var servicePlan: Plan
    /** The pending split payments waiting for this user's answer. */
    var activeTransactions: seq<object>
    var bigTransactions: int

    constructor (firstName: string, lastName: string, email: string, birthDate: string, occupation: string)
      ensures this.firstName == firstName && this.lastName == lastName && this.email == email
      ensures this.birthDate == birthDate && this.occupation == occupation
      ensures accounts == [] && transactions == [] && activeTransactions == []
      ensures bigTransactions == 0 && numberOfSavingsAccounts == 0
      ensures servicePlan == PlanFor(occupation)
    {
      this.firstName := firstName;
      this.lastName := lastName;
      this.email := email;
      this.birthDate := birthDate;
      this.occupation := occupation;
      accounts, transactions, activeTransactions := [], [], [];
      bigTransactions, numberOfSavingsAccounts := 0, 0;
      servicePlan := if occupation == "student" then Student else Standard;
    }

    method SetServicePlan(p: Plan)
      modifies this`servicePlan
      ensures servicePlan == p
    {
      servicePlan := p;
    }

    method SetBigTransactions(n: int)
      modifies this`bigTransactions
      ensures bigTransactions == n
    {
      bigTransactions := n;
    }
  }

  // ---------------------------------------------------------------------
  // Frames for references the source may pass as null

  /** The account as a frame: itself, or nothing when it is missing. */
  function AccountFrame(account: Account?): set<Account> {
    if account == null then {} else {account}
  }

  function UserFrame(user: User?): set<User> {
    if user == null then {} else {user}
  }

  function CardFrame(card: Card?): set<Card> {
    if card == null then {} else {card}
  }

  /** Every associate object reachable from the account's role maps (none for a missing account). */
  function AssociatesOf(account: Account?): set<Employee>
    reads AccountFrame(account)`employees, AccountFrame(account)`managers
  {
    if account == null then {} else account.employees.Values + account.managers.Values
  }

  /** The associate a business operation is booked on: the employee under the email, else the manager. */
  function ActingAssociate(account: Account, email: string): (r: Option<Employee>)
    reads account`employees, account`managers
    ensures r.Some? ==> r.value in AssociatesOf(account)
    ensures r.None? <==> account.kind != Business || (email !in account.employees && email !in account.managers)
  {
    if account.kind != Business then None
    else if email in account.employees then Some(account.employees[email])
    else if email in account.managers then Some(account.managers[email])
    else None
  }

  // ---------------------------------------------------------------------
  // Searches

  /** The accounts of a user as a frame (none for a missing user). */
  function AccountsOf(user: User?): set<Account>
    reads user
  {
    if user == null then {} else set a | a in user.accounts
  }

  /** The index of the first account with the IBAN. */
  function FindAccount(accounts: seq<Account>, iban: string, from: nat): (r: Option<nat>)
    requires from <= |accounts|
    reads accounts
    ensures r.Some? ==> from <= r.value < |accounts| && accounts[r.value].iban == iban
                        && forall j :: from <= j < r.value ==> accounts[j].iban != iban
    ensures r.None? ==> forall j :: from <= j < |accounts| ==> accounts[j].iban != iban
    decreases |accounts| - from
  {
    if from == |accounts| then None
    else if accounts[from].iban == iban then Some(from)
    else FindAccount(accounts, iban, from + 1)
  }

  /** The index of the first card with the number. */
  function FindCard(cards: seq<Card>, number: string, from: nat): (r: Option<nat>)
    requires from <= |cards|
    reads cards
    ensures r.Some? ==> from <= r.value < |cards| && cards[r.value].cardNumber == number
                        && forall j :: from <= j < r.value ==> cards[j].cardNumber != number
    ensures r.None? ==> forall j :: from <= j < |cards| ==> cards[j].cardNumber != number
    decreases |cards| - from
  {
    if from == |cards| then None
    else if cards[from].cardNumber == number then Some(from)
    else FindCard(cards, number, from + 1)
  }
}
