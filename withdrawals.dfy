/**
 * The two withdrawals: cash from a card at an ATM (`CashWithdrawTransaction`)
 * and money moved from a savings account to the user's first classic account
 * in the requested currency (`WithdrawSavingsTransaction`).
 */
module Withdrawals {
  import opened Wrappers
  import opened ServicePlans
  import opened Records
  import opened ExchangeRates
  import opened Ledger
  import opened Pricing

  // ---------------------------------------------------------------------
  // Cash withdrawal

  /**
   * A cash withdrawal of `amount` RON. An empty email is "User not found"
   * and an unknown card "Card not found", both as output notices. A frozen
   * card writes "The card is frozen" on the user. Otherwise the amount is
   * converted into the account's currency and, with the plan's commission on
   * the RON amount, taken from the balance when what is left stays above the
   * minimum; when it would not, "Insufficient funds" is written on the user.
   * A successful withdrawal writes no record.
   */
  method CashWithdraw(user: User?, account: Account?, card: Card?, bank: Bnr, email: string, amount: real,
                      command: string, timestamp: int, output: Output)
    modifies output, AccountFrame(account)`balance, UserFrame(user)`transactions
    ensures email == "" ==>
              output.entries == old(output.entries) + [Notice(command, timestamp, "description", "User not found")]
    ensures email != "" && (user == null || account == null || card == null) ==>
              output.entries == old(output.entries) + [Notice(command, timestamp, "description", "Card not found")]
    ensures email == "" || user == null || account == null || card == null ==>
              unchanged(AccountFrame(account), UserFrame(user))
    ensures email != "" && user != null && account != null && card != null ==>
              var due := Convert(bank.exchangeRates, amount, "RON", account.currency);
              var rate := user.servicePlan.CommissionRate(amount);
              output.entries == old(output.entries)
              && (card.status == "frozen" ==>
                    account.balance == old(account.balance)
                    && user.transactions == old(user.transactions) + [CashWithdrawal(timestamp, "The card is frozen")])
              && (card.status != "frozen" && Affords(old(account.balance), due, rate, account.minBalance) ==>
                    account.balance == Debited(old(account.balance), due, rate) && user.transactions == old(user.transactions))
              && (card.status != "frozen" && !Affords(old(account.balance), due, rate, account.minBalance) ==>
                    account.balance == old(account.balance)
                    && user.transactions == old(user.transactions) + [CashWithdrawal(timestamp, "Insufficient funds")])
    // what the withdrawal leaves is above the minimum, or the balance did not move
    ensures account != null ==> account.balance == old(account.balance) || account.balance > account.minBalance
  {
    if email == "" {
      output.PrintError(command, "User not found", timestamp);
      return;
    }
    if user == null || account == null || card == null {
      output.PrintError(command, "Card not found", timestamp);
      return;
    }
    if card.status == "frozen" {
      user.transactions := user.transactions + [CashWithdrawal(timestamp, "The card is frozen")];
      return;
    }
    var due := Exchange(bank, amount, "RON", account.currency);
    var rate := user.servicePlan.CommissionRate(amount);
    if !Affords(account.balance, due, rate, account.minBalance) {
      user.transactions := user.transactions + [CashWithdrawal(timestamp, "Insufficient funds")];
    } else {
      account.balance := Debited(account.balance, due, rate);
    }
  }

  // ---------------------------------------------------------------------
  // The birth year

  /** The age check counts from 2025 and asks for at least 21 years. */
  const CurrentYear := 2025
  const MinimumAge := 21

  function DigitValue(c: char): int {
    c as int - '0' as int
  }

  predicate IsDigit(c: char) {
    '0' <= c <= '9'
  }

  /** The value of a non-empty run of decimal digits, or nothing when the text is empty or holds another character. */
  function Digits(s: string): (r: Option<nat>)
    ensures r.Some? <==> |s| > 0 && forall i :: 0 <= i < |s| ==> IsDigit(s[i])
  {
    if |s| == 0 || !IsDigit(s[|s| - 1]) then None
    else if |s| == 1 then Some(DigitValue(s[0]) as nat)
    else match Digits(s[..|s| - 1])
         case None => None
         case Some(v) => Some(v * 10 + DigitValue(s[|s| - 1]) as nat)
  }

  /** `Integer.parseInt`: an optional sign followed by digits, or nothing (the source throws). */
  function ParseInt(s: string): (r: Option<int>)
    ensures Digits(s).Some? ==> r == Some(Digits(s).value as int)
    ensures r.Some? ==> |s| > 0
    ensures r.Some? && r.value < 0 ==> s[0] == '-'
  {
    if |s| > 0 && s[0] == '-' then (match Digits(s[1..]) case None => None case Some(v) => Some(-(v as int)))
    else if |s| > 0 && s[0] == '+' then (match Digits(s[1..]) case None => None case Some(v) => Some(v))
    else (match Digits(s) case None => None case Some(v) => Some(v))
  }

  /** A year written with four digits, as a birth date starts. */
  function FourDigits(y: nat): string
    requires y < 10000
  {
    [(('0' as int) + y / 1000) as char, (('0' as int) + y / 100 % 10) as char, (('0' as int) + y / 10 % 10) as char,
     (('0' as int) + y % 10) as char]
  }

  /** Reading a four-digit year back gives the year. */
  lemma FourDigitsRoundTrip(y: nat)
    requires y < 10000
    ensures ParseInt(FourDigits(y)) == Some(y)
  {
    var s := FourDigits(y);
    // the leading digits, read as numbers, are the year divided by 1000, 100 and 10
    assert y / 100 == y / 1000 * 10 + y / 100 % 10;
    assert y / 10 == y / 100 * 10 + y / 10 % 10;
    assert y == y / 10 * 10 + y % 10;
    assert s[..3][..2][..1] == [s[0]];
    assert Digits(s[..3][..2][..1]) == Some(y / 1000);
    assert s[..3][..2] == [s[0], s[1]];
    assert Digits(s[..3][..2]) == Some(y / 100);
    assert s[..3] == [s[0], s[1], s[2]];
    assert Digits(s[..3]) == Some(y / 10);
  }

  /** The year a birth date starts with: its first four characters, parsed. */
  function BirthYear(birthDate: string): (r: Option<int>)
    ensures |birthDate| < 4 ==> r == None
    ensures |birthDate| >= 4 && Digits(birthDate[..4]).Some? ==> r == Some(Digits(birthDate[..4]).value as int)
  {
    if |birthDate| < 4 then None else ParseInt(birthDate[..4])
  }

  // ---------------------------------------------------------------------
  // Savings withdrawal

  /** Whether an account is a classic one in the currency. */
  predicate ClassicIn(a: Account, currency: string) {
    a.kind == Classic && a.currency == currency
  }

  /** The position of the first classic account in the currency (`findFirst`), from position `from` on. */
  function FirstClassic(accounts: seq<Account>, currency: string, from: nat): (r: Option<nat>)
    requires from <= |accounts|
    ensures r.Some? ==> from <= r.value < |accounts| && ClassicIn(accounts[r.value], currency)
                        && forall j :: from <= j < r.value ==> !ClassicIn(accounts[j], currency)
    ensures r.None? ==> forall j :: from <= j < |accounts| ==> !ClassicIn(accounts[j], currency)
    decreases |accounts| - from
  {
    if from == |accounts| then None
    else if ClassicIn(accounts[from], currency) then Some(from)
    else FirstClassic(accounts, currency, from + 1)
  }

  /** The balance the withdrawal credits: the first classic account in the currency, if there is one. */
  function ClassicFrame(user: User?, currency: string): set<Account>
    reads user
  {
    if user == null then {}
    else match FirstClassic(user.accounts, currency, 0)
         case None => {}
         case Some(i) => {user.accounts[i]}
  }

  /** A refusal: the message, and whether the savings account records it as well as the user. */
  datatype Refusal = Refusal(message: string, onAccount: bool)

  /** The checks in order once an account was found; nothing when the withdrawal may go ahead. */
  function SavingsRefusal(user: User, account: Account, currency: string): (r: Option<Refusal>)
    requires account.kind == Savings && |user.accounts| - user.numberOfSavingsAccounts >= 1 ==>
               BirthYear(user.birthDate).Some?
    reads user`accounts, user`numberOfSavingsAccounts
    ensures r.None? ==> FirstClassic(user.accounts, currency, 0).Some?
  {
    if account.kind != Savings then Some(Refusal("Account is not of type savings.", false))
    else if |user.accounts| - user.numberOfSavingsAccounts < 1 then Some(Refusal("You do not have a classic account.", true))
    else if CurrentYear - BirthYear(user.birthDate).value < MinimumAge then
      Some(Refusal("You don't have the minimum age required.", false))
    else if FirstClassic(user.accounts, currency, 0).None? then Some(Refusal("You do not have a classic account.", true))
    else None
  }

  /** The record a refused withdrawal writes: the message alone. */
  function Refused(timestamp: int, message: string): Record {
    SavingsWithdrawal(timestamp, message, None, None, None)
  }

  /**
   * Moves `amount` (in `currency`) out of a savings account. Without a user
   * nothing happens; without an account "Account not found" is written on
   * the user; otherwise the first refusal of `SavingsRefusal` is written.
   * Once the checks pass, the amount converted into the savings currency is
   * taken from the savings balance, unless that would go below zero (then
   * nothing happens), and `amount` is added to the classic account; the
   * "Savings withdrawal" record goes on the user twice.
   */
  method WithdrawSavings(user: User?, account: Account?, bank: Bnr, amount: real, currency: string, timestamp: int)
    requires (user != null && account != null && account.kind == Savings
              && |user.accounts| - user.numberOfSavingsAccounts >= 1) ==> BirthYear(user.birthDate).Some?
    modifies UserFrame(user)`transactions, AccountFrame(account)`transactions, AccountFrame(account)`balance,
             ClassicFrame(user, currency)`balance
    ensures user == null ==> unchanged(AccountFrame(account)) && unchanged(ClassicFrame(user, currency))
    ensures user != null && account == null ==>
              user.transactions == old(user.transactions) + [Refused(timestamp, "Account not found")]
              && unchanged(ClassicFrame(user, currency))
    ensures user != null && account != null && SavingsRefusal(user, account, currency).Some? ==>
              var r := SavingsRefusal(user, account, currency).value;
              user.transactions == old(user.transactions) + [Refused(timestamp, r.message)]
              && account.transactions == old(account.transactions) + (if r.onAccount then [Refused(timestamp, r.message)] else [])
              && account.balance == old(account.balance) && unchanged(ClassicFrame(user, currency))
    ensures user != null && account != null && SavingsRefusal(user, account, currency).None? ==>
              var classic := user.accounts[FirstClassic(user.accounts, currency, 0).value];
              var taken := Convert(bank.exchangeRates, amount, currency, account.currency);
              account.transactions == old(account.transactions)
              && (old(account.balance) - taken < 0.0 ==>
                    unchanged(account, classic) && user.transactions == old(user.transactions))
              && (old(account.balance) - taken >= 0.0 ==>
                    var record := SavingsWithdrawal(timestamp, "Savings withdrawal", Some(classic.iban), Some(account.iban),
                                                    Some(taken));
                    account.balance == old(account.balance) - taken && classic.balance == old(classic.balance) + amount
                    && user.transactions == old(user.transactions) + [record, record])
  {
    if user == null {
      return;
    }
    if account == null {
      user.transactions := user.transactions + [Refused(timestamp, "Account not found")];
      return;
    }
    var refusal := SavingsRefusal(user, account, currency);
    if refusal.Some? {
      if refusal.value.onAccount {
        account.transactions := account.transactions + [Refused(timestamp, refusal.value.message)];
      }
      user.transactions := user.transactions + [Refused(timestamp, refusal.value.message)];
      return;
    }
    var classic := user.accounts[FirstClassic(user.accounts, currency, 0).value];
    var taken := Exchange(bank, amount, currency, account.currency);
    if account.balance - taken < 0.0 {
      return;
    }
    account.balance := account.balance - taken;
    classic.balance := classic.balance + amount;
    var record := SavingsWithdrawal(timestamp, "Savings withdrawal", Some(classic.iban), Some(account.iban), Some(taken));
    user.transactions := user.transactions + [record, record];
  }
}
