/**
 * Commands that adjust one account's settings or check its state: the
 * minimum balance, savings interest (paying it and changing its rate) and
 * the card-status check that freezes or warns.
 */
module AccountSettings {
  import opened Wrappers
  import opened Records
  import opened Ledger

  /**
   * `MinBalanceTransaction.makeTransaction`: with both a user and an account
   * the minimum balance becomes the amount; otherwise nothing changes and no
   * output is produced (the error node is built but never added).
   */
  method MinBalance(user: User?, account: Account?, amount: real)
    modifies AccountFrame(account)`minBalance
    ensures user != null && account != null ==> account.minBalance == amount
    ensures user == null && account != null ==> account.minBalance == old(account.minBalance)
  {
    if user == null || account == null {
      return;
    }
    account.SetMinBalance(amount);
  }

  /**
   * `AddInterestTransaction.makeTransaction`. Nothing happens without an
   * account; a classic account gets an error notice. Otherwise the account
   * pays interest (only a savings account actually changes) and the income,
   * the balance after minus the balance before, is recorded on the user and
   * then on the account, in the account's currency.
   */
  method AddInterest(user: User?, account: Account?, command: string, timestamp: int, output: Output)
    returns (income: real)
    requires account != null && account.kind != Classic ==> user != null
    modifies AccountFrame(account)`balance, AccountFrame(account)`transactions, UserFrame(user)`transactions, output
    ensures account == null ==> output.entries == old(output.entries)
    ensures account != null && account.kind == Classic ==>
              output.entries == old(output.entries) + [Notice(command, timestamp, "description", "This is not a savings account")]
              && account.balance == old(account.balance) && account.transactions == old(account.transactions)
    ensures user != null && account != null && account.kind == Classic ==> user.transactions == old(user.transactions)
    ensures account != null && account.kind != Classic ==>
              output.entries == old(output.entries)
              && account.balance == (if account.kind == Savings then WithInterest(old(account.balance), account.interest)
                                     else old(account.balance))
              && income == account.balance - old(account.balance)
              && user.transactions == old(user.transactions) + [InterestIncome(timestamp, "Interest rate income", income, account.currency)]
              && account.transactions == old(account.transactions) + [InterestIncome(timestamp, "Interest rate income", income, account.currency)]
    ensures account != null && account.kind == Business ==> income == 0.0
  {
    income := 0.0;
    if account == null {
      return;
    }
    if account.kind == Classic {
      output.PrintError(command, "This is not a savings account", timestamp);
      return;
    }
    var initialBalance := account.balance;
    account.AddInterest();
    income := account.balance - initialBalance;
    var record := InterestIncome(timestamp, "Interest rate income", income, account.currency);
    user.transactions := user.transactions + [record];
    account.transactions := account.transactions + [record];
  }

  /**
   * `ChangeInterestTransaction.makeTransaction`. A classic account gets an
   * error notice and keeps its rate. Otherwise the account takes the new rate
   * (only a savings account stores it) and the change is recorded on the
   * account, then on the user.
   */
  method ChangeInterest(user: User?, account: Account, rate: real, command: string, timestamp: int, output: Output)
    requires account.kind != Classic ==> user != null
    modifies account`interest, account`transactions, UserFrame(user)`transactions, output
    ensures account.kind == Classic ==>
              output.entries == old(output.entries) + [Notice(command, timestamp, "description", "This is not a savings account")]
              && account.interest == old(account.interest) && account.transactions == old(account.transactions)
    ensures account.kind == Classic && user != null ==> user.transactions == old(user.transactions)
    ensures account.kind != Classic ==>
              output.entries == old(output.entries)
              && account.interest == (if account.kind == Savings then rate else old(account.interest))
              && account.transactions == old(account.transactions) + [InterestChange(timestamp, rate)]
              && user.transactions == old(user.transactions) + [InterestChange(timestamp, rate)]
  {
    if account.kind == Classic {
      output.PrintError(command, "This is not a savings account", timestamp);
      return;
    }
    account.ChangeInterest(rate);
    account.transactions := account.transactions + [InterestChange(timestamp, rate)];
    user.transactions := user.transactions + [InterestChange(timestamp, rate)];
  }

  /** The status a check gives a card, by how far the balance is above the minimum. */
  function CheckedStatus(balance: real, minBalance: real): (r: Option<string>)
    ensures balance <= minBalance <==> r == Some("frozen")
    ensures minBalance < balance <= minBalance + 30.0 <==> r == Some("warning")
    ensures r.None? <==> balance - minBalance > 30.0
  {
    if balance <= minBalance then Some("frozen")
    else if balance - minBalance <= 30.0 then Some("warning")
    else None
  }

  /** The history message of a check that changed the card's status. */
  function CheckMessage(status: string): string {
    if status == "frozen" then "You have reached the minimum amount of funds, the card will be frozen"
    else "The card is in a warning stage"
  }

  /**
   * `CheckCardStatusTransaction.makeTransaction`, returning the transaction's
   * `getTimestamp()`. Without an account or a card one "Card not found"
   * notice is output. Otherwise a balance at or below the minimum freezes the
   * card and one within 30 above it sets "warning", each recorded once on the
   * user; above that nothing changes and the timestamp stays unset (-1).
   * The balance is never touched.
   */
  method CheckCardStatus(user: User?, account: Account?, card: Card?, command: string, timestamp: int, output: Output)
    returns (stamp: int)
    requires account != null && card != null && account.balance - account.minBalance <= 30.0 ==> user != null
    modifies CardFrame(card)`status, UserFrame(user)`transactions, output
    ensures account == null || card == null ==>
              output.entries == old(output.entries) + [Notice(command, timestamp, "description", "Card not found")]
              && stamp == -1
    ensures (account == null || card == null) && user != null ==> user.transactions == old(user.transactions)
    ensures account != null && card != null ==> output.entries == old(output.entries)
    ensures account != null && card != null && CheckedStatus(account.balance, account.minBalance).Some? ==>
              card.status == CheckedStatus(account.balance, account.minBalance).value
              && user.transactions == old(user.transactions)
                   + [CardStatusCheck(timestamp, CheckMessage(CheckedStatus(account.balance, account.minBalance).value))]
              && stamp == timestamp
    ensures account != null && card != null && CheckedStatus(account.balance, account.minBalance).None? ==>
              card.status == old(card.status) && stamp == -1
    ensures account != null && card != null && CheckedStatus(account.balance, account.minBalance).None? && user != null ==>
              user.transactions == old(user.transactions)
  {
    stamp := -1;
    if account == null || card == null {
      output.PrintError(command, "Card not found", timestamp);
      return;
    }
    if account.balance <= account.minBalance {
      card.SetStatus("frozen");
      user.transactions := user.transactions + [CardStatusCheck(timestamp, "You have reached the minimum amount of funds, the card will be frozen")];
      stamp := timestamp;
    } else if account.balance - account.minBalance <= 30.0 {
      card.SetStatus("warning");
      user.transactions := user.transactions + [CardStatusCheck(timestamp, "The card is in a warning stage")];
      stamp := timestamp;
    }
  }
}
