/**
 * Creating and deleting accounts and cards. The IBAN and card number a
 * creation generates are taken as parameters (`freshIban`, `freshNumber`).
 */
module Lifecycle {
  import opened Wrappers
  import opened Records
  import opened Registry
  import opened Ledger

  /** `list.remove(i)`: the element at `i` taken out, the others in their order. */
  function RemoveAt<T>(s: seq<T>, i: nat): (r: seq<T>)
    requires i < |s|
    ensures |r| == |s| - 1
    ensures forall j :: 0 <= j < i ==> r[j] == s[j]
    ensures forall j :: i <= j < |r| ==> r[j] == s[j + 1]
  {
    s[..i] + s[i + 1..]
  }

  /** Taking out the element found by a search removes one occurrence and keeps the multiset otherwise. */
  lemma RemoveAtMultiset<T>(s: seq<T>, i: nat)
    requires i < |s|
    ensures multiset(RemoveAt(s, i)) == multiset(s) - multiset{s[i]}
  {
    assert s == s[..i] + [s[i]] + s[i + 1..];
  }

  /**
   * `AddAccountTransaction.makeTransaction`. "classic" appends a new classic
   * account (whose history gets the creation record) and "savings" a new
   * savings account with the rate (counted in `numberOfSavingsAccounts`).
   * The IBAN, or "" for any other type, is registered under itself, and the
   * user's history gets "New account created" on every path.
   */
  method AddAccount(user: User, registry: IBANRegistry, accountType: string, currency: string, interest: real,
                    timestamp: int, freshIban: string)
    requires registry.Valid()
    modifies user`accounts, user`numberOfSavingsAccounts, user`transactions, registry
    ensures registry.Valid()
    ensures accountType == "classic" ==>
              |user.accounts| == |old(user.accounts)| + 1 && user.accounts[..|old(user.accounts)|] == old(user.accounts)
              && fresh(user.accounts[|old(user.accounts)|])
              && user.accounts[|old(user.accounts)|].kind == Classic
              && user.accounts[|old(user.accounts)|].iban == freshIban
              && user.accounts[|old(user.accounts)|].currency == currency
              && user.accounts[|old(user.accounts)|].balance == 0.0 && user.accounts[|old(user.accounts)|].cards == []
              && user.accounts[|old(user.accounts)|].transactions == [AccountCreation(timestamp, "New account created")]
              && user.numberOfSavingsAccounts == old(user.numberOfSavingsAccounts)
    ensures accountType == "savings" ==>
              |user.accounts| == |old(user.accounts)| + 1 && user.accounts[..|old(user.accounts)|] == old(user.accounts)
              && fresh(user.accounts[|old(user.accounts)|])
              && user.accounts[|old(user.accounts)|].kind == Savings
              && user.accounts[|old(user.accounts)|].iban == freshIban
              && user.accounts[|old(user.accounts)|].currency == currency
              && user.accounts[|old(user.accounts)|].interest == interest
              && user.accounts[|old(user.accounts)|].balance == 0.0 && user.accounts[|old(user.accounts)|].cards == []
              && user.accounts[|old(user.accounts)|].transactions == []
              && user.numberOfSavingsAccounts == old(user.numberOfSavingsAccounts) + 1
    ensures accountType != "classic" && accountType != "savings" ==>
              user.accounts == old(user.accounts) && user.numberOfSavingsAccounts == old(user.numberOfSavingsAccounts)
              && registry.aliases == old(registry.aliases)
    ensures var iban := if accountType == "classic" || accountType == "savings" then freshIban else "";
              registry.aliases == Registered(old(registry.aliases), Some(iban), Some(iban))
    ensures user.transactions == old(user.transactions) + [AccountCreation(timestamp, "New account created")]
  {
    var iban := "";
    if accountType == "classic" {
      iban := freshIban;
      var account := new Account(iban, currency);
      user.accounts := user.accounts + [account];
      account.transactions := account.transactions + [AccountCreation(timestamp, "New account created")];
    } else if accountType == "savings" {
      iban := freshIban;
      var account := new Account.SavingsAccount(iban, currency, interest);
      user.accounts := user.accounts + [account];
      user.numberOfSavingsAccounts := user.numberOfSavingsAccounts + 1;
    }
    assert Blank("");
    registry.RegisterIBAN(Some(iban), Some(iban));
    user.transactions := user.transactions + [AccountCreation(timestamp, "New account created")];
  }

  /** The record of a card creation on an account. */
  function CardCreated(timestamp: int, iban: string, number: string, email: string): Record {
    CardCreation(timestamp, "New card created", iban, number, email)
  }

  /**
   * `AddCardTransaction.makeTransaction` with `searchIban`. Without a user, or
   * when no account of the user has the IBAN, the description is "Wrong user"
   * and nothing changes. Otherwise, on the first account with that IBAN,
   * "createCard" appends an active card and "createOneTimeCard" a one-time
   * card (another command name adds none); the record goes to a classic
   * account's history and to the user's.
   */
  method AddCard(user: User?, iban: string, command: string, email: string, timestamp: int, freshNumber: string)
    returns (description: string)
    modifies AccountsOf(user)`cards, AccountsOf(user)`transactions, UserFrame(user)`transactions
    ensures user == null ==> description == "Wrong user"
    ensures user != null && old(FindAccount(user.accounts, iban, 0)).None? ==>
              description == "Wrong user" && user.transactions == old(user.transactions)
              && forall a :: a in user.accounts ==> a.cards == old(a.cards) && a.transactions == old(a.transactions)
    ensures user != null && old(FindAccount(user.accounts, iban, 0)).Some? ==>
              var k := old(FindAccount(user.accounts, iban, 0)).value;
              description == "New card created"
              && user.transactions == old(user.transactions) + [CardCreated(timestamp, iban, freshNumber, email)]
              && (command == "createCard" ==>
                    |user.accounts[k].cards| == |old(user.accounts[k].cards)| + 1
                    && user.accounts[k].cards[..|old(user.accounts[k].cards)|] == old(user.accounts[k].cards)
                    && fresh(user.accounts[k].cards[|old(user.accounts[k].cards)|])
                    && user.accounts[k].cards[|old(user.accounts[k].cards)|].cardNumber == freshNumber
                    && user.accounts[k].cards[|old(user.accounts[k].cards)|].status == "active"
                    && !user.accounts[k].cards[|old(user.accounts[k].cards)|].oneTime)
              && (command == "createOneTimeCard" ==>
                    |user.accounts[k].cards| == |old(user.accounts[k].cards)| + 1
                    && user.accounts[k].cards[..|old(user.accounts[k].cards)|] == old(user.accounts[k].cards)
                    && fresh(user.accounts[k].cards[|old(user.accounts[k].cards)|])
                    && user.accounts[k].cards[|old(user.accounts[k].cards)|].cardNumber == freshNumber
                    && user.accounts[k].cards[|old(user.accounts[k].cards)|].status == "active"
                    && user.accounts[k].cards[|old(user.accounts[k].cards)|].oneTime)
              && (command != "createCard" && command != "createOneTimeCard" ==>
                    user.accounts[k].cards == old(user.accounts[k].cards))
              && user.accounts[k].transactions == old(user.accounts[k].transactions)
                   + (if user.accounts[k].kind == Classic then [CardCreated(timestamp, iban, freshNumber, email)] else [])
              && forall a :: a in user.accounts && a != user.accounts[k] ==>
                   a.cards == old(a.cards) && a.transactions == old(a.transactions)
  {
    if user == null {
      return "Wrong user";
    }
    var i := 0;
    while i < |user.accounts|
      invariant 0 <= i <= |user.accounts|
      invariant FindAccount(user.accounts, iban, 0) == FindAccount(user.accounts, iban, i)
    {
      var account := user.accounts[i];
      if account.iban == iban {
        if command == "createCard" {
          var card := new Card(freshNumber, email, "active");
          account.cards := account.cards + [card];
        } else if command == "createOneTimeCard" {
          var card := new Card.OneTime(freshNumber, email);
          account.cards := account.cards + [card];
        }
        if account.kind == Classic {
          account.transactions := account.transactions + [CardCreated(timestamp, iban, freshNumber, email)];
        }
        user.transactions := user.transactions + [CardCreated(timestamp, iban, freshNumber, email)];
        return "New card created";
      }
      i := i + 1;
    }
    return "Wrong user";
  }

  const DeletionRefused := "Account couldn't be deleted - see org.poo.transactions for details"

  /**
   * `DeleteAccountTransaction.makeTransaction` with `searchAccount`. The
   * first account with the IBAN is deleted when its balance is exactly 0: its
   * cards are cleared and it leaves the list, the others keeping their order.
   * With funds left, both it and the user record the refusal. A missing user
   * or IBAN is an error too. Each call outputs exactly one entry.
   */
  method DeleteAccount(user: User?, iban: string, command: string, timestamp: int, output: Output)
    modifies UserFrame(user)`accounts, UserFrame(user)`transactions, AccountsOf(user)`cards, AccountsOf(user)`transactions, output
    ensures |output.entries| == |old(output.entries)| + 1 && output.entries[..|old(output.entries)|] == old(output.entries)
    ensures (user == null || old(FindAccount(user.accounts, iban, 0)).None?) ==>
              output.entries[|old(output.entries)|] == Notice(command, timestamp, "error", DeletionRefused)
    ensures user != null && old(FindAccount(user.accounts, iban, 0)).None? ==>
              user.accounts == old(user.accounts) && user.transactions == old(user.transactions)
              && forall a :: a in user.accounts ==> a.cards == old(a.cards) && a.transactions == old(a.transactions)
    ensures user != null && old(FindAccount(user.accounts, iban, 0)).Some? ==>
              var k := old(FindAccount(user.accounts, iban, 0)).value;
              var target := old(user.accounts[k]);
              (target.balance == 0.0 ==>
                 output.entries[|old(output.entries)|] == Notice(command, timestamp, "success", "Account deleted")
                 && target.cards == [] && user.accounts == RemoveAt(old(user.accounts), k)
                 && target.transactions == old(target.transactions) && user.transactions == old(user.transactions))
              && (target.balance != 0.0 ==>
                    output.entries[|old(output.entries)|] == Notice(command, timestamp, "error", DeletionRefused)
                    && user.accounts == old(user.accounts) && target.cards == old(target.cards)
                    && target.transactions == old(target.transactions)
                         + [AccountDeletion(timestamp, "Account couldn't be deleted - there are funds remaining")]
                    && user.transactions == old(user.transactions)
                         + [AccountDeletion(timestamp, "Account couldn't be deleted - there are funds remaining")])
              && forall a :: a in old(user.accounts) && a != target ==>
                   a.cards == old(a.cards) && a.transactions == old(a.transactions)
  {
    if user == null {
      output.Add(Notice(command, timestamp, "error", DeletionRefused));
      return;
    }
    var idx := -1;
    var i := 0;
    while i < |user.accounts|
      invariant 0 <= i <= |user.accounts|
      invariant FindAccount(user.accounts, iban, 0) == FindAccount(user.accounts, iban, i)
    {
      if user.accounts[i].iban == iban {
        idx := i;
        break;
      }
      i := i + 1;
    }
    if idx == -1 {
      output.Add(Notice(command, timestamp, "error", DeletionRefused));
      return;
    }
    var wanted := user.accounts[idx];
    if wanted.balance == 0.0 {
      wanted.cards := [];
      user.accounts := RemoveAt(user.accounts, idx);
      output.Add(Notice(command, timestamp, "success", "Account deleted"));
    } else {
      var record := AccountDeletion(timestamp, "Account couldn't be deleted - there are funds remaining");
      wanted.transactions := wanted.transactions + [record];
      user.transactions := user.transactions + [record];
      output.Add(Notice(command, timestamp, "error", DeletionRefused));
    }
  }

  /**
   * `DeleteCardTransaction.makeTransaction` with `pickCard`. On an account
   * holding the number, the first such card is removed (the others keep
   * their order) and, with a user, one destruction record carrying the IBAN,
   * number and the user's email goes to the user's history. Otherwise nothing
   * changes. The balance is never touched.
   */
  method DeleteCard(user: User?, account: Account?, cardNumber: string, timestamp: int)
    modifies AccountFrame(account)`cards, UserFrame(user)`transactions
    ensures account != null && old(FindCard(account.cards, cardNumber, 0)).Some? ==>
              account.cards == RemoveAt(old(account.cards), old(FindCard(account.cards, cardNumber, 0)).value)
    ensures account != null && old(FindCard(account.cards, cardNumber, 0)).Some? && user != null ==>
              user.transactions == old(user.transactions)
                + [CardDestruction(timestamp, "The card has been destroyed", account.iban, cardNumber, user.email)]
    ensures account != null && old(FindCard(account.cards, cardNumber, 0)).None? ==> account.cards == old(account.cards)
    ensures (account == null || old(FindCard(account.cards, cardNumber, 0)).None?) && user != null ==>
              user.transactions == old(user.transactions)
  {
    if account == null {
      return;
    }
    var idx := -1;
    var i := 0;
    while i < |account.cards|
      invariant 0 <= i <= |account.cards|
      invariant FindCard(account.cards, cardNumber, 0) == FindCard(account.cards, cardNumber, i)
    {
      if account.cards[i].cardNumber == cardNumber {
        idx := i;
        break;
      }
      i := i + 1;
    }
    if idx == -1 {
      return;
    }
    account.cards := RemoveAt(account.cards, idx);
    if user != null {
      user.transactions := user.transactions + [CardDestruction(timestamp, "The card has been destroyed", account.iban, cardNumber, user.email)];
    }
  }
}
