/**
 * The commands that act on a business account's associates and limits:
 * deposits booked on the depositing associate, the owner-only limit change,
 * and associate enrolment.
 */
module BusinessCommands {
  import opened Wrappers
  import opened Records
  import opened Ledger

  /** A deposit by an employee over the deposit limit, which the business account refuses. */
  predicate DepositRefused(account: Account, email: string, amount: real)
    reads account
  {
    account.kind == Business && email in account.employees && amount > account.depositLimit
  }

  /**
   * `AddFundsTransaction.makeTransaction`. A missing account, or an employee
   * deposit over the limit, changes nothing. Otherwise the balance grows by the
   * amount and, on a business account, the depositing employee's or manager's
   * `deposited` and the account's `totalDeposited` grow by it too; an owner or
   * a stranger only adds to the balance. No history record is written.
   */
  method AddFunds(account: Account?, email: string, amount: real)
    modifies AccountFrame(account)`balance, AccountFrame(account)`totalDeposited, AssociatesOf(account)`deposited
    ensures account != null && DepositRefused(account, email, amount) ==>
              account.balance == old(account.balance) && account.totalDeposited == old(account.totalDeposited)
    ensures account != null && !DepositRefused(account, email, amount) ==>
              account.balance == old(account.balance) + amount
    ensures account != null && !DepositRefused(account, email, amount) && ActingAssociate(account, email).Some? ==>
              ActingAssociate(account, email).value.deposited == old(ActingAssociate(account, email).value.deposited) + amount
              && account.totalDeposited == old(account.totalDeposited) + amount
    ensures account != null && ActingAssociate(account, email).None? ==> account.totalDeposited == old(account.totalDeposited)
    ensures forall e :: e in AssociatesOf(account) && (account == null || DepositRefused(account, email, amount)
                                                       || ActingAssociate(account, email) != Some(e))
                        ==> e.deposited == old(e.deposited)
  {
    if account == null {
      return;
    }
    if account.kind == Business {
      if email in account.employees {
        if amount > account.depositLimit {
          return;
        }
        var employee := account.employees[email];
        employee.SetDeposited(employee.deposited + amount);
        account.totalDeposited := account.totalDeposited + amount;
      } else if email in account.managers {
        var manager := account.managers[email];
        manager.SetDeposited(manager.deposited + amount);
        account.totalDeposited := account.totalDeposited + amount;
      }
    }
    account.SetBalance(account.balance + amount);
  }

  /** The refusal message for a non-owner, by command name. */
  function OwnerOnlyMessage(command: string): (r: Option<string>)
    ensures command == "changeSpendingLimit" <==> r == Some("You must be owner in order to change spending limit.")
    ensures command == "changeDepositLimit" <==> r == Some("You must be owner in order to change deposit limit.")
    ensures r.None? <==> command != "changeSpendingLimit" && command != "changeDepositLimit"
  {
    if command == "changeSpendingLimit" then Some("You must be owner in order to change spending limit.")
    else if command == "changeDepositLimit" then Some("You must be owner in order to change deposit limit.")
    else None
  }

  /**
   * `ChangeSpendingLimitTransaction.makeTransaction`. Only the owner's user
   * (the same object) may set a limit: "changeSpendingLimit" sets the
   * spending limit and "changeDepositLimit" the deposit limit. Anyone else
   * gets one error notice for those two command names. Nothing else changes.
   */
  method ChangeSpendingLimit(user: User?, account: Account, command: string, amount: real, timestamp: int, output: Output)
    requires account.owner != null
    modifies account`spendingLimit, account`depositLimit, output
    ensures user != account.owner.user ==>
              account.spendingLimit == old(account.spendingLimit) && account.depositLimit == old(account.depositLimit)
              && output.entries == old(output.entries) +
                   (if OwnerOnlyMessage(command).Some? then [Notice(command, timestamp, "description", OwnerOnlyMessage(command).value)] else [])
    ensures user == account.owner.user ==> output.entries == old(output.entries)
    ensures user == account.owner.user && command == "changeSpendingLimit" ==>
              account.spendingLimit == amount && account.depositLimit == old(account.depositLimit)
    ensures user == account.owner.user && command == "changeDepositLimit" ==>
              account.depositLimit == amount && account.spendingLimit == old(account.spendingLimit)
    ensures user == account.owner.user && command != "changeSpendingLimit" && command != "changeDepositLimit" ==>
              account.spendingLimit == old(account.spendingLimit) && account.depositLimit == old(account.depositLimit)
  {
    if user != account.owner.user {
      if command == "changeSpendingLimit" {
        output.PrintError(command, "You must be owner in order to change spending limit.", timestamp);
      } else if command == "changeDepositLimit" {
        output.PrintError(command, "You must be owner in order to change deposit limit.", timestamp);
      }
      return;
    }
    if command == "changeSpendingLimit" {
      account.SetSpendingLimit(amount);
    } else if command == "changeDepositLimit" {
      account.SetDepositLimit(amount);
    }
  }

  /**
   * `AddNewBusinessAssociateTransaction.makeTransaction`. Role "employee"
   * (or "manager") enrols a new employee (manager) under the user's email and
   * appends the business account to the user's accounts, unless the email
   * already holds that role, which only sets the error. Roles are checked
   * separately, so one email may hold both. Any other role does nothing.
   */
  method AddNewBusinessAssociate(user: User, account: Account, role: string) returns (error: Option<string>)
    modifies account`employees, account`managers, user`accounts
    ensures role == "employee" && user.email in old(account.employees) ==>
              error == Some("The user is already an associate of the account.")
              && account.employees == old(account.employees) && user.accounts == old(user.accounts)
    ensures role == "employee" && user.email !in old(account.employees) ==>
              error == None && user.email in account.employees
              && account.employees == old(account.employees)[user.email := account.employees[user.email]]
              && fresh(account.employees[user.email]) && account.employees[user.email].user == user
              && account.employees[user.email].permissions == 0 && account.employees[user.email].deposited == 0.0
              && account.employees[user.email].spent == 0.0
              && user.accounts == old(user.accounts) + [account]
    ensures role == "employee" ==> account.managers == old(account.managers)
    ensures role == "manager" && user.email in old(account.managers) ==>
              error == Some("The user is already an associate of the account.")
              && account.managers == old(account.managers) && user.accounts == old(user.accounts)
    ensures role == "manager" && user.email !in old(account.managers) ==>
              error == None && user.email in account.managers
              && account.managers == old(account.managers)[user.email := account.managers[user.email]]
              && fresh(account.managers[user.email]) && account.managers[user.email].user == user
              && account.managers[user.email].permissions == 1 && account.managers[user.email].deposited == 0.0
              && account.managers[user.email].spent == 0.0
              && user.accounts == old(user.accounts) + [account]
    ensures role == "manager" ==> account.employees == old(account.employees)
    ensures role != "employee" && role != "manager" ==>
              error == None && account.employees == old(account.employees)
              && account.managers == old(account.managers) && user.accounts == old(user.accounts)
  {
    error := None;
    if role == "employee" {
      if user.email in account.employees {
        error := Some("The user is already an associate of the account.");
      } else {
        var employee := new Employee(user);
        account.employees := account.employees[user.email := employee];
        user.accounts := user.accounts + [account];
      }
    } else if role == "manager" {
      if user.email in account.managers {
        error := Some("The user is already an associate of the account.");
      } else {
        var manager := new Employee.Manager(user);
        account.managers := account.managers[user.email := manager];
        user.accounts := user.accounts + [account];
      }
    }
  }
}
