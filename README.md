# A verified model of the banking simulator's transaction engine

This project models the transaction engine of a deterministic, single-threaded
banking simulator and proves properties of that model. Users hold classic,
savings and business accounts in different currencies. Accounts carry cards,
coupons and a transaction history. Business accounts have an owner, managers
and employees, along with spending and deposit limits. The engine applies one
command at a time to this in-memory object graph:

- **Exchange rates** (`exchange_rates.dfy`): the bank's directed rate list and
  its reciprocals. `getExchangeRate` is a breadth-first search. It is proved
  equal to a functional search that returns the product of a shortest walk,
  or -1 when no walk exists.
- **IBAN registry** (`registry.dfy`): each alias is mapped to the list of
  IBANs registered under it.
- **Service plans** (`service_plans.dfy`): the plan ranks, the commission
  rates and the plan factory.
- **Merchants and cashback** (`commerciants.dfy`): sellers and their two
  cashback strategies, one driven by a spending threshold and one by the
  number of transactions, plus the coupons those strategies grant.
- **Entities** (`ledger.dfy`, `records.dfy`): cards, one-time cards,
  accounts, users, employees, managers and owners as classes whose fields the
  operations update. History records are values.
- **Money helpers** (`pricing.dfy`): conversion, debits with commission,
  coupon use, business spending, and the automatic-upgrade record.
- **Transactions**, one module each:
  - card payments (`payments.dfy`);
  - transfers to merchants (`transfers.dfy`);
  - transfers between accounts (`account_transfers.dfy`);
  - cash withdrawal and savings withdrawal (`withdrawals.dfy`);
  - plan upgrade (`upgrades.dfy`);
  - account settings (`account_settings.dfy`);
  - business commands (`business_commands.dfy`);
  - account and card creation and deletion (`lifecycle.dfy`);
  - reports (`reports.dfy`).
- **Split payments**: the consensual split (`split_payment.dfy`), where every
  participant must approve before anyone is charged; the accept and reject
  commands with their FIFO command queue (`commands.dfy`); and the older
  immediate split (`immediate_split.dfy`).

Every transaction is a method. It takes the already-resolved user, account,
card and seller, and updates their fields in place. Its postcondition ties
the new state to a pure function of the old state, or states the outcome
outright. The lemmas beside each method prove what the source promises about
that function: conservation, which guard stops which path, that nothing else
changes, and agreement with the reference definitions. Money and rates are
`real`. A JSON entry on the output becomes an abstract output record (command,
message, timestamp) appended to an output sequence.

Where the design description and the code differ, the model follows the code:

- A transfer between accounts checks only that the balance stays above zero.
  Neither the minimum balance nor the commission is checked, so the sender can
  end below its minimum balance.
- A used coupon is set to -1, not back to 0.
- One email can be both an employee and a manager of the same business
  account.
- The transfer to a merchant compares the balance, less the commission
  *rate*, with the minimum balance (see `Transfers.MinimumCheckUsesRate`).
- An automatic upgrade to gold is only recorded in the history, never
  executed.
- Exchange edges that a payment adds mid-run get no reciprocal.

## Model

| member | source | states |
|---|---|---|
| ExchangeRates.ReciprocalsAt | src/main/java/org/poo/exchangeRates/Bnr.java:45-51 | the k-th synthesised edge reverses the k-th original edge: from and to swapped, rate 1/rate, one reciprocal per original edge |
| ExchangeRates.ReciprocalsNonZero | src/main/java/org/poo/exchangeRates/Bnr.java:49 | reciprocals of non-zero rates are themselves non-zero, so the extended list can be searched and divided by again |
| ExchangeRates.Bnr.constructor | src/main/java/org/poo/exchangeRates/Bnr.java:15-17 | a new bank starts with no edges |
| ExchangeRates.Bnr.SetUp | src/main/java/org/poo/exchangeRates/Bnr.java:25-38 | the list becomes the old edges, then the n input edges (none when the input list is missing), then one reciprocal for each edge present after the append, so n inputs on an empty bank give 2n edges |
| ExchangeRates.Bnr.CoverAllExchangeRates | src/main/java/org/poo/exchangeRates/Bnr.java:45-51 | appends exactly the reciprocals of the edges present before the call, in list order; edges added during the loop get none |
| ExchangeRates.Bnr.GetExchangeRate | src/main/java/org/poo/exchangeRates/Bnr.java:61-86 | the queue/visited breadth-first loop returns exactly the rate of the functional search `Rate`; the edge list is not modified (the method has no modifies clause) |
| ExchangeRates.SearchCorrect | src/main/java/org/poo/exchangeRates/Bnr.java:68-85 | from any state satisfying the search invariant the loop ends with -1 for an unreachable target and otherwise with the product of a walk of fewest hops |
| ExchangeRates.RateCorrect | src/main/java/org/poo/exchangeRates/Bnr.java:61-86 | equal currencies give 1.0 without consulting edges; an unreachable target gives -1; a reachable one gives the product of the rates along a minimum-hop walk |
| ExchangeRates.RateSentinel | src/main/java/org/poo/exchangeRates/Bnr.java:68-85 | with positive rates, -1 comes back if and only if the target is unreachable, and a reachable target gives a positive rate |
| ExchangeRates.RateNonZero | src/main/java/org/poo/exchangeRates/Bnr.java:68-85 | over non-zero rates the search never returns 0, so callers may divide by it |
| ExchangeRates.FirstEdge | src/main/java/org/poo/exchangeRates/Bnr.java:77-81 | the index of the first edge in list order from one currency to another; none exactly when no such edge exists |
| ExchangeRates.RateFirstDirectEdge | src/main/java/org/poo/exchangeRates/Bnr.java:73-81 | for distinct currencies joined by a direct edge the result is the rate of the first such edge in list order |
| ExchangeRates.SearchProgress | src/main/java/org/poo/exchangeRates/Bnr.java:77-81 | each scan only adds currencies to the visited list, and a scan that takes an edge strictly shrinks the set of unvisited targets, so every currency is enqueued at most once and the loop terminates |
| ExchangeRates.TakenFacts | src/main/java/org/poo/exchangeRates/Bnr.java:77-81 | the edges one scan takes leave the current currency for targets not yet visited, keep the visited list free of repeats, and after the scan every edge leaving the current currency leads to a visited one |
| Registry.Registered | src/main/java/org/poo/app/IBANRegistry.java:25-32 | with both arguments present and non-blank, the IBAN is appended to the alias's list (created when absent) and every other alias is kept; otherwise the registry is unchanged |
| Registry.Resolved | src/main/java/org/poo/app/IBANRegistry.java:66-78 | an alias resolves to the last IBAN under it; otherwise an IBAN stored under some alias resolves to itself; otherwise nothing |
| Registry.RemovedFrom | src/main/java/org/poo/app/IBANRegistry.java:93-96 | the list under the alias loses one occurrence, and the alias is dropped when its list becomes empty |
| Registry.RegisteredKeepsLists | src/main/java/org/poo/app/IBANRegistry.java:26-31 | registration keeps the invariant: every alias maps to a non-empty list of non-blank IBANs |
| Registry.RemovedKeepsLists | src/main/java/org/poo/app/IBANRegistry.java:92-96 | removal keeps the invariant, because an alias whose list empties is dropped |
| Registry.ResolvedNotBlank | src/main/java/org/poo/app/IBANRegistry.java:66-78 | in a well-formed registry every resolved IBAN is non-blank |
| Registry.RegisterThenResolve | src/main/java/org/poo/app/IBANRegistry.java:25-69 | after registering a non-blank IBAN under a non-blank alias, resolving the alias gives that IBAN |
| Registry.RemovedExactlyOne | src/main/java/org/poo/app/IBANRegistry.java:92-98 | removal takes exactly one occurrence of the identifier from the alias's list (or drops an alias whose list was just that identifier) and leaves every other alias as it was |
| Registry.IBANRegistry.constructor | src/main/java/org/poo/app/IBANRegistry.java:14-16 | a new registry is empty and well formed |
| Registry.IBANRegistry.RegisterIBAN | src/main/java/org/poo/app/IBANRegistry.java:25-32 | the registry becomes `Registered` of the old one: the alias then resolves to the new IBAN, and a null or blank argument changes nothing |
| Registry.IBANRegistry.GetIBAN | src/main/java/org/poo/app/IBANRegistry.java:66-78 | the lookup and the scan over the entries return exactly `Resolved` |
| Registry.IBANRegistry.RemoveIBAN | src/main/java/org/poo/app/IBANRegistry.java:87-102 | succeeds if and only if the identifier is present and stored under some alias; on success exactly one occurrence goes from one such alias (dropped if emptied); on failure, including a null identifier, nothing changes |
| Registry.IBANRegistry.UpdateAlias | src/main/java/org/poo/app/IBANRegistry.java:42-58 | fails, changing nothing, for a null argument, an identifier that resolves to nothing, or one that cannot be removed; on success one occurrence is removed and the resolved IBAN re-registered, so a non-blank new alias resolves to the previously resolved IBAN |
| ServicePlans.Plan.Name | src/main/java/org/poo/servicePlan/Plan.java:14-19 | every plan is named one of "standard", "student", "silver" or "gold" |
| ServicePlans.Plan.Id | src/main/java/org/poo/servicePlan/Plan.java:21-26 | every plan's rank id lies between 1 and 4 |
| ServicePlans.Plan.CommissionRate | src/main/java/org/poo/servicePlan/Plan.java:4-12 | the rate is a fraction between 0 and 0.2%, and the plans that keep the default (student, gold) charge 0 at every amount |
| ServicePlans.CreatePlan | src/main/java/org/poo/servicePlan/PlanFactory.java:12-32 | a plan comes back if and only if the name is one of "standard", "student", "silver", "gold", and that plan's name is the requested one; any other name gives none |
| ServicePlans.CreatePlanRoundTrip | src/main/java/org/poo/servicePlan/PlanFactory.java:12-32 | creating a plan from a plan's own name gives that plan back, with the same id |
| ServicePlans.NamesAndIdsIdentify | src/main/java/org/poo/servicePlan/Plan.java:19-26 | two plans have the same name if and only if they are the same plan, and likewise for ids |
| ServicePlans.IdRanks | src/main/java/org/poo/servicePlan/StandardPlan.java:16-18 | ids rank standard 1 < student 2 < silver 3 < gold 4: standard is the lowest, gold the highest, so a change away from gold is never an upgrade |
| ServicePlans.RateIsFraction | src/main/java/org/poo/servicePlan/Plan.java:5-12 | every plan's rate is a fraction in [0, 1) that callers multiply by the amount |
| ServicePlans.InheritedRateIsZero | src/main/java/org/poo/servicePlan/Plan.java:10-12 | student and gold inherit the default rate, which is 0 at every amount |
| ServicePlans.StandardRateIsConstant | src/main/java/org/poo/servicePlan/StandardPlan.java:6-8 | standard charges 0.002 at every amount, a positive rate that does not depend on the amount |
| ServicePlans.SilverThreshold | src/main/java/org/poo/servicePlan/SilverPlan.java:5-9 | silver charges 0.001 from 500 inclusive and 0 below, so its rate never falls as the amount grows |
| Commerciants.StrategyFor | src/main/java/org/poo/commerciants/Seller.java:31-35 | "spendingThreshold" selects the threshold strategy, "nrOfTransactions" the counting one, and any other name none (each direction of each case) |
| Commerciants.Seller.constructor | src/main/java/org/poo/commerciants/Seller.java:18-23 | name, category and strategy are the given ones and the per-account count map starts empty |
| Commerciants.Seller.FromInput | src/main/java/org/poo/commerciants/Seller.java:25-38 | name, category, id and IBAN are copied from the input, the strategy is the one its configured name selects, and the count map starts empty |
| Commerciants.ThresholdRate | src/main/java/org/poo/commerciants/AmountThresholdCashback.java:28-57 | the tier rate for a plan and a cumulative total lies between 0 and 0.7%, and is zero exactly when the total is below 100 |
| Commerciants.ThresholdRateBounds | src/main/java/org/poo/commerciants/AmountThresholdCashback.java:28-57 | a cumulative total below 100 earns nothing; from 100 every plan earns a positive rate of at most 0.7% |
| Commerciants.ThresholdRateMonotone | src/main/java/org/poo/commerciants/AmountThresholdCashback.java:30-57 | for a fixed plan the rate never falls as the tier rises |
| Commerciants.ThresholdRateByPlan | src/main/java/org/poo/commerciants/AmountThresholdCashback.java:30-57 | for a fixed tier gold's rate is at least silver's, which is at least standard's, and standard's equals student's |
| Commerciants.AmountThresholdCashback | src/main/java/org/poo/commerciants/AmountThresholdCashback.java:22-62 | the cashback is the tier rate of the stored total plus this amount, times the amount; the stored total grows by exactly the amount only for "spendingThreshold" merchants; nothing else changes |
| Commerciants.NextCount | src/main/java/org/poo/commerciants/NumberOfTransactionsCashback.java:28-36 | for "nrOfTransactions" merchants the count becomes 1 when absent and one more otherwise; for others the stored value is written back unchanged |
| Commerciants.CouponsAfterFacts | src/main/java/org/poo/commerciants/NumberOfTransactionsCashback.java:42-54 | count 2 sets Food to 0.02, 5 sets Clothes to 0.05, 10 sets Tech to 0.1; a coupon at -1 is never reactivated; at most one coupon changes; other counts change none |
| Commerciants.NumberOfTransactionsCashback | src/main/java/org/poo/commerciants/NumberOfTransactionsCashback.java:22-56 | always returns 0; only this account's count is rewritten, with `NextCount`, and the coupons become those the new count activates |
| Commerciants.CashbackForBounds | src/main/java/org/poo/commerciants/CashbackStrategy.java:17-21 | for a non-negative amount either strategy grants between 0 and 0.7% of it; the counting strategy grants 0; a cumulative total below 100 grants 0 |
| Commerciants.CalculateCashback | src/main/java/org/poo/commerciants/CashbackStrategy.java:17-21 | dispatches to the merchant's strategy: the cashback, running total, counts and coupons are those of that strategy alone |
| Ledger.Card.constructor | src/main/java/org/poo/cards/Card.java:21-26 | a card holds the given number, creator and status, with its status-check counter at 0 |
| Ledger.Card.OneTime | src/main/java/org/poo/cards/OneTimeCard.java:16-18 | a one-time card starts active, with the given number and creator |
| Ledger.Card.SetStatus | src/main/java/org/poo/cards/Card.java:79-81 | the status becomes the given one and nothing else changes |
| Ledger.Card.UseCard | src/main/java/org/poo/cards/Card.java:38-45 | a plain card returns 0 and changes nothing; a one-time card returns 1, records its destruction under the old number and then the creation of its replacement on the user's history, takes the fresh number and is active again |
| Ledger.NewBusinessCommerciant | src/main/java/org/poo/business/BusinessCommerciant.java:20-25 | a new merchant summary has the merchant's name, no paying employees or managers and nothing received |
| Ledger.Employee.constructor | src/main/java/org/poo/business/Employee.java:16-22 | an employee has deposited and spent nothing, the username "last first", permissions 0 and no account back-reference |
| Ledger.Employee.Manager | src/main/java/org/poo/business/Manager.java:8-11 | a manager is an employee with permissions 1 |
| Ledger.Employee.Owner | src/main/java/org/poo/business/Owner.java:12-16 | an owner is an employee with permissions 2 and a back-reference to its business account |
| Ledger.Employee.SetDeposited | src/main/java/org/poo/business/Employee.java:36-38 | only the deposited total changes, to the given amount |
| Ledger.Employee.SetSpent | src/main/java/org/poo/business/Employee.java:44-46 | only the spent total changes, to the given amount |
| Ledger.WithInterest | src/main/java/org/poo/accounts/SavingsAccount.java:43-46 | the balance after one interest payment, unchanged when the rate or the balance is zero |
| Ledger.InterestFacts | src/main/java/org/poo/accounts/SavingsAccount.java:43-46 | interest 0 or a zero balance leaves the balance as it was; non-negative balance and rate never lower it; a positive rate on a negative balance lowers it |
| Ledger.InitialLimit | src/main/java/org/poo/accounts/BusinessAccount.java:43-47 | the starting limit is 0 for a RON account and -500 when the bank's search returns its -1 sentinel for the currency |
| Ledger.InitialLimitFacts | src/main/java/org/poo/accounts/BusinessAccount.java:43-47 | a RON business account starts with limits 0; since the -1 sentinel is not checked, a currency unreachable from RON starts at -500; a reachable one starts positive |
| Ledger.Account.constructor | src/main/java/org/poo/accounts/ClassicAccount.java:37-45 | a classic account has the given IBAN and currency, balance 0, minimum balance 0, no cards, an empty history and its own empty merchant-payment list |
| Ledger.Account.SavingsAccount | src/main/java/org/poo/accounts/SavingsAccount.java:18-26 | a savings account stores the given rate; everything else is the initial classic state |
| Ledger.Account.BusinessAccount | src/main/java/org/poo/accounts/BusinessAccount.java:31-48 | a business account has no employees or managers, totals 0, both limits 500 RON converted with the unchecked search result (0 for RON), and a fresh owner wrapping the creating user with a back-reference to the account |
| Ledger.Account.SetBalance | src/main/java/org/poo/accounts/ClassicAccount.java:93-95 | only the balance changes, to the given value |
| Ledger.Account.SetMinBalance | src/main/java/org/poo/accounts/ClassicAccount.java:165-167 | only the minimum balance changes |
| Ledger.Account.SetSpendingLimit | src/main/java/org/poo/accounts/BusinessAccount.java:78-80 | only the spending limit changes |
| Ledger.Account.SetDepositLimit | src/main/java/org/poo/accounts/BusinessAccount.java:54-56 | only the deposit limit changes |
| Ledger.Account.ChangeInterest | src/main/java/org/poo/accounts/SavingsAccount.java:33-36 | a savings account replaces its rate, leaving the balance alone; the classic hook (ClassicAccount.java:52) and the business account inherit a no-op |
| Ledger.Account.AddInterest | src/main/java/org/poo/accounts/SavingsAccount.java:42-46 | a savings account's balance becomes old + old × rate; on other accounts the inherited hook (ClassicAccount.java:58) leaves the balance unchanged |
| Ledger.PlanFor | src/main/java/org/poo/users/User.java:52-56 | occupation "student" gets the student plan, any other occupation the standard plan (both directions) |
| Ledger.User.constructor | src/main/java/org/poo/users/User.java:41-57 | the user copies names, email, birth date and occupation from the input, has no accounts, no history, no pending splits, no big transactions, and the plan its occupation selects |
| Ledger.User.SetServicePlan | src/main/java/org/poo/users/User.java:217-219 | only the plan changes |
| Ledger.User.SetBigTransactions | src/main/java/org/poo/users/User.java:244-246 | only the big-transaction counter changes |
| Lifecycle.RemoveAt | src/main/java/org/poo/transactions/DeleteAccountTransaction.java:67 | `List.remove(i)`: one element shorter, the elements before i unchanged and those after it shifted down by one |
| Lifecycle.RemoveAtMultiset | src/main/java/org/poo/transactions/DeleteCardTransaction.java:78 | removing the found index takes away exactly one occurrence of that element and keeps every other element |
| Lifecycle.AddAccount | src/main/java/org/poo/transactions/AddAccountTransaction.java:47-64 | "classic" appends a fresh empty classic account with the fresh IBAN whose history holds the creation record; "savings" appends a fresh savings account with the rate and counts it; any other type adds no account; the IBAN, or "" for another type (which registration refuses), is registered under itself; the user's history gets "New account created" on every path |
| Ledger.FindAccount | src/main/java/org/poo/transactions/DeleteAccountTransaction.java:90-102 | the index of the first account with the IBAN at or after a position; none exactly when no account there has it |
| Lifecycle.AddCard | src/main/java/org/poo/transactions/AddCardTransaction.java:68-113 | without a user or a matching account: "Wrong user" and nothing changes; otherwise, on the first account with the IBAN, "createCard" appends a fresh active card and "createOneTimeCard" a fresh one-time card (another command adds none), the creation record goes to a classic account's history and to the user's, and no other account changes |
| Lifecycle.DeleteAccount | src/main/java/org/poo/transactions/DeleteAccountTransaction.java:52-102 | exactly one output entry per call; a missing user or IBAN outputs the error; a zero-balance first match has its cards cleared and is removed with the others keeping their order; with funds left the account and the user both record the refusal and the account stays |
| Ledger.FindCard | src/main/java/org/poo/transactions/DeleteCardTransaction.java:96-103 | the index of the first card with the number at or after a position; none exactly when no card there has it |
| Lifecycle.DeleteCard | src/main/java/org/poo/transactions/DeleteCardTransaction.java:72-103 | with an account holding the number, the first such card is removed (others keep their order) and a user, when there is one, records one destruction with the IBAN, number and the user's email; otherwise nothing changes |
| Records.Output.constructor | src/main/java/org/poo/transactions/DeleteAccountTransaction.java:79-80 | the output list starts empty |
| Records.Output.Add | src/main/java/org/poo/transactions/DeleteAccountTransaction.java:80 | `output.add(node)` appends exactly one entry at the end |
| Records.Output.PrintError | src/main/java/org/poo/transactions/CheckCardStatusTransaction.java:84-100 | appends exactly one "description" notice carrying the command, the timestamp and the message |
| Records.InsertAt | src/main/java/org/poo/transactions/PayOnlineTransaction.java:210 | `list.add(i, x)`: one longer, `x` at position i, the elements before i unchanged and those from i on shifted up by one |
| Records.RemoveFirst | src/main/java/org/poo/transactions/split_payment/SplitPaymentTransaction.java:83 | `list.remove(x)`: one occurrence fewer when present (same multiset otherwise), unchanged when absent |
| Records.Repeat | src/main/java/org/poo/transactions/SplitPaymentTransaction.java:94-101 | n copies of the same record |
| Records.InsertMultiset | src/main/java/org/poo/transactions/split_payment/SplitPaymentTransaction.java:109 | inserting a record into a sorted history adds exactly that record |
| Records.InsertSorted | src/main/java/org/poo/transactions/split_payment/SplitPaymentTransaction.java:109 | inserting into a history sorted by timestamp keeps it sorted |
| Records.InsertWithTimestamp | src/main/java/org/poo/transactions/split_payment/SplitPaymentTransaction.java:109 | the inserted record goes after every record with its timestamp, so the order of equal timestamps is kept |
| Records.SortFacts | src/main/java/org/poo/transactions/split_payment/SplitPaymentTransaction.java:109-112 | `sort(comparingInt(getTimestamp))` gives a history sorted by timestamp, a permutation of the input, and stable: for each timestamp the records with it keep their order |
| Records.SortOfSorted | src/main/java/org/poo/transactions/split_payment/SplitPaymentTransaction.java:109 | sorting an already sorted history leaves it unchanged |
| Records.ResortAppend | src/main/java/org/poo/transactions/split_payment/SplitPaymentTransaction.java:108-112 | sorting after every append gives the same history as appending everything and sorting once |
| Records.SortedAppendAgain | src/main/java/org/poo/transactions/split_payment/SplitPaymentTransaction.java:159-163 | one more sorted append of a record to a history built by k sorted appends of it equals one sort of the history with k + 1 copies |
| SplitPayments.RemoveWhatWasAdded | src/main/java/org/poo/transactions/split_payment/SplitPaymentTransaction.java:75-83 | taking the split off a pending list as many times as it was added gives back the list's original contents |
| SplitPayments.HistoryAfterFacts | src/main/java/org/poo/transactions/split_payment/SplitPaymentTransaction.java:79-113 | a settled participant's history gains the record once per occurrence of the participant, twice when a rejected split also ran short, and ends sorted by timestamp unless the split was only rejected |
| SplitPayments.Answered | src/main/java/org/poo/transactions/split_payment/SplitPaymentTransaction.java:197-216 | an answer sets only the answering email's entry, to true for an acceptance and false for a rejection; an email that does not participate changes nothing, and no key is added |
| SplitPayments.SplitPaymentTransaction.constructor | src/main/java/org/poo/transactions/split_payment/SplitPaymentTransaction.java:46-65 | the split copies the command's fields, has one approval entry per participating email, all false, waits (waiting 1), is ok, and has no error, no involved accounts, an empty per-user list and no amount |
| SplitPayments.SplitPaymentTransaction.Enqueue | src/main/java/org/poo/transactions/split_payment/SplitPaymentTransaction.java:73-76 | every participant's pending list gets the split appended once per occurrence of that user among the participants |
| SplitPayments.SplitPaymentTransaction.Shares | src/main/java/org/poo/transactions/split_payment/SplitPaymentTransaction.java:93-99 | an "equal" split gives each participant total / n; a custom one the command's per-user amounts |
| SplitPayments.SplitPaymentTransaction.FirstShort | src/main/java/org/poo/transactions/split_payment/SplitPaymentTransaction.java:133-149 | the first participant whose balance is strictly below its converted share, every earlier one covering its share; none exactly when every balance covers its share |
| SplitPayments.SplitPaymentTransaction.OutcomeOf | src/main/java/org/poo/transactions/split_payment/SplitPaymentTransaction.java:101-154 | a short balance names the first short account in the error, otherwise a rejection's message stands; the split commits if and only if nobody rejected and nobody ran short; the amount fields follow the split type |
| SplitPayments.SplitPaymentTransaction.OutcomeCommits | src/main/java/org/poo/transactions/split_payment/SplitPaymentTransaction.java:101-155 | the split commits if and only if nobody rejected and every balance covers its converted share |
| SplitPayments.SplitPaymentTransaction.RejectOne | src/main/java/org/poo/transactions/split_payment/SplitPaymentTransaction.java:80-85 | participant i's user and account get the record, unsorted, and that user's pending list loses one copy of the split; every other history and list is unchanged |
| SplitPayments.SplitPaymentTransaction.RecordRejection | src/main/java/org/poo/transactions/split_payment/SplitPaymentTransaction.java:79-86 | every user gets the record once per occurrence, unsorted, and loses that many copies of the split from its pending list; every account gets the record once |
| SplitPayments.SplitPaymentTransaction.WriteRejection | src/main/java/org/poo/transactions/split_payment/SplitPaymentTransaction.java:79-86 | the same against the snapshots: histories that held their snapshot gain the rejection's records, and pending lists that held theirs lose the split once per occurrence |
| SplitPayments.SplitPaymentTransaction.RejectFrom | src/main/java/org/poo/transactions/split_payment/SplitPaymentTransaction.java:80-85 | the rejection loop from participant i on ends with every participant recorded and released |
| SplitPayments.SplitPaymentTransaction.StampOne | src/main/java/org/poo/transactions/split_payment/SplitPaymentTransaction.java:159-163 | participant i's user and account get the record, each history sorted again after the append; no other history changes |
| SplitPayments.SplitPaymentTransaction.AddToAll | src/main/java/org/poo/transactions/split_payment/SplitPaymentTransaction.java:157-165 | every user gets the record once per occurrence, sorting after each append, and every account once, sorted |
| SplitPayments.SplitPaymentTransaction.StampFrom | src/main/java/org/poo/transactions/split_payment/SplitPaymentTransaction.java:158-164 | the sorted-append loop from participant i on ends with every participant stamped |
| SplitPayments.SplitPaymentTransaction.ConvertShares | src/main/java/org/poo/transactions/split_payment/SplitPaymentTransaction.java:104-184 | participant j's share converted from the split's currency into its account's currency, for every j, in participant order |
| SplitPayments.SplitPaymentTransaction.Commit | src/main/java/org/poo/transactions/split_payment/SplitPaymentTransaction.java:103-113 | every account is debited exactly its converted share, and every user and account records the split with the history sorted after each append |
| SplitPayments.SplitPaymentTransaction.ChargeFrom | src/main/java/org/poo/transactions/split_payment/SplitPaymentTransaction.java:104-113 | the commit loop from participant i on ends with every account debited and every participant stamped |
| SplitPayments.SplitPaymentTransaction.FindShort | src/main/java/org/poo/transactions/split_payment/SplitPaymentTransaction.java:133-138 | the check loop returns exactly the first participant whose balance is strictly below its converted share |
| SplitPayments.SplitPaymentTransaction.CheckAccounts | src/main/java/org/poo/transactions/split_payment/SplitPaymentTransaction.java:131-155 | a short participant sets the error naming its account, has the record written on every participant and fixes the amount fields; the split is ok exactly when no error stands afterwards, a rejection's error included |
| SplitPayments.SplitPaymentTransaction.ReportShort | src/main/java/org/poo/transactions/split_payment/SplitPaymentTransaction.java:139-148 | the error names the short account, every participant records the split sorted, and an equal split keeps the per-user share as its amount |
| SplitPayments.SplitPaymentTransaction.Finish | src/main/java/org/poo/transactions/split_payment/SplitPaymentTransaction.java:101-120 | after the check and the commit the split's error, ok flag and amount fields are those of OutcomeOf, each history is HistoryAfter of its snapshot, and balances are debited exactly when the split commits |
| SplitPayments.SplitPaymentTransaction.CheckAgainst | src/main/java/org/poo/transactions/split_payment/SplitPaymentTransaction.java:101 | against the histories a rejection left, the check leaves the error and ok flag of OutcomeOf, fixes the amount fields when it finds a short balance or follows a rejection, and appends the record (sorted) to every history exactly when a balance is short |
| SplitPayments.SplitPaymentTransaction.CommitIfOk | src/main/java/org/poo/transactions/split_payment/SplitPaymentTransaction.java:103-120 | when the split is ok every balance is debited by its converted share and the amount fields take their final values, otherwise nothing changes; either way every history ends as HistoryAfter of its snapshot |
| SplitPayments.SettledAfterCheck | src/main/java/org/poo/transactions/split_payment/SplitPaymentTransaction.java:101-113 | the rejection's appends, then those of the check, then those of the commit give exactly HistoryAfter: the record is appended once more per occurrence when the split runs short or commits |
| SplitPayments.SplitPaymentTransaction.Prepare | src/main/java/org/poo/transactions/split_payment/SplitPaymentTransaction.java:79-99 | a rejection sets its error, writes the record unsorted on every participant and releases the pending lists; then the IBANs are added to the involved accounts and the shares are filled in |
| SplitPayments.SplitPaymentTransaction.Settle | src/main/java/org/poo/transactions/split_payment/SplitPaymentTransaction.java:77-121 | settling from the snapshot leaves the split as Settled describes, with the pending lists released exactly when the split was rejected |
| SplitPayments.SplitPaymentTransaction.SettleWith | src/main/java/org/poo/transactions/split_payment/SplitPaymentTransaction.java:77-121 | the same settlement, stated against the snapshots and the outcome of the found short participant |
| SplitPayments.SplitPaymentTransaction.MakeTransaction | src/main/java/org/poo/transactions/split_payment/SplitPaymentTransaction.java:72-122 | while waiting, only every pending list changes, gaining the split once per occurrence; afterwards the split settles: error, ok flag and amounts as OutcomeOf gives them, the IBANs added to the involved accounts, histories as HistoryAfter, balances debited by converted shares exactly when it commits, and pending lists released when rejected |
| SplitPayments.SplitPaymentTransaction.FirstHolder | src/main/java/org/poo/transactions/split_payment/SplitPaymentTransaction.java:200-204 | the first participant with the email, every earlier one having another; none exactly when no participant has it |
| SplitPayments.SplitPaymentTransaction.FindParticipant | src/main/java/org/poo/transactions/split_payment/SplitPaymentTransaction.java:199-204 | for a participating email the search loop stops at the first participant holding it |
| SplitPayments.SplitPaymentTransaction.MarkApproval | src/main/java/org/poo/transactions/split_payment/SplitPaymentTransaction.java:197-206 | a participating email's approval becomes true and the first participant with it drops one copy of the split; any other email changes nothing |
| SplitPayments.SplitPaymentTransaction.DropOne | src/main/java/org/poo/transactions/split_payment/SplitPaymentTransaction.java:189 | participant i's user drops one copy of the split from its pending list; no other list changes |
| SplitPayments.SplitPaymentTransaction.DropFrom | src/main/java/org/poo/transactions/split_payment/SplitPaymentTransaction.java:188-190 | the removal loop from participant i on ends with every participant's list released |
| SplitPayments.SplitPaymentTransaction.RemoveFromAll | src/main/java/org/poo/transactions/split_payment/SplitPaymentTransaction.java:188-190 | every user's pending list loses the split once per occurrence of that user |
| SplitPayments.SplitPaymentTransaction.Conclude | src/main/java/org/poo/transactions/split_payment/SplitPaymentTransaction.java:186-211 | once every approval is in, the split leaves every pending list, stops waiting and settles as accepted, with the approvals kept |
| SplitPayments.SplitPaymentTransaction.Release | src/main/java/org/poo/transactions/split_payment/SplitPaymentTransaction.java:188-209 | every pending list is released and the wait ends; the approvals are kept |
| SplitPayments.SplitPaymentTransaction.SettleAccepted | src/main/java/org/poo/transactions/split_payment/SplitPaymentTransaction.java:210 | the accepted split settles from the snapshot and the pending lists stay as they are |
| SplitPayments.SplitPaymentTransaction.ApproveUser | src/main/java/org/poo/transactions/split_payment/SplitPaymentTransaction.java:196-212 | the approval is marked; when it was the last one missing the split has left every list and settled as accepted (ApprovedFrom), otherwise it still waits with the state unchanged except the approving user's list, shorter by one copy |
| SplitPayments.SplitPaymentTransaction.Approve | src/main/java/org/poo/transactions/split_payment/SplitPaymentTransaction.java:196-212 | the same, stated against the approvals, state and pending lists the acceptance started from |
| SplitPayments.SplitPaymentTransaction.RejectUser | src/main/java/org/poo/transactions/split_payment/SplitPaymentTransaction.java:214-221 | a participating email's approval becomes false and the split settles at once as rejected from the state before, releasing every pending list (RejectedFrom); any other email changes nothing |
| SplitPayments.SplitPaymentTransaction.Refuse | src/main/java/org/poo/transactions/split_payment/SplitPaymentTransaction.java:214-221 | the same, stated against the approvals, state and pending lists the rejection started from |
| SplitPayments.SplitPaymentTransaction.Reject | src/main/java/org/poo/transactions/split_payment/SplitPaymentTransaction.java:215-219 | for a participating email: approval false, wait over, the split settled as rejected and all pending lists released |
| SplitPayments.SplitPaymentTransaction.SettleRejected | src/main/java/org/poo/transactions/split_payment/SplitPaymentTransaction.java:219 | the rejected split settles from the snapshot, leaving the approvals and the wait as they are |
| SplitPayments.SplitPaymentTransaction.Withhold | src/main/java/org/poo/transactions/split_payment/SplitPaymentTransaction.java:216-218 | the approval is withdrawn, the split fails and stops waiting, and is still unsettled |
| ImmediateSplit.SplitPaymentTransaction.constructor | src/main/java/org/poo/transactions/SplitPaymentTransaction.java:37-48 | the split keeps the command, its resolved participants and the bank, and starts with no error and no involved accounts |
| ImmediateSplit.SplitPaymentTransaction.LastShort | src/main/java/org/poo/transactions/SplitPaymentTransaction.java:80-89 | the index found is below the bound, its balance is strictly below its converted share and every later participant's balance covers its own; none is found exactly when every balance covers its share |
| ImmediateSplit.SplitPaymentTransaction.ErrorStep | src/main/java/org/poo/transactions/SplitPaymentTransaction.java:85-89 | checking one more participant sets the insufficient-funds error naming its IBAN when its balance is short, and otherwise keeps the error as it was |
| ImmediateSplit.SplitPaymentTransaction.Scan | src/main/java/org/poo/transactions/SplitPaymentTransaction.java:80-89 | the check loop leaves the error the last short participant wrote; an error it sets names a participant whose balance is short, and when every balance covers its share the error is left as it was; nothing else changes |
| ImmediateSplit.SplitPaymentTransaction.CheckAccounts | src/main/java/org/poo/transactions/SplitPaymentTransaction.java:78-97 | the split's error becomes the one the check loop leaves (the earlier error when nobody is short), and the split may go ahead exactly when no error is set |
| ImmediateSplit.SplitPaymentTransaction.RecordOne | src/main/java/org/poo/transactions/SplitPaymentTransaction.java:90-91 | one participant's user and account each gain the split as their last record, and no other history changes |
| ImmediateSplit.SplitPaymentTransaction.RecordStep | src/main/java/org/poo/transactions/SplitPaymentTransaction.java:80-92 | one more turn of the loop keeps every user's history equal to its start plus one record per account it holds among the participants seen, and every seen account's history one record longer |
| ImmediateSplit.SplitPaymentTransaction.RecordOnAll | src/main/java/org/poo/transactions/SplitPaymentTransaction.java:80-92 | once the loop is done every user has the split once per account it holds in the split, and every account has it exactly once |
| ImmediateSplit.SplitPaymentTransaction.RecordFrom | src/main/java/org/poo/transactions/SplitPaymentTransaction.java:80-92 | the rest of the loop, from any participant on, ends with every participant recorded as RecordOnAll states |
| ImmediateSplit.SplitPaymentTransaction.Charge | src/main/java/org/poo/transactions/SplitPaymentTransaction.java:63-116 | every account's balance drops by exactly its share converted from the command's currency into the account's currency |
| ImmediateSplit.SplitPaymentTransaction.MakeTransaction | src/main/java/org/poo/transactions/SplitPaymentTransaction.java:55-69 | the share is the amount over the number of participants, the command's IBANs are appended to the involved accounts, the error is the last short participant's, all histories gain the split, and balances are debited by their shares exactly when nothing was short |
| ImmediateSplit.SplitPaymentTransaction.Run | src/main/java/org/poo/transactions/SplitPaymentTransaction.java:55-69 | from the histories, balances and error it starts with, the split ends as MakeTransaction states |
| ImmediateSplit.SplitPaymentTransaction.CheckAndCharge | src/main/java/org/poo/transactions/SplitPaymentTransaction.java:61-68 | the check sets the expected error, and the split then records and charges as its outcome demands |
| ImmediateSplit.SplitPaymentTransaction.RecordAndCharge | src/main/java/org/poo/transactions/SplitPaymentTransaction.java:63-91 | every user and account records the split, and the accounts are charged only when the check passed |
| ImmediateSplit.SplitPaymentTransaction.GoesAheadIff | src/main/java/org/poo/transactions/SplitPaymentTransaction.java:78-97 | from a split without an error, the check leaves no error if and only if every participant's balance is at least its converted share |
| ImmediateSplit.SplitPaymentTransaction.NamesLastShort | src/main/java/org/poo/transactions/SplitPaymentTransaction.java:85-89 | when several balances are short, the error names the last short participant, since each later write overwrites the earlier one |
| ImmediateSplit.SplitPaymentTransaction.SharesAddUp | src/main/java/org/poo/transactions/SplitPaymentTransaction.java:56-113 | when every account holds the command's currency, the first n shares charged add up to n times the share |
| ImmediateSplit.SplitPaymentTransaction.EvenSplit | src/main/java/org/poo/transactions/SplitPaymentTransaction.java:56-68 | when every account holds the command's currency, the debits of a split that goes ahead add up to the command's amount |
| Reports.Below | src/main/java/org/poo/transactions/ReportTransaction.java:84 | the order of the merchant map's keys: only a non-empty name has names below it, and a proper prefix comes before the longer name |
| Reports.BelowIrreflexive | src/main/java/org/poo/transactions/ReportTransaction.java:84-113 | no merchant name comes strictly before itself in the order the merchant map keeps |
| Reports.BelowTransitive | src/main/java/org/poo/transactions/ReportTransaction.java:84-113 | the name order is transitive |
| Reports.BelowTotal | src/main/java/org/poo/transactions/ReportTransaction.java:84-113 | any two different names are ordered one way or the other, so the map has one place for every name |
| Reports.BelowAsymmetric | src/main/java/org/poo/transactions/ReportTransaction.java:84-113 | two names are never each strictly before the other |
| Reports.Get | src/main/java/org/poo/transactions/ReportTransaction.java:103 | `getOrDefault` gives a non-zero total only for a merchant that has an entry |
| Reports.GetAbsent | src/main/java/org/poo/transactions/ReportTransaction.java:103 | looking up a merchant that has no entry gives the default total of zero |
| Reports.Put | src/main/java/org/poo/transactions/ReportTransaction.java:102-104 | `put` leaves the map holding its old names plus the stored one, with at most one entry more |
| Reports.PutKeepsOrder | src/main/java/org/poo/transactions/ReportTransaction.java:102-104 | storing a total keeps the map's names strictly ascending and adds exactly the stored name |
| Reports.PutGet | src/main/java/org/poo/transactions/ReportTransaction.java:102-104 | after a total is stored, the lookup finds it for its merchant and finds the old total for every other merchant |
| Reports.AscendingPairs | src/main/java/org/poo/transactions/ReportTransaction.java:113-118 | the merchants come out in strictly ascending name order, each before all later ones |
| Reports.GetEntry | src/main/java/org/poo/transactions/ReportTransaction.java:113-118 | each entry listed is the total the map holds for its merchant |
| Reports.PaymentRecordsAt | src/main/java/org/poo/transactions/ReportTransaction.java:99-100 | the spendings report lists one record per payment in the window, each the record of the payment in the same place |
| Reports.WindowAppend | src/main/java/org/poo/transactions/ReportTransaction.java:88-94 | the records listed for a history split in two are those listed for the first part followed by those listed for the second |
| Reports.WindowExact | src/main/java/org/poo/transactions/ReportTransaction.java:88-94 | a record is listed if and only if it is in the account's history and its timestamp lies inside the window, both ends included |
| Reports.TotalsSum | src/main/java/org/poo/transactions/ReportTransaction.java:96-106 | each merchant's total is the sum of the amounts of the payments to it inside the window, in payment order |
| Reports.TotalsAscending | src/main/java/org/poo/transactions/ReportTransaction.java:84-104 | the merchant map the payments build is in strictly ascending name order |
| Reports.TotalsNames | src/main/java/org/poo/transactions/ReportTransaction.java:102-104 | the map holds a merchant exactly when some payment inside the window went to it |
| Reports.ListHistory | src/main/java/org/poo/transactions/ReportTransaction.java:87-94 | the report loop lists exactly the window of the account's history, in history order |
| Reports.ListPayments | src/main/java/org/poo/transactions/ReportTransaction.java:95-106 | the spendings loop lists exactly the payments inside the window and builds the merchant totals of exactly those payments |
| Reports.PaymentsInStep | src/main/java/org/poo/transactions/ReportTransaction.java:96-98 | one payment further, the payments in the window grow by that payment exactly when its timestamp is inside |
| Reports.ListStep | src/main/java/org/poo/transactions/ReportTransaction.java:96-105 | one payment further, the listed records and the totals grow exactly as one turn of the loop changes them |
| Reports.GatherData | src/main/java/org/poo/transactions/ReportTransaction.java:69-125 | the report entry carries the account's balance, currency and IBAN, the windowed history for "report" or the windowed payments otherwise, and the merchant totals only for "spendingsReport"; the account is left as it is |
| Reports.MakeTransaction | src/main/java/org/poo/transactions/ReportTransaction.java:41-59 | without an account one "Account not found" entry is added to the output; with one, exactly the account's report entry is added |
| Reports.ReportContents | src/main/java/org/poo/transactions/ReportTransaction.java:69-125 | a report lists exactly the history records inside the window; a spendings report's merchants ascend and each total is what was paid to that merchant inside the window |
| SplitCommands.AcceptSplitPayment.constructor | src/main/java/org/poo/transactions/split_payment/AcceptSplitPayment.java:15-21 | the command holds the answering email and the split it answers, which may be null |
| SplitCommands.AcceptSplitPayment.Execute | src/main/java/org/poo/transactions/split_payment/AcceptSplitPayment.java:37-43 | without a split nothing changes; with one the command takes the split's timestamp and the split has processed the acceptance of that email |
| SplitCommands.RejectSplitPayment.constructor | src/main/java/org/poo/transactions/split_payment/RejectSplitPayment.java:15-21 | the command holds the answering email and the split it answers, which may be null |
| SplitCommands.RejectSplitPayment.Execute | src/main/java/org/poo/transactions/split_payment/RejectSplitPayment.java:30-36 | without a split nothing changes; with one the command takes the split's timestamp and the split has processed the rejection of that email |
| SplitCommands.InFootprint | src/main/java/org/poo/transactions/split_payment/CommandQueue.java:13-18 | everything one queued command may change lies within what processing the whole queue may change |
| SplitCommands.Apart | src/main/java/org/poo/transactions/split_payment/CommandQueue.java:13-18 | when the queued commands answer different splits, running one command touches neither another command nor the split that other command answers |
| SplitCommands.Run | src/main/java/org/poo/transactions/split_payment/AcceptSplitPayment.java:37-43 | running either kind of command leaves it with its split's timestamp and sets its email's approval entry to its answer, taken from the approvals it found |
| SplitCommands.ReachHas | src/main/java/org/poo/transactions/split_payment/CommandQueue.java:16 | a command's reach holds the command, its split and the split's users and accounts |
| SplitCommands.RunAt | src/main/java/org/poo/transactions/split_payment/CommandQueue.java:14-17 | running the k-th command keeps every later split pending with its approvals unchanged and leaves the k-th command run, so the earlier commands stay as they ran |
| SplitCommands.CommandQueue.constructor | src/main/java/org/poo/transactions/split_payment/CommandQueue.java:7 | a new queue is empty and has run nothing |
| SplitCommands.CommandQueue.AddCommand | src/main/java/org/poo/transactions/split_payment/CommandQueue.java:9-11 | the command joins the tail of the queue |
| SplitCommands.CommandQueue.ProcessCommands | src/main/java/org/poo/transactions/split_payment/CommandQueue.java:13-18 | afterwards the queue is empty and every command that was queued has run exactly once, in queue order, each against the approvals its split had before processing |
| SplitCommands.CommandQueue.ProcessFrom | src/main/java/org/poo/transactions/split_payment/CommandQueue.java:14-17 | the queue loop once the first k commands have run: it empties the queue, appends the remaining commands to the run order and leaves every command answered against the approvals recorded before processing |
| Pricing.Convert | src/main/java/org/poo/transactions/SendMoneyTransaction.java:114-121 | an amount converted between equal currencies is unchanged, and a zero amount stays zero in any currency |
| Pricing.Exchange | src/main/java/org/poo/transactions/PayOnlineTransaction.java:86-93 | the converted amount is the amount unchanged between equal currencies, and otherwise the amount times the rate the bank's search finds |
| Pricing.ConvertFacts | src/main/java/org/poo/transactions/PayOnlineTransaction.java:86-93 | between equal currencies the amount is unchanged; over positive rates a reachable currency gives a positive amount for a positive one, and an unreachable one gives the amount times the -1 sentinel |
| Pricing.RonRateNonZero | src/main/java/org/poo/transactions/PayOnlineTransaction.java:156-162 | the RON rate the cashback is scaled by, 1 for a RON account, is never zero over the bank's non-zero rates |
| Pricing.DebitedBounds | src/main/java/org/poo/transactions/PayOnlineTransaction.java:113-167 | a payment costs at least the amount and at most the amount plus 0.2% of it, and exactly the amount on the student and gold plans |
| Pricing.CouponValue | src/main/java/org/poo/transactions/PayOnlineTransaction.java:104-107 | a coupon that is used up (-1) or absent (0) is worth nothing |
| Pricing.CouponUsed | src/main/java/org/poo/transactions/PayOnlineTransaction.java:106-108 | after a payment the category's coupon is no longer active, an active one is set to -1, an inactive map is left as it was, and every other category keeps its coupon |
| Pricing.CouponOnce | src/main/java/org/poo/transactions/PayOnlineTransaction.java:106-108 | a coupon is worth something at most once: after it is used the category's next payment gets nothing, and using it again changes nothing |
| Pricing.UseCoupon | src/main/java/org/poo/transactions/PayOnlineTransaction.java:104-109 | the coupon returned is the category's active rate times the amount, or nothing, and the account's coupons are then updated as CouponUsed describes |
| Pricing.Spender | src/main/java/org/poo/transactions/PayOnlineTransaction.java:177-201 | no associate is booked exactly when the account is not a business account, or the command's email is not an employee and the user is not a manager |
| Pricing.Booked | src/main/java/org/poo/transactions/PayOnlineTransaction.java:186-200 | the merchant summary gains the merchant's entry if it was missing, the entry appends the payer's username to its employee or manager list and adds the amount to its total, and every other merchant's entry stays |
| Pricing.BookedTotal | src/main/java/org/poo/transactions/PayOnlineTransaction.java:190-200 | a booking adds exactly the amount to the summary's total received over all merchants |
| Pricing.SameTotal | src/main/java/org/poo/transactions/PayOnlineTransaction.java:186-200 | summaries that agree on every merchant's total have the same grand total |
| Pricing.BookSpending | src/main/java/org/poo/transactions/PayOnlineTransaction.java:177-201 | with an acting associate its spent amount and the account's total spent grow by the amount and the merchant summary records the payment; without one nothing changes |
| Pricing.UpgradeWrittenOnce | src/main/java/org/poo/transactions/PayOnlineTransaction.java:169-226 | on a plan that stays the same, a run of payments writes the automatic gold upgrade record at most once, and never once the counter has reached 6 |
| Pricing.RecordWithUpgrade | src/main/java/org/poo/transactions/PayOnlineTransaction.java:209-227 | the payment record goes in before the last kept entries, the gold upgrade record follows it exactly when the counter is 5 on silver, and the counter becomes 6 in that case |
| Payments.FindCardIn | src/main/java/org/poo/transactions/PayOnlineTransaction.java:238-255 | the search finds the first account, in the user's order, holding a card with the number, and on it the first such card; it finds nothing exactly when no account from the start point holds one |
| Payments.FindCardInNone | src/main/java/org/poo/transactions/PayOnlineTransaction.java:238-255 | the search finds nothing if and only if no card on any of the user's accounts has the number |
| Payments.PickCard | src/main/java/org/poo/transactions/PayOnlineTransaction.java:238-255 | the account and card returned are the ones the search finds, and both are null exactly when it finds none |
| Payments.PayingUser | src/main/java/org/poo/transactions/PayOnlineTransaction.java:116-153 | commission and cashback use the owner's plan for a business account and the paying user's plan otherwise |
| Payments.EdgesAfter | src/main/java/org/poo/transactions/PayOnlineTransaction.java:86-89 | a payment in another currency appends exactly one edge, the rate it used, and leaves the existing edges as they were |
| Payments.EdgesAfterNonZero | src/main/java/org/poo/transactions/PayOnlineTransaction.java:86-89 | the appended edge's rate is a search result over non-zero rates, so the bank's rates stay non-zero |
| Payments.QuoteFor | src/main/java/org/poo/transactions/PayOnlineTransaction.java:85-159 | the quote records the conversion's edge, converts the command amount into the account's currency, values it in RON, takes the payer plan's commission rate on that value and the RON rate of the account's currency |
| Payments.Earn | src/main/java/org/poo/transactions/PayOnlineTransaction.java:138-167 | the merchant's strategy runs on the RON value and the balance loses the amount and commission and gains the cashback converted from RON plus the coupon |
| Payments.ListPayment | src/main/java/org/poo/transactions/PayOnlineTransaction.java:177-201 | a classic account lists the payment among its merchant payments; a business account books it on the acting associate and the merchant summary |
| Payments.RecordPayment | src/main/java/org/poo/transactions/PayOnlineTransaction.java:169-247 | a big payment raises the counter below 5, a one-time card is replaced with the fresh number and is active, the payment record and any due upgrade record go before the rotation records, and a classic account's history gets the record |
| Payments.Book | src/main/java/org/poo/transactions/PayOnlineTransaction.java:174-227 | a covered payment is both listed as ListPayment states and recorded as RecordPayment states |
| Payments.Settle | src/main/java/org/poo/transactions/PayOnlineTransaction.java:138-227 | a covered payment earns, is listed and is recorded, a payment worth 300 RON or more with its commission counting as big |
| Payments.Refuse | src/main/java/org/poo/transactions/PayOnlineTransaction.java:135-247 | a refused payment records "Insufficient funds" on the user, followed by a due upgrade record, and on a classic account |
| Payments.Price | src/main/java/org/poo/transactions/PayOnlineTransaction.java:85-159 | the bank stores the conversion's rate and stays valid, and the amounts returned are exactly those of QuoteFor |
| Payments.ChargeUnderLimit | src/main/java/org/poo/transactions/PayOnlineTransaction.java:104-227 | within the limit the category coupon is used up, and then the funds check decides between refusal and a covered payment, every part of the state ending as the outcome's functions say |
| Payments.OutcomeOf | src/main/java/org/poo/transactions/PayOnlineTransaction.java:97-136 | a card payment stops at the limit exactly when an employee is over it, and is covered exactly when no employee is over the limit and the balance less amount and commission stays above the minimum |
| Payments.Charge | src/main/java/org/poo/transactions/PayOnlineTransaction.java:85-227 | after pricing, an employee over the spending limit stops the payment with only the bank's new edge; otherwise the payment ends as ChargeUnderLimit states |
| Payments.Stop | src/main/java/org/poo/transactions/PayOnlineTransaction.java:73-247 | a payment stopped early records once on a classic account and, when asked, once on the user |
| Payments.PayWithCard | src/main/java/org/poo/transactions/PayOnlineTransaction.java:70-227 | a missing merchant, an amount of 0 or a frozen card stop the payment with only the stop records (the frozen one on the user too) and leave balances, coupons and bank as they were; otherwise the payment is charged on the owner's plan for a business account and the user's otherwise |
| Payments.PayOnline | src/main/java/org/poo/transactions/PayOnlineTransaction.java:65-255 | a card no account of the user holds gives one "Card not found" notice and changes nothing else; a found card is paid with as PayWithCard states, and only the picked account, its card, the user, the acting associate, the bank and the merchant change |
| Transfers.LogTransfer | src/main/java/org/poo/transactions/SendMoneyToCommerciantTransaction.java:186-209 | the record goes on the user when it should, followed by the gold upgrade record exactly when the counter is 5 on silver (the counter then becomes 6), and on a classic account's history |
| Transfers.MerchantOutcomeOf | src/main/java/org/poo/transactions/SendMoneyToCommerciantTransaction.java:101-157 | a transfer to a merchant is unfunded exactly when the balance does not exceed the amount, and delivered exactly when the balance exceeds it, no employee is over the limit, the balance less amount and commission rate stays above the minimum and no employee is over the limit with the rate added |
| Transfers.DeliveredWhenGuardsPass | src/main/java/org/poo/transactions/SendMoneyToCommerciantTransaction.java:101-157 | a transfer to a merchant is delivered if and only if the balance exceeds the amount, no employee is over the spending limit, the balance less amount and commission rate stays above the minimum, and no employee is over the limit with the commission rate added |
| Transfers.MerchantOnlyDeliveryMoves | src/main/java/org/poo/transactions/SendMoneyToCommerciantTransaction.java:101-184 | only a delivery moves the balance and books the spending; only a delivery or an unfunded transfer writes a record; an unfunded transfer and the first limit stop leave coupons, totals and counts as they were |
| Transfers.MinimumCheckUsesRate | src/main/java/org/poo/transactions/SendMoneyToCommerciantTransaction.java:124-180 | the minimum-balance check subtracts the commission rate, not the commission: on the standard plan 1000 sent from 1001 passes every guard although the debit leaves a negative balance |
| Transfers.RonQuote | src/main/java/org/poo/transactions/SendMoneyToCommerciantTransaction.java:125-148 | the RON value is the amount converted from the account's currency into RON, and the RON rate is 1 for RON and the bank's rate from RON otherwise |
| Transfers.BookAtMerchant | src/main/java/org/poo/transactions/SendMoneyToCommerciantTransaction.java:152-178 | a delivered transfer is booked on the acting associate and the merchant summary, and nothing moves without an acting associate |
| Transfers.LogCounted | src/main/java/org/poo/transactions/SendMoneyToCommerciantTransaction.java:182-209 | a big transfer raises the counter while below 5, and then the record is written as LogTransfer states |
| Transfers.Deliver | src/main/java/org/poo/transactions/SendMoneyToCommerciantTransaction.java:152-209 | the balance loses the amount and its commission and gains the cashback and coupon, the spending is booked, and the big-transfer count and the sent record are written |
| Transfers.DeliverWithinLimit | src/main/java/org/poo/transactions/SendMoneyToCommerciantTransaction.java:155-157 | an employee over the limit with the commission rate added stops the transfer with no debit, no booking and no record; otherwise it is delivered |
| Transfers.EarnThenDeliver | src/main/java/org/poo/transactions/SendMoneyToCommerciantTransaction.java:137-184 | past the minimum check the merchant's strategy runs, and the transfer then ends as its outcome says |
| Transfers.PayMerchantUnderLimit | src/main/java/org/poo/transactions/SendMoneyToCommerciantTransaction.java:118-184 | within the spending limit the category coupon is used up, and the minimum-balance check stops the transfer with only that change, or lets it go on as EarnThenDeliver states |
| Transfers.PayMerchant | src/main/java/org/poo/transactions/SendMoneyToCommerciantTransaction.java:101-209 | once sender and merchant exist, coupons, cashback counts, balance, booking, histories and counter all end as the outcome of the guards, checked in source order, says |
| Transfers.SameCurrencyQuote | src/main/java/org/poo/transactions/SendMoneyToCommerciantTransaction.java:106-130 | a transfer priced in the sender's own currency pays the amount as given, stores no rate, and values the amount in RON at the account currency's rate |
| Transfers.SendMoneyToCommerciant | src/main/java/org/poo/transactions/SendMoneyToCommerciantTransaction.java:95-210 | a missing sender account, user or merchant gives one "User not found" notice and changes nothing else; otherwise the transfer ends as PayMerchant states and writes no notice |
| AccountTransfers.TransferAfter | src/main/java/org/poo/transactions/SendMoneyTransaction.java:106-178 | a blocked transfer changes nothing, only a completed one moves balances or books spending, and between two accounts it debits the amount and commission and credits the converted amount |
| AccountTransfers.MovedBalances | src/main/java/org/poo/transactions/SendMoneyTransaction.java:144-156 | a completed transfer takes the amount plus the commission on it from the sender and adds the converted amount to the receiver; within one account both changes apply to the one balance |
| AccountTransfers.TransferConserves | src/main/java/org/poo/transactions/SendMoneyTransaction.java:154-156 | with no commission and no conversion, a transfer between two accounts keeps the sum of their balances |
| AccountTransfers.SelfTransferOrder | src/main/java/org/poo/transactions/SendMoneyTransaction.java:161-171 | for a transfer between non-business accounts of one user, the sent record ends right before the received record in that user's history |
| AccountTransfers.UnfundedMovesNothing | src/main/java/org/poo/transactions/SendMoneyTransaction.java:106-178 | an unfunded transfer moves no money and books nothing, and its failed record reaches the sender's user, adding exactly one entry, unless the account is a business account owned by someone else |
| AccountTransfers.WriteSent | src/main/java/org/poo/transactions/SendMoneyTransaction.java:165-178 | the sender's record goes on its user (appended, before the last entry for the same email, or nowhere for a business account owned by someone else) and on a classic account |
| AccountTransfers.MoveMoney | src/main/java/org/poo/transactions/SendMoneyTransaction.java:154-162 | the sender is debited the amount and commission, then the receiver is credited the converted amount, and the received record goes on the receiver's user and account; a shared account or user sees both writes |
| AccountTransfers.MoveAndRecord | src/main/java/org/poo/transactions/SendMoneyTransaction.java:154-178 | the money moves as MoveMoney states, and then the sender's record is written as WriteSent states |
| AccountTransfers.PayAndRecord | src/main/java/org/poo/transactions/SendMoneyTransaction.java:144-178 | with the commission rate priced on the amount's RON value, the money moves and both records are written |
| AccountTransfers.BookTransfer | src/main/java/org/poo/transactions/SendMoneyTransaction.java:123-141 | the acting associate's spending and the business account's total spent grow by the converted amount, and nothing is booked without an acting associate |
| AccountTransfers.BookThenPay | src/main/java/org/poo/transactions/SendMoneyTransaction.java:123-178 | the converted amount is booked first, and then the money moves and both records are written |
| AccountTransfers.ConvertThenPay | src/main/java/org/poo/transactions/SendMoneyTransaction.java:114-178 | an employee over the spending limit with the converted amount stops the transfer with nothing changed; otherwise it is booked, paid and recorded |
| AccountTransfers.TransferBetween | src/main/java/org/poo/transactions/SendMoneyTransaction.java:106-178 | between two existing accounts, a balance not above the amount writes only the failed record, an employee over the limit changes nothing, and otherwise the transfer is booked, paid and recorded, on both sides as TransferAfter says |
| AccountTransfers.SendMoney | src/main/java/org/poo/transactions/SendMoneyTransaction.java:100-179 | a missing sender or receiver account gives one "User not found" notice and changes nothing else; otherwise both sides end as the transfer's outcome, read before it, says, and no notice is written |
| Withdrawals.CashWithdraw | src/main/java/org/poo/transactions/CashWithdrawTransaction.java:42-69 | an empty email gives "User not found" (the dispatcher's step in app/AppManager.java:218-225) and a missing user, account or card "Card not found", changing nothing else; a frozen card records "The card is frozen" on the user; otherwise the RON amount converted into the account's currency, plus the plan's commission on the RON amount, is taken when what is left stays above the minimum, and "Insufficient funds" is recorded when it would not; the balance ends above the minimum or where it was |
| Withdrawals.Digits | src/main/java/org/poo/transactions/WithdrawSavingsTransaction.java:112-113 | a number is read exactly when the text is non-empty and made only of decimal digits |
| Withdrawals.ParseInt | src/main/java/org/poo/transactions/WithdrawSavingsTransaction.java:112-113 | `Integer.parseInt` reads a run of digits as its value, reads nothing from empty text, and gives a negative number only after a minus sign |
| Withdrawals.BirthYear | src/main/java/org/poo/transactions/WithdrawSavingsTransaction.java:112-113 | a birth date shorter than four characters gives no year, and one starting with four digits gives their value |
| Withdrawals.FourDigitsRoundTrip | src/main/java/org/poo/transactions/WithdrawSavingsTransaction.java:112-113 | reading back a year written as four digits gives that year |
| Withdrawals.FirstClassic | src/main/java/org/poo/transactions/WithdrawSavingsTransaction.java:119-123 | the index found is the first classic account in the requested currency, and none is found exactly when the user has no such account |
| Withdrawals.SavingsRefusal | src/main/java/org/poo/transactions/WithdrawSavingsTransaction.java:99-130 | the checks run in source order: not a savings account, no classic account at all, under 21 in 2025, no classic account in the currency; when none refuses, a classic account in the currency exists |
| Withdrawals.WithdrawSavings | src/main/java/org/poo/transactions/WithdrawSavingsTransaction.java:88-153 | without a user nothing happens; a missing account records "Account not found" on the user; a refusal records its message on the user and, for the missing classic account, on the savings account too; once the checks pass the converted amount leaves the savings account unless that would go below zero, the amount reaches the first classic account in the currency, and the user records "Savings withdrawal" twice |
| Upgrades.UpgradeFee | src/main/java/org/poo/transactions/UpgradePlanTransaction.java:69-83 | the fee is between 0 and 350, and is positive exactly when the target is silver or gold and ranks above the current plan |
| Upgrades.FeeThroughSilver | src/main/java/org/poo/transactions/UpgradePlanTransaction.java:69-83 | from standard or student, going to silver and then to gold costs exactly what going straight to gold costs |
| Upgrades.FeeOnlyUpwards | src/main/java/org/poo/transactions/UpgradePlanTransaction.java:69-83 | a fee is only ever charged for a move to a plan of higher rank |
| Upgrades.UpgradePlan | src/main/java/org/poo/transactions/UpgradePlanTransaction.java:46-105 | a missing user or account gives one "Account not found" notice; otherwise exactly one record goes on both user and account, for the plan already held, a downgrade, a fee the balance cannot pay without going below the minimum, or a paid upgrade; only the upgrade takes the fee converted from RON and changes the plan; a plan never loses rank, and a paid fee leaves the balance at or above the minimum |
| AccountSettings.MinBalance | src/main/java/org/poo/transactions/MinBalanceTransaction.java:48-57 | with both a user and an account the minimum balance becomes the amount; without a user it stays as it was, and no output is written in either case |
| AccountSettings.AddInterest | src/main/java/org/poo/transactions/AddInterestTransaction.java:52-80 | without an account nothing happens; a classic account gets one "This is not a savings account" notice and keeps its balance and history; otherwise the income is the balance after interest minus the balance before, a savings account gains its interest, a business account's income is 0, and one income record goes on the user and one on the account |
| AccountSettings.ChangeInterest | src/main/java/org/poo/transactions/ChangeInterestTransaction.java:53-75 | a classic account gets one "This is not a savings account" notice and keeps its rate and history; otherwise a savings account takes the new rate, and one rate-change record goes on the account and one on the user |
| AccountSettings.CheckedStatus | src/main/java/org/poo/transactions/CheckCardStatusTransaction.java:63-73 | a balance at or below the minimum freezes the card, one at most 30 above it sets "warning", and only a balance more than 30 above it changes nothing |
| AccountSettings.CheckCardStatus | src/main/java/org/poo/transactions/CheckCardStatusTransaction.java:59-99 | without an account or a card one "Card not found" notice is written; otherwise the card takes the checked status and the user records the matching message once, with the timestamp set, or nothing changes and the timestamp stays unset; the balance is never touched |
| Ledger.ActingAssociate | src/main/java/org/poo/transactions/AddFundsTransaction.java:40-51 | a deposit is booked on the employee under the email, or failing that the manager under it; there is none exactly when the account is not a business account or the email holds neither role |
| BusinessCommands.AddFunds | src/main/java/org/poo/transactions/AddFundsTransaction.java:34-55 | an employee depositing over the deposit limit changes nothing; otherwise the balance grows by the amount and, for an acting employee or manager, so do that associate's deposits and the account's total deposited; no other associate changes |
| BusinessCommands.OwnerOnlyMessage | src/main/java/org/poo/transactions/ChangeSpendingLimitTransaction.java:68-76 | a non-owner gets the spending-limit message for "changeSpendingLimit", the deposit-limit message for "changeDepositLimit", and no message for any other command |
| BusinessCommands.ChangeSpendingLimit | src/main/java/org/poo/transactions/ChangeSpendingLimitTransaction.java:67-84 | only the owner's own user object may change a limit: "changeSpendingLimit" sets the spending limit and "changeDepositLimit" the deposit limit, each leaving the other; anyone else changes nothing and gets the command's owner-only notice |
| BusinessCommands.AddNewBusinessAssociate | src/main/java/org/poo/transactions/AddNewBusinessAssociateTransaction.java:35-52 | a new employee (permissions 0) or manager (permissions 1) is enrolled under the user's email with nothing deposited or spent, and the account is appended to the user's accounts; an email that already holds the role only sets the error; the two roles are checked separately; any other role changes nothing |

## Left out

- Command dispatch, JSON parsing and JSON output (`app/AppManager.java` and the printers `PrintUserTransaction`, `PrintTransTransaction`, `SpendingsReportTransaction`, `TransactionBusinessReport` and `CommerciantBusinessReport`): they are plumbing around the engine. The model receives resolved objects, and each output entry is an abstract record.
- The business reports and `BusinessCommerciant`: they only serialise state. They also rely on an `Employee.getOrder()` that is not declared.
- `CommandAdapter` and `SetAliasTransaction`: each is a single forwarding call. The alias update itself is modelled in the registry.
- `Utils.generateIBAN` and `Utils.generateCardNumber`: they are random. Fresh IBANs and card numbers are method parameters, including the new number `OneTimeCard.useCard` draws.
- Floating point: money and rates are exact `real`s. There are no claims about IEEE rounding, infinities or NaN.
- Exchange rates: the bank is required to hold non-zero rates, because a zero rate would make `1/rate` an IEEE infinity.
- Descriptions: the `%.2f` formatting of amounts in descriptions is not modelled. A description is a parameter or a fixed string.
- `System.out.println` debug output is left out.
- Registry.IBANRegistry.RemoveIBAN: HashMap iteration order is not modelled, so the entry removed is some entry that contains the identifier, chosen nondeterministically.
- Reports.GatherData: the TreeMap of merchant totals is an ascending sequence of pairs, and `String.compareTo` is the lexicographic order on characters.
- Coupons: an absent category key is treated like an unused coupon (0), where Java would unbox null.
- SplitPayments.SplitPaymentTransaction.WellFormed: a consensual split needs at least one participant, because the equal share divides by their number. A custom split needs a share for each participant, because the source would otherwise index past the list. No account may occur twice: the source would charge it twice through aliasing, which the model does not capture. Participants must be resolved, with none of the null lookups the older split allows.
- SplitPayments.SplitPaymentTransaction.ApproveUser: an answer is required to arrive while the split is pending. On a split that has already finished, the source would drop it from the lists again and settle it a second time.
- SplitCommands.CommandQueue.ProcessCommands: the queued commands must answer distinct pending splits. The command leaves the queue after it runs rather than before, which is observably the same because running a command never touches the queue. The `while` loop is written as the recursive ProcessFrom, one command per call, in the same order; the commit loop of the consensual split (SplitPayments.SplitPaymentTransaction.ChargeFrom) is written the same way.
- ImmediateSplit.SplitPaymentTransaction.MakeTransaction: at least one participant and distinct accounts are required (`WellFormed`). With none, the equal share divides by zero.
- ImmediateSplit.SplitPaymentTransaction.Run: records are appended to the histories after the check loop, not inside it. No balance changes in between, so the final histories are the same.
- Pricing.Spender: the paying user's email must be among the employees whenever the command's email is. Otherwise the source dereferences null.
- AccountTransfers.SendMoney: for a non-business sender whose user shares its email with the receiver's user, the sender's history must be non-empty when the transfer failed or the two users are distinct objects. On that branch the source inserts at `size() - 1`, which throws on an empty history. A completed transfer between accounts of one user has just appended the received record, so it needs nothing.
- AccountTransfers.SendMoney: on a business account, the paying user's email must be among the employees whenever the command's email is. The source tests the command's email but then reads the employee under the user's email, and would dereference null otherwise.
- AccountTransfers.SendMoney: the `remove(this)` on the spending-limit return finds nothing, because the record has not been added yet, so that return needs no precondition and is a no-op on the history.
- Withdrawals.WithdrawSavings: the first four characters of the birth date must be digits, because `Integer.parseInt` would throw otherwise.
- Upgrades.UpgradePlan: an unknown plan name is required not to reach the factory, because the source dereferences the null plan it returns. The current plan's own name is still allowed.
- UpgradePlanTransaction: only the five-argument constructor is declared, while callers pass six; the model follows the declared one. It has no fee-exempt path.
- AccountSettings.ChangeInterest: the account must be non-null, because the source dereferences it without a guard. The user must be non-null whenever a record is written to that user's history.
- AccountSettings.AddInterest, AccountSettings.CheckCardStatus: a found account is required to come with its user wherever the source writes to the user's history. The caller resolves both from the same user.
- Payments.PayOnline, Transfers.SendMoneyToCommerciant, AccountTransfers.SendMoney: a business account is required to have its owner. Its constructor always sets the owner; the field is nullable only because one account class covers all three kinds.
- BusinessCommands.ChangeSpendingLimit: the account is required to have an owner, because the source reads the owner's user without a guard.
- Payments.PayOnline, Transfers.SendMoneyToCommerciant: a found seller is required to have a cashback strategy. A seller whose strategy name is unknown holds none, and the source would dereference null when applying it.
- AccountTransfers.SendMoney: a found giver or receiver account is required to come with its user, which the caller resolves from the same IBAN.
- AccountSettings.MinBalance: the error entry built on a null user or account is never added to the output, so the model adds none.
- Four-argument `printError`: it is not declared. Callers that use it are modelled as appending one error output record.
- Four-argument `AddAccountTransaction` constructor: it is not declared. The model follows the declared constructor.
- Manager: the constructor calls an `Employee(User, int)` that is not declared. Managers are modelled as employees with permission rank 1.
- Commerciants.Seller.constructor: the first `Seller` constructor leaves the id at 0 and the IBAN null. The model uses 0 and the empty string.
- History records: the Java code appends a record object and fills in its fields later. The model appends the record with its final field values, which is the same once the command finishes.
- Payments.Price: the RON-equivalent lookups happen before the spending-limit check rather than after it. They only read, so the outcome is the same.
- Split payments: rejecting a split writes the approvals and flags before settling. This follows `rejectUser`'s order.
