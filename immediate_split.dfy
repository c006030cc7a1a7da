/**
 * The older, immediate split payment (`transactions.SplitPaymentTransaction`):
 * the command's amount is divided evenly among the participating accounts
 * and charged at once, without asking anyone.
 *
 * Every participant's user and account records the split whatever the
 * outcome. The check runs over every participant without stopping, so when
 * several balances are strictly below their share the error names the last
 * of them; in that case nobody is charged. Otherwise every account pays its
 * share converted into the account's currency.
 */
module ImmediateSplit {
  import opened Wrappers
  import opened Records
  import opened ExchangeRates
  import opened Ledger
  import opened Pricing
  import SplitPayments

  /** The histories of the users `us`. */
  ghost function UserHistories(us: seq<User>): (r: seq<seq<Record>>)
    reads us
    ensures |r| == |us| && forall j :: 0 <= j < |us| ==> r[j] == us[j].transactions
  {
    if us == [] then [] else UserHistories(us[..|us| - 1]) + [us[|us| - 1].transactions]
  }

  /** The histories of the accounts `as_`. */
  ghost function AccountHistories(as_: seq<Account>): (r: seq<seq<Record>>)
    reads as_
    ensures |r| == |as_| && forall j :: 0 <= j < |as_| ==> r[j] == as_[j].transactions
  {
    if as_ == [] then [] else AccountHistories(as_[..|as_| - 1]) + [as_[|as_| - 1].transactions]
  }

  /** The balances of the accounts `as_`. */
  ghost function Balances(as_: seq<Account>): (r: seq<real>)
    reads as_
    ensures |r| == |as_| && forall j :: 0 <= j < |as_| ==> r[j] == as_[j].balance
  {
    if as_ == [] then [] else Balances(as_[..|as_| - 1]) + [as_[|as_| - 1].balance]
  }

  class SplitPaymentTransaction {
    const timestamp: int
    /** The command's amount, currency and IBAN list. */
    const total: real
    const currency: string
    const ibans: seq<string>
    /** The participants as the command's finders resolve them: the user and the account of each IBAN. */
    const users: seq<User>
    const accounts: seq<Account>
    const bank: Bnr
    var amount: real
    var involvedAccounts: seq<string>
    var error: Option<string>
    var everythingOk: bool

    /** At least one participant, and no account twice; a user may hold several participating accounts. */
    predicate WellFormed() {
      |users| == |accounts| > 0 && forall i, j :: 0 <= i < j < |accounts| ==> accounts[i] != accounts[j]
    }

    constructor (timestamp: int, total: real, currency: string, ibans: seq<string>, users: seq<User>,
                 accounts: seq<Account>, bank: Bnr)
      ensures this.timestamp == timestamp && this.total == total && this.currency == currency && this.ibans == ibans
      ensures this.users == users && this.accounts == accounts && this.bank == bank
      ensures error.None? && involvedAccounts == [] && amount == 0.0 && !everythingOk
    {
      this.timestamp, this.total, this.currency, this.ibans := timestamp, total, currency, ibans;
      this.users, this.accounts, this.bank := users, accounts, bank;
      error, involvedAccounts, amount, everythingOk := None, [], 0.0, false;
    }

    /** The history record: the split's own fields. */
    function AsRecord(): Record
      reads this
    {
      ImmediateSplitPayment(timestamp, total, amount, currency, involvedAccounts, error)
    }

    /** Every participant's share in the split's currency. */
    function Share(): real
      requires WellFormed()
    {
      total / |users| as real
    }

    /** Participant `i`'s share converted into its account's currency. */
    function Due(i: nat): real
      requires WellFormed() && i < |users|
      reads bank`exchangeRates
    {
      Convert(bank.exchangeRates, Share(), currency, accounts[i].currency)
    }

    /** The last of the first `n` participants whose balance is strictly below its share. */
    function LastShort(n: nat): (r: Option<nat>)
      requires WellFormed() && n <= |users|
      reads bank`exchangeRates, accounts`balance
      ensures r.Some? ==> r.value < n && accounts[r.value].balance < Due(r.value)
                          && forall j :: r.value < j < n ==> accounts[j].balance >= Due(j)
      ensures r.None? ==> forall j :: 0 <= j < n ==> accounts[j].balance >= Due(j)
    {
      if n == 0 then None
      else if accounts[n - 1].balance < Due(n - 1) then Some(n - 1)
      else LastShort(n - 1)
    }

    /** The error once the first `n` participants were checked, starting from the error `e`. */
    function ErrorAfter(e: Option<string>, n: nat): Option<string>
      requires WellFormed() && n <= |users|
      reads bank`exchangeRates, accounts`balance
    {
      match LastShort(n)
      case Some(i) => Some(SplitPayments.ShortMessage(accounts[i].iban))
      case None => e
    }

    lemma ErrorStep(e: Option<string>, i: nat)
      requires WellFormed() && i < |users|
      ensures ErrorAfter(e, i + 1)
              == if accounts[i].balance < Due(i) then Some(SplitPayments.ShortMessage(accounts[i].iban)) else ErrorAfter(e, i)
    {
    }

    /**
     * The check loop of `checkAccounts`, from the error `e`: every
     * participant is checked against its share, each short balance
     * overwriting the error with its own IBAN.
     */
    method Scan(e: Option<string>) returns (err: Option<string>)
      requires WellFormed()
      ensures err == ErrorAfter(e, |users|)
      ensures err.Some? && err != e ==> exists j :: 0 <= j < |users| && accounts[j].balance < Due(j)
      ensures (forall j :: 0 <= j < |users| ==> accounts[j].balance >= Due(j)) ==> err == e
    {
      err := e;
      var i := 0;
      while i < |users|
        invariant i <= |users| && err == ErrorAfter(e, i)
      {
        var due := Exchange(bank, Share(), currency, accounts[i].currency);
        ErrorStep(e, i);
        if accounts[i].balance < due {
          err := Some(SplitPayments.ShortMessage(accounts[i].iban));
        }
        i := i + 1;
      }
    }

    /**
     * `checkAccounts`: the error is the one the check loop leaves, and the
     * split may go ahead exactly when no error is left.
     */
    method CheckAccounts()
      requires WellFormed()
      modifies this`error, this`everythingOk
      ensures error == old(ErrorAfter(error, |users|))
      ensures everythingOk == error.None?
    {
      var err := Scan(error);
      error, everythingOk := err, err.None?;
    }

    /** The recording loop after the first `i` participants. */
    ghost predicate RecordedUpTo(i: nat, record: Record, h0: seq<seq<Record>>, t0: seq<seq<Record>>)
      requires WellFormed() && i <= |users|
      reads users`transactions, accounts`transactions
    {
      |h0| == |users| == |t0|
      && (forall j :: 0 <= j < |users| ==>
            users[j].transactions == h0[j] + Repeat(record, SplitPayments.Count(users, users[j], i)))
      && (forall j :: 0 <= j < |accounts| ==> accounts[j].transactions == t0[j] + (if j < i then [record] else []))
    }

    /** Participant `i`'s user and account record the split. */
    method RecordOne(i: nat, record: Record)
      requires WellFormed() && i < |users|
      modifies users`transactions, accounts`transactions
      ensures forall j :: 0 <= j < |users| ==>
                users[j].transactions == old(users[j].transactions) + (if users[j] == users[i] then [record] else [])
      ensures forall j :: 0 <= j < |accounts| ==>
                accounts[j].transactions == old(accounts[j].transactions) + (if j == i then [record] else [])
    {
      users[i].transactions := users[i].transactions + [record];
      accounts[i].transactions := accounts[i].transactions + [record];
    }

    method RecordStep(i: nat, record: Record, ghost h0: seq<seq<Record>>, ghost t0: seq<seq<Record>>)
      requires WellFormed() && i < |users| && RecordedUpTo(i, record, h0, t0)
      modifies users`transactions, accounts`transactions
      ensures RecordedUpTo(i + 1, record, h0, t0)
    {
      RecordOne(i, record);
      forall j | 0 <= j < |users|
        ensures users[j].transactions == h0[j] + Repeat(record, SplitPayments.Count(users, users[j], i + 1))
      {
        SplitPayments.AppendedStep(h0[j], old(users[j].transactions), record, users, i, j);
      }
    }

    /**
     * The appends of `checkAccounts`: every participant's user records the
     * split once per account it holds in the split, and every account once.
     */
    method RecordOnAll(record: Record)
      requires WellFormed()
      modifies users`transactions, accounts`transactions
      ensures forall j :: 0 <= j < |users| ==>
                users[j].transactions
                == old(users[j].transactions) + Repeat(record, SplitPayments.Count(users, users[j], |users|))
      ensures forall j :: 0 <= j < |accounts| ==> accounts[j].transactions == old(accounts[j].transactions) + [record]
    {
      ghost var h0 := UserHistories(users);
      ghost var t0 := AccountHistories(accounts);
      RecordFrom(0, record, h0, t0);
    }

    /** The recording loop, from participant `i` on. */
    method RecordFrom(i: nat, record: Record, ghost h0: seq<seq<Record>>, ghost t0: seq<seq<Record>>)
      requires WellFormed() && i <= |users| && RecordedUpTo(i, record, h0, t0)
      modifies users`transactions, accounts`transactions
      ensures RecordedUpTo(|users|, record, h0, t0)
    {
      var k := i;
      while k < |users|
        invariant i <= k <= |users| && RecordedUpTo(k, record, h0, t0)
      {
        RecordStep(k, record, h0, t0);
        k := k + 1;
      }
    }

    /** The charging loop after the first `i` participants, against the balances `b0`. */
    ghost predicate ChargedUpTo(i: nat, b0: seq<real>)
      requires WellFormed() && i <= |users|
      reads bank`exchangeRates, accounts`balance
    {
      |b0| == |accounts|
      && forall j :: 0 <= j < |accounts| ==> accounts[j].balance == b0[j] - (if j < i then Due(j) else 0.0)
    }

    /** The debits of `makeTransaction`: every account pays its converted share. */
    method Charge()
      requires WellFormed()
      modifies accounts`balance
      ensures forall j :: 0 <= j < |accounts| ==> accounts[j].balance == old(accounts[j].balance) - Due(j)
    {
      ghost var b0 := Balances(accounts);
      var i := 0;
      while i < |users|
        invariant i <= |users| && ChargedUpTo(i, b0)
      {
        var due := Exchange(bank, Share(), currency, accounts[i].currency);
        accounts[i].balance := accounts[i].balance - due;
        i := i + 1;
      }
    }

    /**
     * `makeTransaction`: the share and the involved IBANs are set, every
     * participant is checked and records the split, and the accounts are
     * charged when no balance was short. The record in the histories is
     * the split as it ends, error included.
     */
    method MakeTransaction()
      requires WellFormed()
      modifies this`amount, this`involvedAccounts, this`error, this`everythingOk, users`transactions,
               accounts`transactions, accounts`balance
      ensures amount == Share() && involvedAccounts == old(involvedAccounts) + ibans
      ensures error == old(ErrorAfter(error, |users|)) && everythingOk == error.None?
      ensures forall j :: 0 <= j < |users| ==>
                users[j].transactions
                == old(users[j].transactions) + Repeat(AsRecord(), SplitPayments.Count(users, users[j], |users|))
      ensures forall j :: 0 <= j < |accounts| ==> accounts[j].transactions == old(accounts[j].transactions) + [AsRecord()]
      ensures forall j :: 0 <= j < |accounts| ==>
                accounts[j].balance == old(accounts[j].balance) - if everythingOk then Due(j) else 0.0
    {
      Run(UserHistories(users), AccountHistories(accounts), Balances(accounts), ErrorAfter(error, |users|));
    }

    /** `makeTransaction` from the histories `h0` and `t0`, the balances `b0` and the error `e` the check will leave. */
    method Run(ghost h0: seq<seq<Record>>, ghost t0: seq<seq<Record>>, ghost b0: seq<real>, ghost e: Option<string>)
      requires WellFormed() && h0 == UserHistories(users) && t0 == AccountHistories(accounts)
      requires b0 == Balances(accounts) && e == ErrorAfter(error, |users|)
      modifies this`amount, this`involvedAccounts, this`error, this`everythingOk, users`transactions,
               accounts`transactions, accounts`balance
      ensures amount == Share() && involvedAccounts == old(involvedAccounts) + ibans
      ensures error == e && everythingOk == e.None?
      ensures EndedFrom(h0, t0, b0)
    {
      amount := total / |users| as real;
      involvedAccounts := involvedAccounts + ibans;
      // the share and the IBAN list are none of what the check and the appends depend on
      assert h0 == UserHistories(users) && t0 == AccountHistories(accounts) && b0 == Balances(accounts);
      assert e == ErrorAfter(error, |users|);
      CheckAndCharge(h0, t0, b0, e);
    }

    /**
     * The split's end against the histories `h0` and `t0` and the balances
     * `b0` it started from: every user records it once per account it holds
     * in the split, every account once, and the accounts pay their shares
     * exactly when the split went ahead.
     */
    ghost predicate EndedFrom(h0: seq<seq<Record>>, t0: seq<seq<Record>>, b0: seq<real>)
      requires WellFormed()
      reads this, users, accounts, bank
    {
      |h0| == |users| == |t0| == |b0|
      && (forall j :: 0 <= j < |users| ==>
            users[j].transactions == h0[j] + Repeat(AsRecord(), SplitPayments.Count(users, users[j], |users|)))
      && (forall j :: 0 <= j < |accounts| ==> accounts[j].transactions == t0[j] + [AsRecord()])
      && (forall j :: 0 <= j < |accounts| ==> accounts[j].balance == b0[j] - if everythingOk then Due(j) else 0.0)
    }

    /** `checkAccounts` and the debits, from the histories, balances and error they find. */
    method CheckAndCharge(ghost h0: seq<seq<Record>>, ghost t0: seq<seq<Record>>, ghost b0: seq<real>,
                          ghost e: Option<string>)
      requires WellFormed() && h0 == UserHistories(users) && t0 == AccountHistories(accounts)
      requires b0 == Balances(accounts) && e == ErrorAfter(error, |users|)
      modifies this`error, this`everythingOk, users`transactions, accounts`transactions, accounts`balance
      ensures error == e && everythingOk == e.None?
      ensures EndedFrom(h0, t0, b0)
    {
      CheckAccounts();
      RecordAndCharge(h0, t0, b0);
    }

    /** The appends of `checkAccounts` and the debits that follow a clean check. */
    method RecordAndCharge(ghost h0: seq<seq<Record>>, ghost t0: seq<seq<Record>>, ghost b0: seq<real>)
      requires WellFormed() && h0 == UserHistories(users) && t0 == AccountHistories(accounts)
      requires b0 == Balances(accounts)
      modifies users`transactions, accounts`transactions, accounts`balance
      ensures EndedFrom(h0, t0, b0)
      ensures error == old(error) && everythingOk == old(everythingOk)
    {
      RecordOnAll(AsRecord());
      if everythingOk {
        Charge();
      }
    }

    // -------------------------------------------------------------------
    // What the split promises

    /** No error comes out of the check from a clean start exactly when every balance covers its share. */
    lemma GoesAheadIff()
      requires WellFormed()
      ensures ErrorAfter(None, |users|).None? <==> forall j :: 0 <= j < |users| ==> accounts[j].balance >= Due(j)
    {
      if LastShort(|users|).Some? {
        var i := LastShort(|users|).value;
        assert accounts[i].balance < Due(i);
      }
    }

    /** When some balances are short, the error names the last of them. */
    lemma NamesLastShort(i: nat)
      requires WellFormed() && i < |users| && accounts[i].balance < Due(i)
      requires forall j :: i < j < |users| ==> accounts[j].balance >= Due(j)
      ensures ErrorAfter(None, |users|) == Some(SplitPayments.ShortMessage(accounts[i].iban))
    {
      assert LastShort(|users|) == Some(i);
    }

    /** The sum of the first `n` converted shares. */
    function DueSum(n: nat): real
      requires WellFormed() && n <= |users|
      reads bank`exchangeRates
    {
      if n == 0 then 0.0 else DueSum(n - 1) + Due(n - 1)
    }

    /** When every account holds the split's currency, the shares charged add up to the command's amount. */
    lemma {:induction false} SharesAddUp(n: nat)
      requires WellFormed() && n <= |users|
      requires forall j :: 0 <= j < |accounts| ==> accounts[j].currency == currency
      ensures DueSum(n) == n as real * Share()
    {
      if n > 0 {
        SharesAddUp(n - 1);
      }
    }

    lemma EvenSplit()
      requires WellFormed()
      requires forall j :: 0 <= j < |accounts| ==> accounts[j].currency == currency
      ensures DueSum(|users|) == total
    {
      SharesAddUp(|users|);
    }
  }
}
