/**
 * The consensual split payment (`split_payment.SplitPaymentTransaction`): a
 * payment shared by several accounts that waits until every participating
 * user has accepted it, and is dropped as soon as one of them rejects it.
 *
 * The split's first run only puts it on every participant's list of pending
 * splits. Each acceptance marks that user's approval and takes the split off
 * that user's list once; when every approval is in, the split is taken off
 * every list and settled. A rejection settles it at once as rejected.
 * Settling charges every account its share converted into the account's
 * currency, unless a rejection came first or some balance is strictly below
 * its share; a short balance is reported on every participant, naming the
 * first such account.
 */
module SplitPayments {
  import opened Wrappers
  import opened Records
  import opened ExchangeRates
  import opened Ledger
  import opened Pricing

  const RejectedMessage := "One user rejected the payment."

  function ShortMessage(iban: string): string {
    "Account " + iban + " has insufficient funds for a split payment."
  }

  // ---------------------------------------------------------------------
  // Counting occurrences

  /** How many times `x` occurs among the first `n` elements of `s`. */
  function Count<T(==)>(s: seq<T>, x: T, n: nat): nat
    requires n <= |s|
  {
    multiset(s[..n])[x]
  }

  lemma CountStep<T>(s: seq<T>, x: T, n: nat)
    requires n < |s|
    ensures Count(s, x, 0) == 0
    ensures Count(s, x, n + 1) == Count(s, x, n) + (if s[n] == x then 1 else 0)
  {
    assert s[..n + 1] == s[..n] + [s[n]];
  }

  /** A participant occurs at least once among the participants. */
  lemma CountOfMember<T>(s: seq<T>, i: nat, n: nat)
    requires i < n <= |s|
    ensures Count(s, s[i], n) >= 1
  {
    assert s[..n][i] == s[i];
  }

  // One loop step over participant `i`, seen from participant `j`: the
  // append, removal or sort applies exactly when `j` is the same user as `i`.

  lemma AppendedStep<T, U>(o: seq<U>, cur: seq<U>, r: U, s: seq<T>, i: nat, j: nat)
    requires i < |s| && j < |s|
    requires cur == o + Repeat(r, Count(s, s[j], i))
    ensures cur + (if s[j] == s[i] then [r] else []) == o + Repeat(r, Count(s, s[j], i + 1))
  {
    CountStep(s, s[j], i);
  }

  lemma RemovedStep<T>(o: seq<object>, cur: seq<object>, x: object, s: seq<T>, i: nat, j: nat)
    requires i < |s| && j < |s|
    requires cur == RemoveTimes(o, x, Count(s, s[j], i))
    ensures (if s[j] == s[i] then RemoveFirst(cur, x) else cur) == RemoveTimes(o, x, Count(s, s[j], i + 1))
  {
    CountStep(s, s[j], i);
  }

  lemma SortedStep<T>(o: seq<Record>, cur: seq<Record>, r: Record, s: seq<T>, i: nat, j: nat)
    requires i < |s| && j < |s|
    requires cur == SortedAppends(o, r, Count(s, s[j], i))
    ensures (if s[j] == s[i] then Sort(cur + [r]) else cur) == SortedAppends(o, r, Count(s, s[j], i + 1))
  {
    CountStep(s, s[j], i);
    var c := Count(s, s[j], i);
    if s[j] == s[i] {
      assert Count(s, s[j], i + 1) == c + 1;
      SortedAppendsStep(o, r, c);
    } else {
      assert Count(s, s[j], i + 1) == c;
    }
  }

  /** `k` calls of `list.remove(x)`. */
  function RemoveTimes(s: seq<object>, x: object, k: nat): seq<object> {
    if k == 0 then s else RemoveFirst(RemoveTimes(s, x, k - 1), x)
  }

  /** Taking out as many copies of `x` as were appended gives back the list's contents. */
  lemma {:induction false} RemoveWhatWasAdded(s: seq<object>, x: object, k: nat)
    ensures multiset(RemoveTimes(s + Repeat(x, k), x, k)) == multiset(s)
  {
    RepeatMultiset(x, k);
    assert multiset(s + Repeat(x, k)) == multiset(s) + multiset(Repeat(x, k));
    RemoveTimesMultiset(s + Repeat(x, k), x, k);
  }

  lemma {:induction false} RepeatMultiset<T>(x: T, k: nat)
    ensures multiset(Repeat(x, k)) == multiset{}[x := k]
  {
    if k > 0 {
      RepeatMultiset(x, k - 1);
    }
  }

  /** `k` removals of `x` from `s` take out exactly `k` of its copies and nothing else. */
  ghost predicate RemovedTimes(s: seq<object>, x: object, k: nat) {
    multiset(s)[x] >= k && multiset(RemoveTimes(s, x, k)) == multiset(s)[x := multiset(s)[x] - k]
  }

  lemma {:induction false} RemoveTimesMultiset(s: seq<object>, x: object, k: nat)
    requires multiset(s)[x] >= k
    ensures RemovedTimes(s, x, k)
  {
    if k > 0 {
      RemoveTimesMultiset(s, x, k - 1);
      RemoveOneMore(s, x, k);
    }
  }

  /** The `k`-th removal takes out one more `x`. */
  lemma RemoveOneMore(s: seq<object>, x: object, k: nat)
    requires 0 < k <= multiset(s)[x] && RemovedTimes(s, x, k - 1)
    ensures RemovedTimes(s, x, k)
  {
    var t: seq<object> := RemoveTimes(s, x, k - 1);
    assert x in multiset(t);
    OneFewer(multiset(t), multiset(s), x, k - 1);
  }

  /** Taking one more `x` out of a multiset that lacks `j` of the `x`s in `m`. */
  lemma OneFewer(a: multiset<object>, m: multiset<object>, x: object, j: nat)
    requires m[x] > j && a == m[x := m[x] - j]
    ensures a - multiset{x} == m[x := m[x] - (j + 1)]
  {
    assert forall y :: (a - multiset{x})[y] == m[x := m[x] - (j + 1)][y];
  }

  // ---------------------------------------------------------------------
  // Histories

  /** `k` times: append `r`, then sort the history by timestamp. */
  function SortedAppends(h: seq<Record>, r: Record, k: nat): seq<Record> {
    if k == 0 then h else Sort(h + Repeat(r, k))
  }

  lemma SortedAppendsStep(h: seq<Record>, r: Record, k: nat)
    ensures SortedAppends(h, r, k + 1) == Sort(SortedAppends(h, r, k) + [r])
  {
    if k == 0 {
      assert Repeat(r, 1) == [r];
    } else {
      SortedAppendAgain(h, r, k);
    }
  }

  /**
   * A participant's history once the split settled, for a participant that
   * occurs `c` times: a rejection appends the record once per occurrence;
   * a short balance or a commit appends it once more per occurrence,
   * sorting after each.
   */
  function HistoryAfter(h: seq<Record>, r: Record, c: nat, rejected: bool, short: bool): seq<Record> {
    var h1 := if rejected then h + Repeat(r, c) else h;
    if short || !rejected then SortedAppends(h1, r, c) else h1
  }

  /** A history as `checkAccounts` leaves it: `added` (the rejection's records) appended, then the sorted appends of a short balance. */
  function Checked(h: seq<Record>, added: seq<Record>, r: Record, c: nat, short: bool): seq<Record> {
    if short then SortedAppends(h + added, r, c) else h + added
  }

  /** `HistoryAfter` as the rejection step, the appends of `checkAccounts` and those of the commit. */
  lemma SettledAfterCheck(h: seq<Record>, added: seq<Record>, after: seq<Record>, r: Record, c: nat, rejected: bool,
                          short: bool)
    requires added == if rejected then Repeat(r, c) else []
    requires after == if !short && !rejected then SortedAppends(Checked(h, added, r, c, short), r, c)
                      else Checked(h, added, r, c, short)
    ensures after == HistoryAfter(h, r, c, rejected, short)
  {
    if !rejected {
      assert h + added == h;
    }
  }

  /** The record is appended once or twice per occurrence, and the history ends sorted unless the split was only rejected. */
  lemma HistoryAfterFacts(h: seq<Record>, r: Record, c: nat, rejected: bool, short: bool)
    requires c >= 1
    ensures var after := HistoryAfter(h, r, c, rejected, short);
            multiset(after) == multiset(h)[r := multiset(h)[r] + c * (if rejected && short then 2 else 1)]
            && (short || !rejected ==> Sorted(after))
  {
    var h1 := if rejected then h + Repeat(r, c) else h;
    RepeatMultiset(r, c);
    if short || !rejected {
      SortFacts(h1 + Repeat(r, c));
    }
  }

  // ---------------------------------------------------------------------
  // The split

  /** What a settlement leaves on the split: its error, the two amount fields, and the first short account. */
  datatype Settlement = Settlement(error: Option<string>, amountForUsers: Option<seq<real>>, amount: Option<real>,
                                   short: Option<nat>)
  {
    predicate Commits() {
      error.None?
    }
  }

  /** The approvals once `email` answered: its entry set to `approve`, any other email leaving them as they are. */
  function Answered(m: map<string, bool>, email: string, approve: bool): (r: map<string, bool>)
    ensures r.Keys == m.Keys
    ensures email in m ==> r[email] == approve
    ensures forall e :: e in m && e != email ==> r[e] == m[e]
  {
    if email in m then m[email := approve] else m
  }

  /** What settling reads of the state it starts from: histories, balances, converted shares, the first short account and the involved accounts. */
  datatype Before = Before(histories: seq<seq<Record>>, accountHistories: seq<seq<Record>>, balances: seq<real>,
                           dues: seq<real>, short: Option<nat>, involved: seq<string>)

  class SplitPaymentTransaction {
    const timestamp: int
    const splitPaymentType: string
    /** The command's amount, currency, IBAN list and per-user amounts. */
    const total: real
    const currency: string
    const ibans: seq<string>
    const requested: seq<real>
    /** The participants, one user and account per IBAN, in the command's order. */
    const users: seq<User>
    const accounts: seq<Account>
    const bank: Bnr
    var approvals: map<string, bool>
    var waiting: int
    var everythingOk: bool
    var error: Option<string>
    var involvedAccounts: seq<string>
    var amountForUsers: Option<seq<real>>
    var amount: Option<real>

    /**
     * The participants as the command builds them: one per IBAN, at least
     * one, no account twice; a custom split names a share for each.
     */
    predicate WellFormed() {
      |users| == |ibans| == |accounts| > 0
      && (forall i, j :: 0 <= i < j < |accounts| ==> accounts[i] != accounts[j])
      && (splitPaymentType != "equal" ==> |requested| >= |users|)
    }

    function Emails(): set<string> {
      set i | 0 <= i < |users| :: users[i].email
    }

    /** A split that has not settled: the fields its first run finds. */
    predicate Unsettled()
      reads this
    {
      WellFormed() && approvals.Keys == Emails() && error.None? && involvedAccounts == []
      && amountForUsers == Some([]) && amount.None?
    }

    /** A split waiting for its participants, as every acceptance and rejection finds it. */
    predicate Pending()
      reads this
    {
      Unsettled() && waiting == 1 && everythingOk
    }

    /** The history record: the split's own fields. */
    function AsRecord(): Record
      reads this
    {
      SplitPayment(timestamp, total, currency, involvedAccounts, error, splitPaymentType, amountForUsers, amount)
    }

    constructor (timestamp: int, splitPaymentType: string, total: real, currency: string, ibans: seq<string>,
                 requested: seq<real>, users: seq<User>, accounts: seq<Account>, bank: Bnr)
      requires |users| == |ibans| == |accounts|
      ensures this.timestamp == timestamp && this.splitPaymentType == splitPaymentType && this.total == total
      ensures this.currency == currency && this.ibans == ibans && this.requested == requested
      ensures this.users == users && this.accounts == accounts && this.bank == bank
      // one approval per participating email, none given yet
      ensures approvals.Keys == Emails() && forall e :: e in approvals ==> !approvals[e]
      ensures waiting == 1 && everythingOk && error.None? && involvedAccounts == []
      ensures amountForUsers == Some([]) && amount.None?
    {
      this.timestamp, this.splitPaymentType, this.total, this.currency := timestamp, splitPaymentType, total, currency;
      this.ibans, this.requested, this.users, this.accounts, this.bank := ibans, requested, users, accounts, bank;
      error, amountForUsers, amount, involvedAccounts := None, Some([]), None, [];
      var found: map<string, bool> := map[];
      var i := 0;
      while i < |ibans|
        invariant 0 <= i <= |ibans|
        invariant found.Keys == set j | 0 <= j < i :: users[j].email
        invariant forall e :: e in found ==> !found[e]
      {
        found := found[users[i].email := false];
        i := i + 1;
      }
      approvals := found;
      waiting, everythingOk := 1, true;
    }

    /** The split's first run: every participant's pending list gets the split once per occurrence. */
    method Enqueue()
      modifies users`activeTransactions
      ensures forall j :: 0 <= j < |users| ==>
                users[j].activeTransactions == old(users[j].activeTransactions) + Repeat<object>(this, Count(users, users[j], |users|))
    {
      var i := 0;
      while i < |users|
        invariant 0 <= i <= |users|
        invariant forall j :: 0 <= j < |users| ==>
                    users[j].activeTransactions
                    == old(users[j].activeTransactions) + Repeat<object>(this, Count(users, users[j], i))
      {
        label Before:
        users[i].activeTransactions := users[i].activeTransactions + [this];
        forall j | 0 <= j < |users|
          ensures users[j].activeTransactions
                  == old(users[j].activeTransactions) + Repeat<object>(this, Count(users, users[j], i + 1))
        {
          AppendedStep<User, object>(old(users[j].activeTransactions), old@Before(users[j].activeTransactions), this, users, i, j);
        }
        i := i + 1;
      }
    }

    // -------------------------------------------------------------------
    // Settling

    /** The shares in the split's currency: the total divided evenly, or the command's per-user amounts. */
    function Shares(): (r: seq<real>)
      requires WellFormed()
      ensures |r| >= |users|
    {
      if splitPaymentType == "equal" then Repeat(total / |users| as real, |users|) else requested
    }

    /** Participant `i`'s share converted into its account's currency. */
    function Due(i: nat): real
      requires WellFormed() && i < |users|
      reads bank`exchangeRates
    {
      Convert(bank.exchangeRates, Shares()[i], currency, accounts[i].currency)
    }

    /** The first participant from `from` on whose balance is strictly below its share. */
    function FirstShort(from: nat): (r: Option<nat>)
      requires WellFormed() && from <= |users|
      reads bank`exchangeRates, accounts`balance
      ensures r.Some? ==> from <= r.value < |users| && accounts[r.value].balance < Due(r.value)
                          && forall j :: from <= j < r.value ==> accounts[j].balance >= Due(j)
      ensures r.None? ==> forall j :: from <= j < |users| ==> accounts[j].balance >= Due(j)
      decreases |users| - from
    {
      if from == |users| then None
      else if accounts[from].balance < Due(from) then Some(from)
      else FirstShort(from + 1)
    }

    /**
     * How a settlement ends. A short balance names the first short account,
     * and otherwise a rejection stands as the error; the split commits when
     * there is neither. Once it ran short or committed, an equal split keeps
     * the per-user share as `amount` and a custom one the per-user list.
     */
    function OutcomeOf(rejected: bool, short: Option<nat>): (s: Settlement)
      requires WellFormed() && (short.Some? ==> short.value < |users|)
      ensures s.short == short
      ensures s.error == if short.Some? then Some(ShortMessage(accounts[short.value].iban))
                         else if rejected then Some(RejectedMessage) else None
      ensures s.Commits() <==> !rejected && short.None?
    {
      var error := if short.Some? then Some(ShortMessage(accounts[short.value].iban))
                   else if rejected then Some(RejectedMessage) else None;
      if short.Some? || !rejected then
        if splitPaymentType == "equal" then Settlement(error, None, Some(total / |users| as real), short)
        else Settlement(error, Some(requested), None, short)
      else Settlement(error, Some(Shares()), None, short)
    }

    /** The settlement the current balances lead to. */
    function Outcome(rejected: bool): Settlement
      requires WellFormed()
      reads bank`exchangeRates, accounts`balance
    {
      OutcomeOf(rejected, FirstShort(0))
    }

    /** A settlement commits exactly when nobody rejected and every balance covers its converted share. */
    lemma OutcomeCommits(rejected: bool)
      requires WellFormed()
      ensures Outcome(rejected).Commits() <==> !rejected && forall j :: 0 <= j < |users| ==> accounts[j].balance >= Due(j)
    {
    }

    /** The record a settlement writes: the split's fields as the settlement leaves them. */
    function RecordOf(s: Settlement): Record {
      SplitPayment(timestamp, total, currency, ibans, s.error, splitPaymentType, s.amountForUsers, s.amount)
    }

    /** Participant `i` records a rejection, unsorted, and its user drops the split from its pending list once. */
    method RejectOne(i: nat, record: Record)
      requires WellFormed() && i < |users|
      modifies users`transactions, users`activeTransactions, accounts`transactions
      ensures forall j :: 0 <= j < |users| ==>
                users[j].transactions == old(users[j].transactions) + (if users[j] == users[i] then [record] else [])
      ensures forall j :: 0 <= j < |users| ==>
                users[j].activeTransactions
                == if users[j] == users[i] then RemoveFirst(old(users[j].activeTransactions), this)
                   else old(users[j].activeTransactions)
      ensures forall j :: 0 <= j < |accounts| ==>
                accounts[j].transactions == old(accounts[j].transactions) + (if j == i then [record] else [])
    {
      users[i].transactions := users[i].transactions + [record];
      users[i].activeTransactions := RemoveFirst(users[i].activeTransactions, this);
      accounts[i].transactions := accounts[i].transactions + [record];
    }

    // The loops below state their progress against ghost snapshots of the
    // histories (`h0` for the users, `t0` for the accounts), the pending
    // lists (`a0`) and the balances (`b0`) taken when the loop starts.

    ghost function UserHistories(n: nat): (r: seq<seq<Record>>)
      requires n <= |users|
      reads users`transactions
      ensures |r| == n && forall j :: 0 <= j < n ==> r[j] == users[j].transactions
    {
      if n == 0 then [] else UserHistories(n - 1) + [users[n - 1].transactions]
    }

    ghost function PendingLists(n: nat): (r: seq<seq<object>>)
      requires n <= |users|
      reads users`activeTransactions
      ensures |r| == n && forall j :: 0 <= j < n ==> r[j] == users[j].activeTransactions
    {
      if n == 0 then [] else PendingLists(n - 1) + [users[n - 1].activeTransactions]
    }

    ghost function AccountHistories(n: nat): (r: seq<seq<Record>>)
      requires n <= |accounts|
      reads accounts`transactions
      ensures |r| == n && forall j :: 0 <= j < n ==> r[j] == accounts[j].transactions
    {
      if n == 0 then [] else AccountHistories(n - 1) + [accounts[n - 1].transactions]
    }

    ghost function Balances(n: nat): (r: seq<real>)
      requires n <= |accounts|
      reads accounts`balance
      ensures |r| == n && forall j :: 0 <= j < n ==> r[j] == accounts[j].balance
    {
      if n == 0 then [] else Balances(n - 1) + [accounts[n - 1].balance]
    }

    ghost function Dues(n: nat): (r: seq<real>)
      requires WellFormed() && n <= |users|
      reads bank`exchangeRates
      ensures |r| == n && forall j :: 0 <= j < n ==> r[j] == Due(j)
    {
      if n == 0 then [] else Dues(n - 1) + [Due(n - 1)]
    }

    /** The rejection loop after the first `i` participants. */
    ghost predicate RejectedUpTo(i: nat, record: Record, h0: seq<seq<Record>>, a0: seq<seq<object>>,
                                 t0: seq<seq<Record>>)
      requires WellFormed() && i <= |users|
      reads users`transactions, users`activeTransactions, accounts`transactions
    {
      |h0| == |a0| == |users| == |t0|
      && (forall j :: 0 <= j < |users| ==>
            users[j].transactions == h0[j] + Repeat(record, Count(users, users[j], i)))
      && (forall j :: 0 <= j < |users| ==>
            users[j].activeTransactions == RemoveTimes(a0[j], this, Count(users, users[j], i)))
      && (forall j :: 0 <= j < |accounts| ==> accounts[j].transactions == t0[j] + (if j < i then [record] else []))
    }

    method RejectStep(i: nat, record: Record, ghost h0: seq<seq<Record>>, ghost a0: seq<seq<object>>,
                      ghost t0: seq<seq<Record>>)
      requires WellFormed() && i < |users| && RejectedUpTo(i, record, h0, a0, t0)
      modifies users`transactions, users`activeTransactions, accounts`transactions
      ensures RejectedUpTo(i + 1, record, h0, a0, t0)
    {
      RejectOne(i, record);
      forall j | 0 <= j < |users|
        ensures users[j].transactions == h0[j] + Repeat(record, Count(users, users[j], i + 1))
        ensures users[j].activeTransactions == RemoveTimes(a0[j], this, Count(users, users[j], i + 1))
      {
        AppendedStep(h0[j], old(users[j].transactions), record, users, i, j);
        RemovedStep(a0[j], old(users[j].activeTransactions), this, users, i, j);
      }
    }

    /** Every participant's user gets the record once per occurrence, unsorted, and loses the split from its pending list. */
    method RecordRejection(record: Record)
      requires WellFormed()
      modifies users`transactions, users`activeTransactions, accounts`transactions
      ensures forall j :: 0 <= j < |users| ==>
                users[j].transactions == old(users[j].transactions) + Repeat(record, Count(users, users[j], |users|))
      ensures forall j :: 0 <= j < |users| ==>
                users[j].activeTransactions == RemoveTimes(old(users[j].activeTransactions), this, Count(users, users[j], |users|))
      ensures forall j :: 0 <= j < |accounts| ==> accounts[j].transactions == old(accounts[j].transactions) + [record]
    {
      ghost var h0 := UserHistories(|users|);
      ghost var a0 := PendingLists(|users|);
      ghost var t0 := AccountHistories(|accounts|);
      RejectFrom(0, record, h0, a0, t0);
    }

    /** The rejection loop, from participant `i` on. */
    method RejectFrom(i: nat, record: Record, ghost h0: seq<seq<Record>>, ghost a0: seq<seq<object>>,
                      ghost t0: seq<seq<Record>>)
      requires WellFormed() && i <= |users| && RejectedUpTo(i, record, h0, a0, t0)
      modifies users`transactions, users`activeTransactions, accounts`transactions
      ensures RejectedUpTo(|users|, record, h0, a0, t0)
    {
      var k := i;
      while k < |users|
        invariant i <= k <= |users|
        invariant RejectedUpTo(k, record, h0, a0, t0)
      {
        RejectStep(k, record, h0, a0, t0);
        k := k + 1;
      }
    }

    /** Participant `i`'s user and account get the record, each history sorted again after it. */
    method StampOne(i: nat, record: Record)
      requires WellFormed() && i < |users|
      modifies users`transactions, accounts`transactions
      ensures forall j :: 0 <= j < |users| ==>
                users[j].transactions
                == if users[j] == users[i] then Sort(old(users[j].transactions) + [record]) else old(users[j].transactions)
      ensures forall j :: 0 <= j < |accounts| ==>
                accounts[j].transactions
                == if j == i then Sort(old(accounts[j].transactions) + [record]) else old(accounts[j].transactions)
    {
      users[i].transactions := Sort(users[i].transactions + [record]);
      accounts[i].transactions := Sort(accounts[i].transactions + [record]);
    }

    /** A sorted-append loop after the first `i` participants. */
    ghost predicate StampedUpTo(i: nat, record: Record, h0: seq<seq<Record>>, t0: seq<seq<Record>>)
      requires WellFormed() && i <= |users|
      reads users`transactions, accounts`transactions
    {
      |h0| == |users| == |t0|
      && (forall j :: 0 <= j < |users| ==>
            users[j].transactions == SortedAppends(h0[j], record, Count(users, users[j], i)))
      && (forall j :: 0 <= j < |accounts| ==>
            accounts[j].transactions == SortedAppends(t0[j], record, if j < i then 1 else 0))
    }

    method StampStep(i: nat, record: Record, ghost h0: seq<seq<Record>>, ghost t0: seq<seq<Record>>)
      requires WellFormed() && i < |users| && StampedUpTo(i, record, h0, t0)
      modifies users`transactions, accounts`transactions
      ensures StampedUpTo(i + 1, record, h0, t0)
    {
      assert Repeat(record, 1) == [record];
      StampOne(i, record);
      forall j | 0 <= j < |users|
        ensures users[j].transactions == SortedAppends(h0[j], record, Count(users, users[j], i + 1))
      {
        SortedStep(h0[j], old(users[j].transactions), record, users, i, j);
      }
    }

    /** Every participant's user and account get the record once per occurrence, sorted after each. */
    method AddToAll(record: Record)
      requires WellFormed()
      modifies users`transactions, accounts`transactions
      ensures forall j :: 0 <= j < |users| ==>
                users[j].transactions == SortedAppends(old(users[j].transactions), record, Count(users, users[j], |users|))
      ensures forall j :: 0 <= j < |accounts| ==>
                accounts[j].transactions == SortedAppends(old(accounts[j].transactions), record, 1)
    {
      ghost var h0 := UserHistories(|users|);
      ghost var t0 := AccountHistories(|accounts|);
      StampFrom(0, record, h0, t0);
    }

    /** The sorted-append loop, from participant `i` on. */
    method StampFrom(i: nat, record: Record, ghost h0: seq<seq<Record>>, ghost t0: seq<seq<Record>>)
      requires WellFormed() && i <= |users| && StampedUpTo(i, record, h0, t0)
      modifies users`transactions, accounts`transactions
      ensures StampedUpTo(|users|, record, h0, t0)
    {
      var k := i;
      while k < |users|
        invariant i <= k <= |users|
        invariant StampedUpTo(k, record, h0, t0)
      {
        StampStep(k, record, h0, t0);
        k := k + 1;
      }
    }

    /** The commit loop's debits after the first `i` participants, `d0` holding the converted shares. */
    ghost predicate ChargedUpTo(i: nat, b0: seq<real>, d0: seq<real>)
      reads accounts`balance
    {
      |b0| == |accounts| == |d0|
      && forall j :: 0 <= j < |accounts| ==> accounts[j].balance == b0[j] - (if j < i then d0[j] else 0.0)
    }

    /** Participant `i` pays `due` and records the split, as `StampOne` does. */
    method ChargeStep(i: nat, due: real, record: Record, ghost h0: seq<seq<Record>>, ghost t0: seq<seq<Record>>,
                      ghost b0: seq<real>, ghost d0: seq<real>)
      requires WellFormed() && i < |users| && i < |d0| && due == d0[i]
      requires StampedUpTo(i, record, h0, t0)
      requires ChargedUpTo(i, b0, d0)
      modifies users`transactions, accounts`transactions, accounts`balance
      ensures StampedUpTo(i + 1, record, h0, t0)
      ensures ChargedUpTo(i + 1, b0, d0)
    {
      accounts[i].balance := accounts[i].balance - due;
      StampStep(i, record, h0, t0);
    }

    /** Every participant's share converted into its account's currency, in participant order. */
    method ConvertShares() returns (dues: seq<real>)
      requires WellFormed() && amountForUsers == Some(Shares())
      ensures |dues| == |users| && forall j :: 0 <= j < |users| ==> dues[j] == Due(j)
    {
      dues := [];
      var k := 0;
      while k < |users|
        invariant k <= |users| && |dues| == k
        invariant forall j :: 0 <= j < k ==> dues[j] == Due(j)
      {
        var due := Exchange(bank, amountForUsers.value[k], currency, accounts[k].currency);
        dues := dues + [due];
        k := k + 1;
      }
    }

    /**
     * The commit: every account pays its converted share, and every
     * participant records the split. The conversions depend on the rates
     * alone, so they are made before the debits.
     */
    method Commit(record: Record)
      requires WellFormed() && amountForUsers == Some(Shares())
      modifies users`transactions, accounts`transactions, accounts`balance
      ensures forall j :: 0 <= j < |users| ==>
                users[j].transactions == SortedAppends(old(users[j].transactions), record, Count(users, users[j], |users|))
      ensures forall j :: 0 <= j < |accounts| ==>
                accounts[j].transactions == SortedAppends(old(accounts[j].transactions), record, 1)
      ensures forall j :: 0 <= j < |accounts| ==> accounts[j].balance == old(accounts[j].balance) - old(Due(j))
    {
      var dues := ConvertShares();
      ghost var h0 := UserHistories(|users|);
      ghost var t0 := AccountHistories(|accounts|);
      ghost var b0 := Balances(|accounts|);
      ChargeFrom(0, dues, record, h0, t0, b0);
    }

    /** The commit loop, from participant `i` on: one participant per call, in order. */
    method ChargeFrom(i: nat, dues: seq<real>, record: Record, ghost h0: seq<seq<Record>>, ghost t0: seq<seq<Record>>,
                      ghost b0: seq<real>)
      requires WellFormed() && i <= |users| && |dues| == |users|
      requires StampedUpTo(i, record, h0, t0)
      requires ChargedUpTo(i, b0, dues)
      modifies users`transactions, accounts`transactions, accounts`balance
      ensures StampedUpTo(|users|, record, h0, t0)
      ensures ChargedUpTo(|users|, b0, dues)
      decreases |users| - i
    {
      if i < |users| {
        ChargeStep(i, dues[i], record, h0, t0, b0, dues);
        ChargeFrom(i + 1, dues, record, h0, t0, b0);
      }
    }

    // -------------------------------------------------------------------
    // checkAccounts, the settlement and makeTransaction

    /** The search of `checkAccounts`: the first participant whose balance is strictly below its converted share. */
    method FindShort() returns (r: Option<nat>)
      requires WellFormed()
      ensures r == old(FirstShort(0))
    {
      var shares := Shares();
      var k := 0;
      while k < |users|
        invariant k <= |users|
        invariant FirstShort(k) == FirstShort(0)
      {
        var due := Exchange(bank, shares[k], currency, accounts[k].currency);
        if accounts[k].balance < due {
          return Some(k);
        }
        k := k + 1;
      }
      return None;
    }

    /**
     * `checkAccounts` once `FindShort` found the first short participant, if
     * any: a short balance sets the error naming that account, writes the
     * record on every participant and fixes the amount fields; the split then
     * fails, as it does when an error already stands.
     */
    method CheckAccounts(record: Record, short: Option<nat>)
      requires WellFormed() && (short.Some? ==> short.value < |users|)
      modifies this`error, this`everythingOk, this`amountForUsers, this`amount, users`transactions, accounts`transactions
      ensures error == if short.Some? then Some(ShortMessage(accounts[short.value].iban)) else old(error)
      ensures everythingOk == error.None?
      ensures short.Some? && splitPaymentType == "equal" ==> amountForUsers.None? && amount == Some(total / |users| as real)
      ensures short.Some? && splitPaymentType != "equal" ==> amountForUsers == old(amountForUsers) && amount.None?
      ensures short.None? ==> amountForUsers == old(amountForUsers) && amount == old(amount)
      ensures forall j :: 0 <= j < |users| ==>
                users[j].transactions
                == if short.Some? then SortedAppends(old(users[j].transactions), record, Count(users, users[j], |users|))
                   else old(users[j].transactions)
      ensures forall j :: 0 <= j < |accounts| ==>
                accounts[j].transactions
                == if short.Some? then SortedAppends(old(accounts[j].transactions), record, 1)
                   else old(accounts[j].transactions)
    {
      everythingOk := true;
      if short.Some? {
        ReportShort(short.value, record);
      }
      if error.Some? {
        everythingOk := false;
      }
    }

    /** A short balance at participant `i`: the error names its account, every participant records the split, and the amount fields are fixed. */
    method ReportShort(i: nat, record: Record)
      requires WellFormed() && i < |users|
      modifies this`error, this`amountForUsers, this`amount, users`transactions, accounts`transactions
      ensures error == Some(ShortMessage(accounts[i].iban))
      ensures splitPaymentType == "equal" ==> amountForUsers.None? && amount == Some(total / |users| as real)
      ensures splitPaymentType != "equal" ==> amountForUsers == old(amountForUsers) && amount.None?
      ensures forall j :: 0 <= j < |users| ==>
                users[j].transactions == SortedAppends(old(users[j].transactions), record, Count(users, users[j], |users|))
      ensures forall j :: 0 <= j < |accounts| ==>
                accounts[j].transactions == SortedAppends(old(accounts[j].transactions), record, 1)
    {
      error := Some(ShortMessage(accounts[i].iban));
      AddToAll(record);
      if splitPaymentType == "equal" {
        amount := Some(total / |users| as real);
        amountForUsers := None;
      } else {
        amount := None;
      }
    }

    /** `checkAccounts` followed, when nothing failed, by the commit and the final amount fields. */
    method Finish(record: Record, short: Option<nat>, rejected: bool, ghost h0: seq<seq<Record>>,
                  ghost t0: seq<seq<Record>>, ghost b0: seq<real>, ghost d0: seq<real>)
      requires WellFormed() && (short.Some? ==> short.value < |users|) && RejectionWritten(h0, t0, record, rejected)
      requires BalancesAfter(b0, d0, false) && forall j :: 0 <= j < |d0| ==> j < |users| && d0[j] == Due(j)
      requires amountForUsers == Some(Shares()) && amount.None?
      requires error == (if rejected then Some(RejectedMessage) else None)
      modifies this`error, this`everythingOk, this`amountForUsers, this`amount, users`transactions,
               accounts`transactions, accounts`balance
      ensures error == OutcomeOf(rejected, short).error && everythingOk == OutcomeOf(rejected, short).Commits()
      ensures amountForUsers == OutcomeOf(rejected, short).amountForUsers && amount == OutcomeOf(rejected, short).amount
      ensures HistoriesSettled(h0, t0, record, rejected, short.Some?)
      ensures BalancesAfter(b0, d0, !rejected && short.None?)
    {
      CheckAgainst(record, short, rejected, h0, t0);
      CommitIfOk(record, rejected, short.Some?, h0, t0, b0, d0);
    }

    /** `checkAccounts` against the snapshots a rejection left: the split's fields as `OutcomeOf` gives them, and each history as `Checked`. */
    method CheckAgainst(record: Record, short: Option<nat>, rejected: bool, ghost h0: seq<seq<Record>>,
                        ghost t0: seq<seq<Record>>)
      requires WellFormed() && (short.Some? ==> short.value < |users|) && RejectionWritten(h0, t0, record, rejected)
      requires amountForUsers == Some(Shares()) && amount.None?
      requires error == (if rejected then Some(RejectedMessage) else None)
      modifies this`error, this`everythingOk, this`amountForUsers, this`amount, users`transactions, accounts`transactions
      ensures error == OutcomeOf(rejected, short).error && everythingOk == OutcomeOf(rejected, short).Commits()
      ensures short.Some? || rejected ==>
                amountForUsers == OutcomeOf(rejected, short).amountForUsers && amount == OutcomeOf(rejected, short).amount
      ensures amountForUsers == old(amountForUsers) || short.Some?
      ensures forall j :: 0 <= j < |users| ==>
                users[j].transactions
                == Checked(h0[j], if rejected then Repeat(record, Count(users, users[j], |users|)) else [], record,
                           Count(users, users[j], |users|), short.Some?)
      ensures forall j :: 0 <= j < |accounts| ==>
                accounts[j].transactions == Checked(t0[j], if rejected then [record] else [], record, 1, short.Some?)
    {
      CheckAccounts(record, short);
    }

    /**
     * The tail of `makeTransaction`: when nothing failed, the commit and the
     * final amount fields; otherwise nothing. Each history ends as
     * `HistoryAfter` of its snapshot.
     */
    method CommitIfOk(record: Record, rejected: bool, short: bool, ghost h0: seq<seq<Record>>, ghost t0: seq<seq<Record>>,
                      ghost b0: seq<real>, ghost d0: seq<real>)
      requires WellFormed() && everythingOk == (!rejected && !short) && (everythingOk ==> amountForUsers == Some(Shares()))
      requires BalancesAfter(b0, d0, false) && forall j :: 0 <= j < |d0| ==> j < |users| && d0[j] == Due(j)
      requires |h0| == |users| && |t0| == |accounts|
      requires forall j :: 0 <= j < |users| ==>
                 users[j].transactions
                 == Checked(h0[j], if rejected then Repeat(record, Count(users, users[j], |users|)) else [], record,
                            Count(users, users[j], |users|), short)
      requires forall j :: 0 <= j < |accounts| ==>
                 accounts[j].transactions == Checked(t0[j], if rejected then [record] else [], record, 1, short)
      modifies this`amountForUsers, this`amount, users`transactions, accounts`transactions, accounts`balance
      ensures HistoriesSettled(h0, t0, record, rejected, short)
      ensures BalancesAfter(b0, d0, everythingOk)
      ensures everythingOk && splitPaymentType == "equal" ==> amountForUsers.None? && amount == Some(total / |users| as real)
      ensures everythingOk && splitPaymentType != "equal" ==> amountForUsers == old(amountForUsers) && amount.None?
      ensures !everythingOk ==> amountForUsers == old(amountForUsers) && amount == old(amount)
    {
      if everythingOk {
        Commit(record);
        if splitPaymentType == "equal" {
          amount := Some(total / |users| as real);
          amountForUsers := None;
        } else {
          amount := None;
        }
      }
      forall j | 0 <= j < |users|
        ensures users[j].transactions == HistoryAfter(h0[j], record, Count(users, users[j], |users|), rejected, short)
      {
        SettledAfterCheck(h0[j], if rejected then Repeat(record, Count(users, users[j], |users|)) else [],
                          users[j].transactions, record, Count(users, users[j], |users|), rejected, short);
      }
      assert Repeat(record, 1) == [record];
      forall j | 0 <= j < |accounts|
        ensures accounts[j].transactions == HistoryAfter(t0[j], record, 1, rejected, short)
      {
        SettledAfterCheck(t0[j], if rejected then [record] else [], accounts[j].transactions, record, 1, rejected, short);
      }
    }


    /**
     * What settling leaves, against the state before it: the fields of
     * `Outcome`, the IBANs as involved accounts, each user's and account's
     * history as `HistoryAfter` gives it, and every balance debited by its
     * converted share exactly when the split commits.
     */
    twostate predicate SettledFrom(rejected: bool)
      requires WellFormed()
      reads this, users, accounts, bank
    {
      Settled(old(Snap()), rejected)
    }

    /** What settling reads of the state it starts from. */
    ghost function Snap(): (b: Before)
      requires WellFormed()
      reads this`involvedAccounts, users`transactions, accounts`transactions, accounts`balance, bank`exchangeRates
    {
      Before(UserHistories(|users|), AccountHistories(|accounts|), Balances(|accounts|), Dues(|accounts|), FirstShort(0),
             involvedAccounts)
    }

    /** The split settled from the state `b`, as `SettledFrom` describes. */
    ghost predicate Settled(b: Before, rejected: bool)
      requires WellFormed()
      reads this`error, this`everythingOk, this`amountForUsers, this`amount, this`involvedAccounts,
            users`transactions, accounts`transactions, accounts`balance
    {
      (b.short.Some? ==> b.short.value < |users|)
      && (var s := OutcomeOf(rejected, b.short);
          error == s.error && everythingOk == s.Commits() && amountForUsers == s.amountForUsers && amount == s.amount
          && involvedAccounts == b.involved + ibans
          && HistoriesSettled(b.histories, b.accountHistories, RecordOf(s), rejected, b.short.Some?)
          && BalancesAfter(b.balances, b.dues, s.Commits()))
    }

    /** The pending lists lose the split once per occurrence when `dropped`, and are as they were otherwise. */
    twostate predicate PendingDropped(dropped: bool)
      reads users
    {
      PendingAfter(old(PendingLists(|users|)), dropped)
    }

    // Settling runs against snapshots `h0`, `t0` and `a0` of the users'
    // histories, the accounts' histories and the pending lists taken when
    // it starts.

    /** The histories once the rejection step ran: the record once per occurrence, unsorted, when `rejected`. */
    ghost predicate RejectionWritten(h0: seq<seq<Record>>, t0: seq<seq<Record>>, record: Record, rejected: bool)
      requires WellFormed()
      reads users`transactions, accounts`transactions
    {
      |h0| == |users| && |t0| == |accounts|
      && (forall j :: 0 <= j < |users| ==>
            users[j].transactions == h0[j] + (if rejected then Repeat(record, Count(users, users[j], |users|)) else []))
      && (forall j :: 0 <= j < |accounts| ==> accounts[j].transactions == t0[j] + (if rejected then [record] else []))
    }

    /** The histories once the split settled, as `HistoryAfter` gives them. */
    ghost predicate HistoriesSettled(h0: seq<seq<Record>>, t0: seq<seq<Record>>, record: Record, rejected: bool,
                                     short: bool)
      requires WellFormed()
      reads users`transactions, accounts`transactions
    {
      |h0| == |users| && |t0| == |accounts|
      && (forall j :: 0 <= j < |users| ==>
            users[j].transactions == HistoryAfter(h0[j], record, Count(users, users[j], |users|), rejected, short))
      && (forall j :: 0 <= j < |accounts| ==> accounts[j].transactions == HistoryAfter(t0[j], record, 1, rejected, short))
    }

    /** The balances against the snapshots `b0` and `d0`: each debited by its converted share when `commits`. */
    ghost predicate BalancesAfter(b0: seq<real>, d0: seq<real>, commits: bool)
      reads accounts`balance
    {
      |b0| == |accounts| == |d0|
      && forall j :: 0 <= j < |accounts| ==> accounts[j].balance == b0[j] - (if commits then d0[j] else 0.0)
    }

    /** The pending lists against the snapshot `a0`: the split taken off once per occurrence when `dropped`. */
    ghost predicate PendingAfter(a0: seq<seq<object>>, dropped: bool)
      reads users`activeTransactions
    {
      |a0| == |users|
      && forall j :: 0 <= j < |users| ==>
           users[j].activeTransactions
           == if dropped then RemoveTimes(a0[j], this, Count(users, users[j], |users|)) else a0[j]
    }

    /**
     * The part of `makeTransaction` before `checkAccounts`: a rejection sets
     * the error, writes the record on every participant unsorted and takes
     * the split off the pending lists; then the IBANs become the involved
     * accounts and the per-user shares are filled in.
     */
    method Prepare(rejected: bool, record: Record, ghost h0: seq<seq<Record>>, ghost t0: seq<seq<Record>>,
                   ghost a0: seq<seq<object>>, ghost b0: seq<real>, ghost d0: seq<real>)
      requires Unsettled() && RejectionWritten(h0, t0, record, false) && PendingAfter(a0, false)
      requires BalancesAfter(b0, d0, false)
      modifies this`error, this`involvedAccounts, this`amountForUsers, users`transactions, users`activeTransactions,
               accounts`transactions
      ensures error == (if rejected then Some(RejectedMessage) else None)
      ensures involvedAccounts == old(involvedAccounts) + ibans
      ensures amountForUsers == Some(Shares())
      ensures RejectionWritten(h0, t0, record, rejected)
      ensures PendingAfter(a0, rejected)
      ensures BalancesAfter(b0, d0, false)
    {
      if rejected {
        error := Some(RejectedMessage);
        WriteRejection(record, h0, t0, a0);
      }
      involvedAccounts := involvedAccounts + ibans;
      if splitPaymentType == "equal" {
        assert amountForUsers.value + Repeat(total / |users| as real, |users|) == Shares();
        amountForUsers := Some(amountForUsers.value + Repeat(total / |users| as real, |users|));
      } else {
        amountForUsers := Some(requested);
      }
    }

    /** The rejection's records, against the snapshots: see `RecordRejection`. */
    method WriteRejection(record: Record, ghost h0: seq<seq<Record>>, ghost t0: seq<seq<Record>>, ghost a0: seq<seq<object>>)
      requires WellFormed() && RejectionWritten(h0, t0, record, false) && PendingAfter(a0, false)
      modifies users`transactions, users`activeTransactions, accounts`transactions
      ensures RejectionWritten(h0, t0, record, true) && PendingAfter(a0, true)
    {
      assert forall j :: 0 <= j < |users| ==> users[j].transactions == h0[j];
      assert forall j :: 0 <= j < |accounts| ==> accounts[j].transactions == t0[j];
      RecordRejection(record);
    }

    /**
     * `makeTransaction` once the split stopped waiting: a rejection is
     * recorded, then the split is settled. `b` and `a0` are the state and the
     * pending lists it starts from.
     */
    method Settle(ghost b: Before, ghost a0: seq<seq<object>>)
      requires Unsettled() && b == Snap() && a0 == PendingLists(|users|)
      modifies this`error, this`everythingOk, this`involvedAccounts, this`amountForUsers, this`amount,
               users`transactions, users`activeTransactions, accounts`transactions, accounts`balance
      ensures Settled(b, !old(everythingOk))
      ensures PendingAfter(a0, !old(everythingOk))
    {
      var rejected := !everythingOk;
      var short := FindShort();
      var record := RecordOf(OutcomeOf(rejected, short));
      SettleWith(rejected, short, record, b.histories, b.accountHistories, a0, b.balances, b.dues);
    }

    /** `Settle` against the snapshots, once the short participant and the record are known. */
    method SettleWith(rejected: bool, short: Option<nat>, record: Record, ghost h0: seq<seq<Record>>,
                      ghost t0: seq<seq<Record>>, ghost a0: seq<seq<object>>, ghost b0: seq<real>, ghost d0: seq<real>)
      requires Unsettled() && (short.Some? ==> short.value < |users|) && error == None
      requires RejectionWritten(h0, t0, record, false) && PendingAfter(a0, false) && BalancesAfter(b0, d0, false)
      requires forall j :: 0 <= j < |d0| ==> j < |users| && d0[j] == Due(j)
      modifies this`error, this`everythingOk, this`involvedAccounts, this`amountForUsers, this`amount,
               users`transactions, users`activeTransactions, accounts`transactions, accounts`balance
      ensures error == OutcomeOf(rejected, short).error && everythingOk == OutcomeOf(rejected, short).Commits()
      ensures amountForUsers == OutcomeOf(rejected, short).amountForUsers && amount == OutcomeOf(rejected, short).amount
      ensures involvedAccounts == old(involvedAccounts) + ibans
      ensures HistoriesSettled(h0, t0, record, rejected, short.Some?)
      ensures BalancesAfter(b0, d0, !rejected && short.None?)
      ensures PendingAfter(a0, rejected)
    {
      Prepare(rejected, record, h0, t0, a0, b0, d0);
      Finish(record, short, rejected, h0, t0, b0, d0);
    }

    /**
     * `makeTransaction`: while the split waits it only goes on every
     * participant's pending list; afterwards it is settled.
     */
    method MakeTransaction()
      requires Unsettled()
      modifies this`error, this`everythingOk, this`involvedAccounts, this`amountForUsers, this`amount,
               users`transactions, users`activeTransactions, accounts`transactions, accounts`balance
      ensures old(waiting) == 1 ==>
                unchanged(this) && unchanged(accounts)
                && (forall j :: 0 <= j < |users| ==> users[j].transactions == old(users[j].transactions))
                && forall j :: 0 <= j < |users| ==>
                     users[j].activeTransactions
                     == old(users[j].activeTransactions) + Repeat<object>(this, Count(users, users[j], |users|))
      ensures old(waiting) != 1 ==> SettledFrom(!old(everythingOk)) && PendingDropped(!old(everythingOk))
    {
      if waiting == 1 {
        Enqueue();
      } else {
        Settle(Snap(), PendingLists(|users|));
      }
    }

    // -------------------------------------------------------------------
    // Answers

    /** The first participant from `from` on with the given email. */
    function FirstHolder(email: string, from: nat): (r: Option<nat>)
      requires from <= |users|
      ensures r.Some? ==> from <= r.value < |users| && users[r.value].email == email
                          && forall j :: from <= j < r.value ==> users[j].email != email
      ensures r.None? ==> forall j :: from <= j < |users| ==> users[j].email != email
      decreases |users| - from
    {
      if from == |users| then None
      else if users[from].email == email then Some(from)
      else FirstHolder(email, from + 1)
    }

    /** The search of `approveUser`: the first participant with the email, which exists for a participating email. */
    method FindParticipant(email: string) returns (i: nat)
      requires email in Emails()
      ensures FirstHolder(email, 0) == Some(i)
    {
      ParticipantHolds(email);
      i := 0;
      while i < |users| && users[i].email != email
        invariant i <= |users| && FirstHolder(email, i) == FirstHolder(email, 0)
        decreases |users| - i
      {
        i := i + 1;
      }
    }

    /** A participating email is held by some participant. */
    lemma ParticipantHolds(email: string)
      requires email in Emails()
      ensures FirstHolder(email, 0).Some?
    {
      var w :| 0 <= w < |users| && users[w].email == email;
    }

    /** Every participant has approved. */
    predicate AllApproved()
      reads this
    {
      forall e :: e in approvals ==> approvals[e]
    }

    /**
     * Participant `j`'s pending list `a` once `email` approved: the first
     * participant with that email takes the split off its list once.
     */
    function AfterApproval(a: seq<object>, j: nat, email: string): seq<object>
      requires j < |users|
    {
      match FirstHolder(email, 0)
      case Some(h) => if users[j] == users[h] then RemoveFirst(a, this) else a
      case None => a
    }

    /** The acceptance itself: the approval is marked and the first holder of the email drops the split once. */
    method MarkApproval(email: string)
      requires Pending()
      modifies this`approvals, users`activeTransactions
      ensures approvals == Answered(old(approvals), email, true)
      ensures forall j :: 0 <= j < |users| ==>
                users[j].activeTransactions == AfterApproval(old(users[j].activeTransactions), j, email)
    {
      if email in approvals {
        approvals := approvals[email := true];
        var i := FindParticipant(email);
        users[i].activeTransactions := RemoveFirst(users[i].activeTransactions, this);
      } else {
        HolderParticipates(email);
      }
    }

    /** An email some participant holds is a participating email. */
    lemma HolderParticipates(email: string)
      ensures FirstHolder(email, 0).Some? ==> email in Emails()
    {
      if FirstHolder(email, 0).Some? {
        var h := FirstHolder(email, 0).value;
        assert users[h].email in Emails();
      }
    }

    /** Participant `i`'s user takes the split off its pending list once. */
    method DropOne(i: nat)
      requires i < |users|
      modifies users`activeTransactions
      ensures forall j :: 0 <= j < |users| ==>
                users[j].activeTransactions
                == if users[j] == users[i] then RemoveFirst(old(users[j].activeTransactions), this)
                   else old(users[j].activeTransactions)
    {
      users[i].activeTransactions := RemoveFirst(users[i].activeTransactions, this);
    }

    /** The removal loop of `allUsersApproved` after the first `i` participants. */
    ghost predicate DroppedUpTo(i: nat, a0: seq<seq<object>>)
      requires i <= |users|
      reads users`activeTransactions
    {
      |a0| == |users|
      && forall j :: 0 <= j < |users| ==> users[j].activeTransactions == RemoveTimes(a0[j], this, Count(users, users[j], i))
    }

    method DropStep(i: nat, ghost a0: seq<seq<object>>)
      requires i < |users| && DroppedUpTo(i, a0)
      modifies users`activeTransactions
      ensures DroppedUpTo(i + 1, a0)
    {
      DropOne(i);
      forall j | 0 <= j < |users|
        ensures users[j].activeTransactions == RemoveTimes(a0[j], this, Count(users, users[j], i + 1))
      {
        RemovedStep(a0[j], old(users[j].activeTransactions), this, users, i, j);
      }
    }

    method DropFrom(i: nat, ghost a0: seq<seq<object>>)
      requires i <= |users| && DroppedUpTo(i, a0)
      modifies users`activeTransactions
      ensures DroppedUpTo(|users|, a0)
    {
      var k := i;
      while k < |users|
        invariant i <= k <= |users|
        invariant DroppedUpTo(k, a0)
      {
        DropStep(k, a0);
        k := k + 1;
      }
      assert k == |users|;
    }

    /** The removal of `allUsersApproved`: every participant drops the split once per occurrence. */
    method RemoveFromAll()
      modifies users`activeTransactions
      ensures PendingDropped(true)
    {
      DropFrom(0, PendingLists(|users|));
    }

    // What `Settle` reads of the state before it, unchanged when the fields it reads are.

    twostate lemma UserHistoriesKept(n: nat)
      requires n <= |users|
      requires forall j :: 0 <= j < |users| ==> old(users[j].transactions) == users[j].transactions
      ensures old(UserHistories(n)) == UserHistories(n)
    {
      if n > 0 {
        UserHistoriesKept(n - 1);
      }
    }

    twostate lemma AccountHistoriesKept(n: nat)
      requires n <= |accounts|
      requires forall j :: 0 <= j < |accounts| ==> old(accounts[j].transactions) == accounts[j].transactions
      ensures old(AccountHistories(n)) == AccountHistories(n)
    {
      if n > 0 {
        AccountHistoriesKept(n - 1);
      }
    }

    twostate lemma BalancesKept(n: nat)
      requires n <= |accounts|
      requires forall j :: 0 <= j < |accounts| ==> old(accounts[j].balance) == accounts[j].balance
      ensures old(Balances(n)) == Balances(n)
    {
      if n > 0 {
        BalancesKept(n - 1);
      }
    }

    twostate lemma DuesKept(n: nat)
      requires WellFormed() && n <= |users| && old(bank.exchangeRates) == bank.exchangeRates
      ensures old(Dues(n)) == Dues(n)
    {
      if n > 0 {
        DuesKept(n - 1);
      }
    }

    twostate lemma FirstShortKept(from: nat)
      requires WellFormed() && from <= |users| && old(bank.exchangeRates) == bank.exchangeRates
      requires forall j :: 0 <= j < |accounts| ==> old(accounts[j].balance) == accounts[j].balance
      ensures old(FirstShort(from)) == FirstShort(from)
      decreases |users| - from
    {
      if from < |users| {
        assert old(Due(from)) == Due(from);
        FirstShortKept(from + 1);
      }
    }

    twostate lemma PendingListsKept(n: nat)
      requires n <= |users|
      requires forall j :: 0 <= j < |users| ==> old(users[j].activeTransactions) == users[j].activeTransactions
      ensures old(PendingLists(n)) == PendingLists(n)
    {
      if n > 0 {
        PendingListsKept(n - 1);
      }
    }

    twostate lemma SnapKept()
      requires WellFormed() && old(involvedAccounts) == involvedAccounts && old(bank.exchangeRates) == bank.exchangeRates
      requires forall j :: 0 <= j < |users| ==> old(users[j].transactions) == users[j].transactions
      requires forall j :: 0 <= j < |accounts| ==> old(accounts[j].transactions) == accounts[j].transactions
      requires forall j :: 0 <= j < |accounts| ==> old(accounts[j].balance) == accounts[j].balance
      ensures old(Snap()) == Snap()
    {
      UserHistoriesKept(|users|);
      AccountHistoriesKept(|accounts|);
      BalancesKept(|accounts|);
      DuesKept(|accounts|);
      FirstShortKept(0);
    }

    /**
     * `allUsersApproved` having found every approval in: the split leaves
     * every list and settles as accepted, from the state `b` and the pending
     * lists `a0`.
     */
    method Conclude(ghost b: Before, ghost a0: seq<seq<object>>)
      requires Pending() && b == Snap() && a0 == PendingLists(|users|)
      modifies this`waiting, this`error, this`everythingOk, this`involvedAccounts, this`amountForUsers, this`amount,
               users`transactions, users`activeTransactions, accounts`transactions, accounts`balance
      ensures waiting == 0
      ensures Settled(b, false)
      ensures PendingAfter(a0, true)
      ensures approvals == old(approvals)
    {
      Release(a0);
      SettleAccepted(b);
    }

    /** The removal of `allUsersApproved` and the end of the wait. */
    method Release(ghost a0: seq<seq<object>>)
      requires a0 == PendingLists(|users|)
      modifies this`waiting, users`activeTransactions
      ensures waiting == 0
      ensures PendingAfter(a0, true)
      ensures approvals == old(approvals)
    {
      DropFrom(0, a0);
      waiting := 0;
    }

    /** The settlement of an accepted split, which leaves the pending lists as they are. */
    method SettleAccepted(ghost b: Before)
      requires Unsettled() && waiting == 0 && everythingOk && b == Snap()
      modifies this`error, this`everythingOk, this`involvedAccounts, this`amountForUsers, this`amount,
               users`transactions, users`activeTransactions, accounts`transactions, accounts`balance
      ensures Settled(b, false)
      ensures forall j :: 0 <= j < |users| ==> users[j].activeTransactions == old(users[j].activeTransactions)
      ensures approvals == old(approvals)
    {
      Settle(b, PendingLists(|users|));
    }

    // -------------------------------------------------------------------
    // approveUser and rejectUser

    /**
     * What `approveUser(email)` does to a pending split that had the
     * approvals `m`, the state `b` and the pending lists `a0`: a
     * participating email's approval is marked. Once every approval is in,
     * the split has left every pending list and settled as accepted from
     * `b`; until then it still waits, with only the approving user's pending
     * list shorter by one copy of the split.
     */
    ghost predicate ApprovedFrom(email: string, m: map<string, bool>, b: Before, a0: seq<seq<object>>)
      requires WellFormed()
      reads this, users, accounts, bank
    {
      |a0| == |users| && approvals == Answered(m, email, true)
      && if AllApproved() then
           waiting == 0 && Settled(b, false)
           && forall j :: 0 <= j < |users| ==>
                users[j].activeTransactions
                == RemoveTimes(AfterApproval(a0[j], j, email), this, Count(users, users[j], |users|))
         else
           Pending() && Snap() == b
           && forall j :: 0 <= j < |users| ==> users[j].activeTransactions == AfterApproval(a0[j], j, email)
    }

    /** `approveUser`: the approval is marked, and the split concludes when it was the last one missing. */
    method ApproveUser(email: string)
      requires Pending()
      modifies this`approvals, this`waiting, this`error, this`everythingOk, this`involvedAccounts,
               this`amountForUsers, this`amount, users`transactions, users`activeTransactions,
               accounts`transactions, accounts`balance
      ensures ApprovedFrom(email, old(approvals), old(Snap()), old(PendingLists(|users|)))
    {
      Approve(email, approvals, Snap(), PendingLists(|users|));
    }

    /** `approveUser` from the approvals `m`, the state `b` and the pending lists `a0`. */
    method Approve(email: string, ghost m: map<string, bool>, ghost b: Before, ghost a0: seq<seq<object>>)
      requires Pending() && m == approvals && b == Snap() && a0 == PendingLists(|users|)
      modifies this`approvals, this`waiting, this`error, this`everythingOk, this`involvedAccounts,
               this`amountForUsers, this`amount, users`transactions, users`activeTransactions,
               accounts`transactions, accounts`balance
      ensures ApprovedFrom(email, m, b, a0)
    {
      MarkApproval(email);
      if AllApproved() {
        Conclude(b, PendingLists(|users|));
      }
    }

    /**
     * What `rejectUser(email)` does to a pending split that had the
     * approvals `m`, the state `b` and the pending lists `a0`: a
     * participating email's approval is withdrawn and the split settles at
     * once as rejected from `b`, leaving every pending list; any other email
     * changes nothing.
     */
    ghost predicate RejectedFrom(email: string, m: map<string, bool>, b: Before, a0: seq<seq<object>>)
      requires WellFormed()
      reads this, users, accounts, bank
    {
      |a0| == |users| && approvals == Answered(m, email, false)
      && if email in m then
           waiting == 0 && Settled(b, true) && PendingAfter(a0, true)
         else
           Pending() && Snap() == b && forall j :: 0 <= j < |users| ==> users[j].activeTransactions == a0[j]
    }

    /** `rejectUser`: the split stops waiting as rejected, and `makeTransaction` settles it. */
    method RejectUser(email: string)
      requires Pending()
      modifies this`approvals, this`waiting, this`error, this`everythingOk, this`involvedAccounts,
               this`amountForUsers, this`amount, users`transactions, users`activeTransactions,
               accounts`transactions, accounts`balance
      ensures RejectedFrom(email, old(approvals), old(Snap()), old(PendingLists(|users|)))
    {
      Refuse(email, approvals, Snap(), PendingLists(|users|));
    }

    /** `rejectUser` from the approvals `m`, the state `b` and the pending lists `a0`. */
    method Refuse(email: string, ghost m: map<string, bool>, ghost b: Before, ghost a0: seq<seq<object>>)
      requires Pending() && m == approvals && b == Snap() && a0 == PendingLists(|users|)
      modifies this`approvals, this`waiting, this`error, this`everythingOk, this`involvedAccounts,
               this`amountForUsers, this`amount, users`transactions, users`activeTransactions,
               accounts`transactions, accounts`balance
      ensures RejectedFrom(email, m, b, a0)
    {
      if email in approvals {
        Reject(email, b, a0);
      }
    }

    /** `rejectUser` for a participating email, from the state `b` and the pending lists `a0`. */
    method Reject(email: string, ghost b: Before, ghost a0: seq<seq<object>>)
      requires Pending() && email in approvals && b == Snap() && a0 == PendingLists(|users|)
      modifies this`approvals, this`waiting, this`error, this`everythingOk, this`involvedAccounts,
               this`amountForUsers, this`amount, users`transactions, users`activeTransactions,
               accounts`transactions, accounts`balance
      ensures approvals == old(approvals)[email := false] && waiting == 0
      ensures Settled(b, true)
      ensures PendingAfter(a0, true)
    {
      Withhold(email);
      SettleRejected(b, a0);
    }

    /** The settlement of a rejected split, which leaves the approvals and the wait as they are. */
    method SettleRejected(ghost b: Before, ghost a0: seq<seq<object>>)
      requires Unsettled() && !everythingOk && b == Snap() && a0 == PendingLists(|users|)
      modifies this`error, this`everythingOk, this`involvedAccounts, this`amountForUsers, this`amount,
               users`transactions, users`activeTransactions, accounts`transactions, accounts`balance
      ensures Settled(b, true)
      ensures PendingAfter(a0, true)
      ensures approvals == old(approvals) && waiting == old(waiting)
    {
      Settle(b, a0);
    }

    /** The writes of `rejectUser` before `makeTransaction`: the approval withdrawn, the wait over, the split failed. */
    method Withhold(email: string)
      requires Pending() && email in approvals
      modifies this`approvals, this`everythingOk, this`waiting
      ensures approvals == old(approvals)[email := false] && !everythingOk && waiting == 0
      ensures Unsettled()
    {
      approvals, everythingOk, waiting := approvals[email := false], false, 0;
    }
  }
}
