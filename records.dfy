/**
 * What the transaction pipelines leave behind: history records, output
 * entries, and the stable by-timestamp sort the split payment applies to
 * histories.
 *
 * The source appends its (mutable) transaction objects to histories and may
 * set further fields after appending. A record here is the value of that
 * object once the operation that created it has finished.
 */
module Records {
  import opened Wrappers

  /** A "<amount> <currency>" text as a transfer records it. */
  datatype Money = Money(amount: real, currency: string)

  /** One entry of a user's or an account's history, by the class that produced it. */
  datatype Record =
    | AccountCreation(timestamp: int, description: string)
    | CardCreation(timestamp: int, description: string, account: string, card: string, cardHolder: string)
    | CardDestruction(timestamp: int, description: string, account: string, card: string, cardHolder: string)
    | CardStatusCheck(timestamp: int, description: string)
      /** A card payment; the description stays null when the payment stops before any message is set. */
    | CardPayment(timestamp: int, maybeDescription: Option<string>, amount: Option<real>, commerciant: Option<string>)
    | Transfer(timestamp: int, description: string, senderIBAN: Option<string>, receiverIBAN: Option<string>,
               sent: Option<Money>, transferType: Option<string>)
    | MerchantTransfer(timestamp: int, description: string, senderIBAN: Option<string>, receiverIBAN: Option<string>,
                       sent: Option<Money>, transferType: Option<string>)
    | CashWithdrawal(timestamp: int, description: string)
    | SavingsWithdrawal(timestamp: int, description: string, classicAccountIBAN: Option<string>,
                        savingsAccountIBAN: Option<string>, amount: Option<real>)
    | PlanUpgrade(timestamp: int, description: string, accountIBAN: Option<string>, newPlanType: Option<string>)
      /** The upgrade object a payment appends when the silver-to-gold threshold is reached; it is never executed. */
    | AutomaticUpgrade(timestamp: int, upgradedIBAN: string, targetPlan: string)
    | InterestIncome(timestamp: int, description: string, income: real, currency: string)
      /** "Interest rate of the account changed to <rate>". */
    | InterestChange(timestamp: int, rate: real)
    | AccountDeletion(timestamp: int, description: string)
      /** "Split payment of <total> <currency>" of the consensual split. */
    | SplitPayment(timestamp: int, total: real, currency: string, involvedAccounts: seq<string>, error: Option<string>,
                   splitPaymentType: string, amountForUsers: Option<seq<real>>, amount: Option<real>)
      /** "Split payment of <total> <currency>" of the immediate split. */
    | ImmediateSplitPayment(timestamp: int, total: real, share: real, currency: string, involvedAccounts: seq<string>,
                            error: Option<string>)

  /**
   * A successful card payment as the account's merchant-payment list holds it;
   * it is the same object as the payment's history record.
   */
  datatype Payment = Payment(timestamp: int, amount: real, commerciant: string)
  {
    function AsRecord(): Record {
      CardPayment(timestamp, Some("Card payment"), Some(amount), Some(commerciant))
    }
  }

  /** One merchant's row in a spendings report. */
  datatype MerchantTotal = MerchantTotal(commerciant: string, total: real)

  /** One element of the command output list. */
  datatype OutputEntry =
      /** A node `{command, timestamp, output: {<key>: message}}`, with key "description", "error" or "success". */
    | Notice(command: string, timestamp: int, key: string, message: string)
    | Report(command: string, timestamp: int, balance: real, currency: string, iban: string,
             transactions: seq<Record>, commerciants: Option<seq<MerchantTotal>>)

  /** The command output list. */
  class Output {
    var entries: seq<OutputEntry>

    constructor ()
      ensures entries == []
    {
      entries := [];
    }

    method Add(e: OutputEntry)
      modifies this
      ensures entries == old(entries) + [e]
    {
      entries := entries + [e];
    }

    /** The shared error printer: a "description" notice. */
    method PrintError(command: string, message: string, timestamp: int)
      modifies this
      ensures entries == old(entries) + [Notice(command, timestamp, "description", message)]
    {
      Add(Notice(command, timestamp, "description", message));
    }
  }

  // ---------------------------------------------------------------------
  // Sequence edits the pipelines use

  /** `list.add(i, x)`: `x` inserted before position `i`. */
  function InsertAt<T>(s: seq<T>, i: nat, x: T): (r: seq<T>)
    requires i <= |s|
    ensures |r| == |s| + 1 && r[i] == x
    ensures r[..i] == s[..i] && r[i + 1..] == s[i..]
  {
    s[..i] + [x] + s[i..]
  }

  /** `list.remove(x)`: the first occurrence of `x` taken out, if any. */
  function RemoveFirst<T(==)>(s: seq<T>, x: T): (r: seq<T>)
    ensures x in s ==> |r| == |s| - 1 && multiset(r) == multiset(s) - multiset{x}
    ensures x !in s ==> r == s
  {
    if s == [] then []
    else if s[0] == x then
      assert s == [s[0]] + s[1..];
      s[1..]
    else
      assert s == [s[0]] + s[1..];
      [s[0]] + RemoveFirst(s[1..], x)
  }

  /** `n` copies of `x`. */
  function Repeat<T>(x: T, n: nat): (r: seq<T>)
    ensures |r| == n && forall i :: 0 <= i < n ==> r[i] == x
  {
    if n == 0 then [] else Repeat(x, n - 1) + [x]
  }

  // ---------------------------------------------------------------------
  // The stable sort by timestamp

  ghost predicate Sorted(s: seq<Record>) {
    forall i, j :: 0 <= i < j < |s| ==> s[i].timestamp <= s[j].timestamp
  }

  /** The records of `s` whose timestamp is `t`, in their order in `s`. */
  function WithTimestamp(s: seq<Record>, t: int): seq<Record> {
    if s == [] then []
    else WithTimestamp(s[..|s| - 1], t) + (if s[|s| - 1].timestamp == t then [s[|s| - 1]] else [])
  }

  /** `r` placed after every record whose timestamp is at most its own, scanning from the back. */
  function Insert(s: seq<Record>, r: Record): seq<Record> {
    if s == [] then [r]
    else if s[|s| - 1].timestamp <= r.timestamp then s + [r]
    else Insert(s[..|s| - 1], r) + [s[|s| - 1]]
  }

  /** `list.sort(comparingInt(getTimestamp))`, a stable sort, written as insertion sort. */
  function Sort(s: seq<Record>): seq<Record> {
    if s == [] then [] else Insert(Sort(s[..|s| - 1]), s[|s| - 1])
  }

  lemma {:induction false} InsertMultiset(s: seq<Record>, r: Record)
    ensures multiset(Insert(s, r)) == multiset(s) + multiset{r}
    ensures |Insert(s, r)| == |s| + 1
  {
    if s != [] && s[|s| - 1].timestamp > r.timestamp {
      assert s == s[..|s| - 1] + [s[|s| - 1]];
      InsertMultiset(s[..|s| - 1], r);
    }
  }

  lemma {:induction false} InsertSorted(s: seq<Record>, r: Record)
    requires Sorted(s)
    ensures Sorted(Insert(s, r))
  {
    if s != [] && s[|s| - 1].timestamp > r.timestamp {
      var init, last := s[..|s| - 1], s[|s| - 1];
      assert s == init + [last];
      InsertSorted(init, r);
      InsertMultiset(init, r);
      var ins := Insert(init, r);
      forall i | 0 <= i < |ins| ensures ins[i].timestamp <= last.timestamp {
        var x := ins[i];
        assert x in multiset(ins);
        assert x in multiset(init) || x == r;
        if x != r {
          var k :| 0 <= k < |init| && init[k] == x;
          assert s[k] == x;
        }
      }
    }
  }

  lemma {:induction false} InsertWithTimestamp(s: seq<Record>, r: Record, t: int)
    ensures WithTimestamp(Insert(s, r), t) == WithTimestamp(s, t) + (if r.timestamp == t then [r] else [])
  {
    if s == [] {
      assert [r][..0] == [];
    } else if s[|s| - 1].timestamp <= r.timestamp {
      assert (s + [r])[..|s|] == s;
    } else {
      InsertWithTimestamp(s[..|s| - 1], r, t);
      InsertBeforeLast(s, r, t);
    }
  }

  /** Inserting before the last record: the last record's match stays at the end. */
  lemma InsertBeforeLast(s: seq<Record>, r: Record, t: int)
    requires s != [] && s[|s| - 1].timestamp > r.timestamp
    requires WithTimestamp(Insert(s[..|s| - 1], r), t)
             == WithTimestamp(s[..|s| - 1], t) + (if r.timestamp == t then [r] else [])
    ensures WithTimestamp(Insert(s, r), t) == WithTimestamp(s, t) + (if r.timestamp == t then [r] else [])
  {
    var init, last := s[..|s| - 1], s[|s| - 1];
    var ins, w := Insert(init, r), WithTimestamp(init, t);
    assert Insert(s, r) == ins + [last];
    assert (ins + [last])[..|ins|] == ins;
    // at most one of `r` and `last` carries the timestamp `t`
    if r.timestamp == t {
      assert WithTimestamp(s, t) == w;
      assert WithTimestamp(ins + [last], t) == WithTimestamp(ins, t);
    } else if last.timestamp == t {
      assert WithTimestamp(s, t) == w + [last];
      assert WithTimestamp(ins + [last], t) == WithTimestamp(ins, t) + [last];
    } else {
      assert WithTimestamp(s, t) == w;
      assert WithTimestamp(ins + [last], t) == WithTimestamp(ins, t);
    }
  }

  /** The result is sorted, holds the same records, and keeps the order of records with equal timestamps. */
  lemma {:induction false} SortFacts(s: seq<Record>)
    ensures Sorted(Sort(s))
    ensures multiset(Sort(s)) == multiset(s)
    ensures |Sort(s)| == |s|
    ensures forall t :: WithTimestamp(Sort(s), t) == WithTimestamp(s, t)
  {
    if s != [] {
      var init, last := s[..|s| - 1], s[|s| - 1];
      assert s == init + [last];
      SortFacts(init);
      InsertSorted(Sort(init), last);
      InsertMultiset(Sort(init), last);
      forall t ensures WithTimestamp(Sort(s), t) == WithTimestamp(s, t) {
        InsertWithTimestamp(Sort(init), last, t);
      }
    }
  }

  /** Sorting a sorted history changes nothing. */
  lemma {:induction false} SortOfSorted(s: seq<Record>)
    requires Sorted(s)
    ensures Sort(s) == s
  {
    if s != [] {
      var init := s[..|s| - 1];
      assert s == init + [s[|s| - 1]];
      SortOfSorted(init);
    }
  }

  /** Sorting after each append gives what one sort at the end gives. */
  lemma {:induction false} ResortAppend(x: seq<Record>, ys: seq<Record>)
    ensures Sort(Sort(x) + ys) == Sort(x + ys)
  {
    if ys == [] {
      assert Sort(x) + ys == Sort(x) && x + ys == x;
      SortFacts(x);
      SortOfSorted(Sort(x));
    } else {
      var init, last := ys[..|ys| - 1], ys[|ys| - 1];
      ResortAppend(x, init);
      assert (Sort(x) + ys)[..|Sort(x) + ys| - 1] == Sort(x) + init;
      assert (x + ys)[..|x + ys| - 1] == x + init;
    }
  }

  /** One more sorted append of `r` to a history that was built by sorted appends of `r`. */
  lemma SortedAppendAgain(h: seq<Record>, r: Record, k: nat)
    ensures Sort(Sort(h + Repeat(r, k)) + [r]) == Sort(h + Repeat(r, k + 1))
  {
    ResortAppend(h + Repeat(r, k), [r]);
    assert h + Repeat(r, k) + [r] == h + Repeat(r, k + 1);
  }
}
