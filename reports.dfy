/**
 * The account report (`ReportTransaction`): the history records of an
 * account whose timestamps fall inside a window, or, for the spendings
 * report, the account's merchant payments inside the window together with
 * the total paid to each merchant, merchants in ascending name order.
 *
 * The per-merchant totals live in a `TreeMap` keyed by merchant name; here
 * that map is a sequence of entries in strictly ascending name order, with
 * the map's `getOrDefault` and `put`.
 */
module Reports {
  import opened Wrappers
  import opened Records
  import opened Ledger

  const NotFound := "Account not found"

  // ---------------------------------------------------------------------
  // The order of merchant names

  /** `a.compareTo(b) < 0`: `a` is a proper prefix of `b`, or is smaller at the first character where they differ. */
  predicate Below(a: string, b: string)
    ensures Below(a, b) ==> |b| > 0
    ensures |a| < |b| && a == b[..|a|] ==> Below(a, b)
  {
    |b| > 0 && (|a| == 0 || a[0] < b[0] || (a[0] == b[0] && Below(a[1..], b[1..])))
  }

  lemma {:induction false} BelowIrreflexive(a: string)
    ensures !Below(a, a)
  {
    if |a| > 0 {
      BelowIrreflexive(a[1..]);
    }
  }

  lemma {:induction false} BelowTransitive(a: string, b: string, c: string)
    requires Below(a, b) && Below(b, c)
    ensures Below(a, c)
  {
    if |a| > 0 && a[0] == b[0] && b[0] == c[0] {
      BelowTransitive(a[1..], b[1..], c[1..]);
    }
  }

  /** Two different names are ordered one way or the other. */
  lemma {:induction false} BelowTotal(a: string, b: string)
    ensures a == b || Below(a, b) || Below(b, a)
  {
    if |a| > 0 && |b| > 0 && a[0] == b[0] {
      BelowTotal(a[1..], b[1..]);
      if a[1..] == b[1..] {
        assert a == [a[0]] + a[1..] && b == [b[0]] + b[1..];
      }
    }
  }

  lemma BelowAsymmetric(a: string, b: string)
    requires Below(a, b)
    ensures !Below(b, a)
  {
    if Below(b, a) {
      BelowTransitive(a, b, a);
      BelowIrreflexive(a);
    }
  }

  // ---------------------------------------------------------------------
  // The sorted map of merchant totals

  /** Each entry's name is below the next one's, so the names ascend strictly. */
  predicate Ascending(m: seq<MerchantTotal>) {
    |m| < 2 || (Below(m[0].commerciant, m[1].commerciant) && Ascending(m[1..]))
  }

  /** The names the map holds. */
  function Names(m: seq<MerchantTotal>): set<string> {
    if m == [] then {} else {m[0].commerciant} + Names(m[1..])
  }

  /** `getOrDefault(c, 0.0)`: the total stored for `c`, or zero without an entry. */
  function Get(m: seq<MerchantTotal>, c: string): (r: real)
    ensures r != 0.0 ==> c in Names(m)
  {
    if m == [] then 0.0 else if m[0].commerciant == c then m[0].total else Get(m[1..], c)
  }

  /** A name without an entry has the default total. */
  lemma {:induction false} GetAbsent(m: seq<MerchantTotal>, c: string)
    requires c !in Names(m)
    ensures Get(m, c) == 0.0
  {
    if m != [] {
      GetAbsent(m[1..], c);
    }
  }

  /** `put(c, v)`: the entry for `c` holds `v`, at its place in name order; every other entry stays. */
  function Put(m: seq<MerchantTotal>, c: string, v: real): (r: seq<MerchantTotal>)
    ensures Names(r) == Names(m) + {c}
    ensures |r| == |m| || |r| == |m| + 1
  {
    if m == [] then [MerchantTotal(c, v)]
    else if m[0].commerciant == c then [MerchantTotal(c, v)] + m[1..]
    else if Below(c, m[0].commerciant) then [MerchantTotal(c, v)] + m
    else [m[0]] + Put(m[1..], c, v)
  }

  /** `put` keeps the map ascending and adds `c` to its names; the first name is `c` or the old first one. */
  lemma {:induction false} PutKeepsOrder(m: seq<MerchantTotal>, c: string, v: real)
    requires Ascending(m)
    ensures var r := Put(m, c, v);
            Ascending(r) && r != [] && Names(r) == Names(m) + {c}
            && (r[0].commerciant == c || (m != [] && r[0].commerciant == m[0].commerciant))
  {
    var r := Put(m, c, v);
    if m == [] {
    } else if m[0].commerciant == c {
      assert r[1..] == m[1..];
    } else if Below(c, m[0].commerciant) {
      assert r[1..] == m;
    } else {
      BelowTotal(c, m[0].commerciant);
      PutKeepsOrder(m[1..], c, v);
      assert r[1..] == Put(m[1..], c, v);
    }
  }

  /** After `put(c, v)`, `getOrDefault` finds `v` for `c` and what it found before for every other name. */
  lemma {:induction false} PutGet(m: seq<MerchantTotal>, c: string, v: real, d: string)
    ensures Get(Put(m, c, v), d) == if d == c then v else Get(m, d)
  {
    if m != [] && m[0].commerciant != c && !Below(c, m[0].commerciant) {
      PutGet(m[1..], c, v, d);
    }
  }

  /** In an ascending map every name is below every later one. */
  lemma {:induction false} AscendingPairs(m: seq<MerchantTotal>, i: nat, j: nat)
    requires Ascending(m) && i < j < |m|
    ensures Below(m[i].commerciant, m[j].commerciant)
  {
    assert m[1..][j - 1] == m[j];
    if i > 0 {
      assert m[1..][i - 1] == m[i];
      AscendingPairs(m[1..], i - 1, j - 1);
    } else if j > 1 {
      AscendingPairs(m[1..], 0, j - 1);
      BelowTransitive(m[0].commerciant, m[1].commerciant, m[j].commerciant);
    }
  }

  /** In an ascending map each entry is the one `getOrDefault` finds for its name. */
  lemma {:induction false} GetEntry(m: seq<MerchantTotal>, i: nat)
    requires Ascending(m) && i < |m|
    ensures Get(m, m[i].commerciant) == m[i].total
  {
    if i > 0 {
      AscendingPairs(m, 0, i);
      BelowIrreflexive(m[i].commerciant);
      assert m[1..][i - 1] == m[i];
      GetEntry(m[1..], i - 1);
    }
  }

  // ---------------------------------------------------------------------
  // The window

  predicate InWindow(t: int, start: int, end: int) {
    start <= t <= end
  }

  /** The history records inside the window, in history order. */
  function Window(h: seq<Record>, start: int, end: int): seq<Record> {
    if h == [] then []
    else Window(h[..|h| - 1], start, end)
         + if InWindow(h[|h| - 1].timestamp, start, end) then [h[|h| - 1]] else []
  }

  /** The merchant payments inside the window, in payment order. */
  function PaymentsIn(ps: seq<Payment>, start: int, end: int): seq<Payment> {
    if ps == [] then []
    else PaymentsIn(ps[..|ps| - 1], start, end)
         + if InWindow(ps[|ps| - 1].timestamp, start, end) then [ps[|ps| - 1]] else []
  }

  /** The payments as the report lists them: their history records. */
  function PaymentRecords(ps: seq<Payment>): seq<Record> {
    if ps == [] then [] else PaymentRecords(ps[..|ps| - 1]) + [ps[|ps| - 1].AsRecord()]
  }

  /** Each listed payment is the history record of the payment in the same place. */
  lemma {:induction false} PaymentRecordsAt(ps: seq<Payment>, i: nat)
    requires i < |ps|
    ensures |PaymentRecords(ps)| == |ps| && PaymentRecords(ps)[i] == ps[i].AsRecord()
  {
    if i < |ps| - 1 {
      PaymentRecordsAt(ps[..|ps| - 1], i);
    } else if |ps| > 1 {
      PaymentRecordsAt(ps[..|ps| - 1], 0);
    }
  }

  /** What the payments `ps` paid to the merchant `c`, in order. */
  function SumFor(ps: seq<Payment>, c: string): real {
    if ps == [] then 0.0
    else SumFor(ps[..|ps| - 1], c) + if ps[|ps| - 1].commerciant == c then ps[|ps| - 1].amount else 0.0
  }

  /** The merchant map after the payments `ps`, each adding its amount to its merchant's total. */
  function Totals(ps: seq<Payment>): seq<MerchantTotal> {
    if ps == [] then []
    else
      var m := Totals(ps[..|ps| - 1]);
      var p := ps[|ps| - 1];
      Put(m, p.commerciant, Get(m, p.commerciant) + p.amount)
  }

  // Facts about the window and the totals

  /** The window of a history split in two is the window of the first part followed by that of the second. */
  lemma {:induction false} WindowAppend(a: seq<Record>, b: seq<Record>, start: int, end: int)
    ensures Window(a + b, start, end) == Window(a, start, end) + Window(b, start, end)
  {
    if b != [] {
      assert (a + b)[..|a + b| - 1] == a + b[..|b| - 1];
      WindowAppend(a, b[..|b| - 1], start, end);
    } else {
      assert a + b == a;
    }
  }

  /** A record is listed exactly when it is in the history and inside the window. */
  lemma {:induction false} WindowExact(h: seq<Record>, start: int, end: int, r: Record)
    ensures r in Window(h, start, end) <==> r in h && InWindow(r.timestamp, start, end)
  {
    if h != [] {
      WindowExact(h[..|h| - 1], start, end, r);
      assert h == h[..|h| - 1] + [h[|h| - 1]];
    }
  }

  /** Every merchant's total is what the payments paid it. */
  lemma {:induction false} TotalsSum(ps: seq<Payment>, c: string)
    ensures Get(Totals(ps), c) == SumFor(ps, c)
  {
    if ps != [] {
      var m := Totals(ps[..|ps| - 1]);
      var p := ps[|ps| - 1];
      TotalsSum(ps[..|ps| - 1], c);
      PutGet(m, p.commerciant, Get(m, p.commerciant) + p.amount, c);
    }
  }

  /** The merchants come out in strictly ascending name order. */
  lemma {:induction false} TotalsAscending(ps: seq<Payment>)
    ensures Ascending(Totals(ps))
  {
    if ps != [] {
      var m := Totals(ps[..|ps| - 1]);
      var p := ps[|ps| - 1];
      TotalsAscending(ps[..|ps| - 1]);
      PutKeepsOrder(m, p.commerciant, Get(m, p.commerciant) + p.amount);
    }
  }

  /** The merchants listed are exactly those paid. */
  lemma {:induction false} TotalsNames(ps: seq<Payment>, c: string)
    ensures c in Names(Totals(ps)) <==> exists i :: 0 <= i < |ps| && ps[i].commerciant == c
  {
    if ps != [] {
      var init := ps[..|ps| - 1];
      var m := Totals(init);
      var p := ps[|ps| - 1];
      TotalsNames(init, c);
      TotalsAscending(init);
      PutKeepsOrder(m, p.commerciant, Get(m, p.commerciant) + p.amount);
      if exists i :: 0 <= i < |init| && init[i].commerciant == c {
        var i :| 0 <= i < |init| && init[i].commerciant == c;
        assert ps[i].commerciant == c;
      }
      if exists i :: 0 <= i < |ps| && ps[i].commerciant == c {
        var i :| 0 <= i < |ps| && ps[i].commerciant == c;
        if i < |init| {
          assert init[i].commerciant == c;
        }
      }
    }
  }

  // ---------------------------------------------------------------------
  // The report

  /** The report entry for `account`: the window of its history, or its payments and, for "spendingsReport", the merchant totals. */
  function ReportOf(command: string, timestamp: int, start: int, end: int, account: Account): (e: OutputEntry)
    reads account
  {
    var listed := PaymentsIn(account.payments, start, end);
    Report(command, timestamp, account.balance, account.currency, account.iban,
           if command == "report" then Window(account.transactions, start, end) else PaymentRecords(listed),
           if command == "spendingsReport" then Some(Totals(listed)) else None)
  }

  /** The history loop of `gatherData`. */
  method ListHistory(h: seq<Record>, start: int, end: int) returns (listed: seq<Record>)
    ensures listed == Window(h, start, end)
  {
    listed := [];
    var i := 0;
    while i < |h|
      invariant i <= |h| && listed == Window(h[..i], start, end)
    {
      assert h[..i + 1][..i] == h[..i];
      if InWindow(h[i].timestamp, start, end) {
        listed := listed + [h[i]];
      }
      i := i + 1;
    }
    assert h[..|h|] == h;
  }

  /** The payments loop of `gatherData`: the payments inside the window and the merchant totals they add up to. */
  method ListPayments(ps: seq<Payment>, start: int, end: int) returns (listed: seq<Record>, totals: seq<MerchantTotal>)
    ensures listed == PaymentRecords(PaymentsIn(ps, start, end))
    ensures totals == Totals(PaymentsIn(ps, start, end))
  {
    listed, totals := [], [];
    var i := 0;
    while i < |ps|
      invariant i <= |ps| && listed == PaymentRecords(PaymentsIn(ps[..i], start, end))
      invariant totals == Totals(PaymentsIn(ps[..i], start, end))
    {
      ListStep(ps, i, start, end);
      var p := ps[i];
      if InWindow(p.timestamp, start, end) {
        listed := listed + [p.AsRecord()];
        totals := Put(totals, p.commerciant, Get(totals, p.commerciant) + p.amount);
      }
      i := i + 1;
    }
    assert ps[..|ps|] == ps;
  }

  /** One payment further, the window grows by it when it falls inside. */
  lemma PaymentsInStep(ps: seq<Payment>, i: nat, start: int, end: int)
    requires i < |ps|
    ensures PaymentsIn(ps[..i + 1], start, end)
            == PaymentsIn(ps[..i], start, end) + if InWindow(ps[i].timestamp, start, end) then [ps[i]] else []
  {
    assert ps[..i + 1][..i] == ps[..i];
  }

  /** One payment further, the listed records and the totals as the loop updates them. */
  lemma ListStep(ps: seq<Payment>, i: nat, start: int, end: int)
    requires i < |ps|
    ensures var w := PaymentsIn(ps[..i], start, end);
            var m := Totals(w);
            var p := ps[i];
            if InWindow(p.timestamp, start, end) then
              PaymentRecords(PaymentsIn(ps[..i + 1], start, end)) == PaymentRecords(w) + [p.AsRecord()]
              && Totals(PaymentsIn(ps[..i + 1], start, end)) == Put(m, p.commerciant, Get(m, p.commerciant) + p.amount)
            else
              PaymentsIn(ps[..i + 1], start, end) == w
  {
    PaymentsInStep(ps, i, start, end);
    var w := PaymentsIn(ps[..i], start, end);
    if InWindow(ps[i].timestamp, start, end) {
      assert (w + [ps[i]])[..|w|] == w;
    }
  }

  /** `gatherData`: the report entry, leaving the account as it is. */
  method GatherData(command: string, timestamp: int, start: int, end: int, account: Account) returns (e: OutputEntry)
    ensures e == ReportOf(command, timestamp, start, end, account)
  {
    var listed: seq<Record>;
    var totals: seq<MerchantTotal> := [];
    if command == "report" {
      listed := ListHistory(account.transactions, start, end);
    } else {
      listed, totals := ListPayments(account.payments, start, end);
    }
    var merchants := if command == "spendingsReport" then Some(totals) else None;
    e := Report(command, timestamp, account.balance, account.currency, account.iban, listed, merchants);
  }

  /** `makeTransaction`: the report entry for the account, or "Account not found" without one. */
  method MakeTransaction(command: string, timestamp: int, start: int, end: int, account: Account?, output: Output)
    modifies output
    ensures account == null ==> output.entries == old(output.entries) + [Notice(command, timestamp, "description", NotFound)]
    ensures account != null ==> output.entries == old(output.entries) + [ReportOf(command, timestamp, start, end, account)]
  {
    if account == null {
      output.Add(Notice(command, timestamp, "description", NotFound));
      return;
    }
    var e := GatherData(command, timestamp, start, end, account);
    output.Add(e);
  }

  /** A report lists exactly the history records inside the window, and a spendings report every merchant paid in it with what it was paid. */
  lemma ReportContents(command: string, timestamp: int, start: int, end: int, account: Account, r: Record, c: string)
    ensures var e := ReportOf(command, timestamp, start, end, account);
            (command == "report" ==>
               (r in e.transactions <==> r in account.transactions && InWindow(r.timestamp, start, end)))
            && (command == "spendingsReport" ==>
                  Ascending(e.commerciants.value)
                  && Get(e.commerciants.value, c) == SumFor(PaymentsIn(account.payments, start, end), c))
  {
    WindowExact(account.transactions, start, end, r);
    TotalsAscending(PaymentsIn(account.payments, start, end));
    TotalsSum(PaymentsIn(account.payments, start, end), c);
  }
}
