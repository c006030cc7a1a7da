/**
 * The answers to a consensual split payment (`split_payment.AcceptSplitPayment`,
 * `split_payment.RejectSplitPayment`) and the first-in first-out queue that
 * runs such commands (`split_payment.CommandQueue`).
 *
 * A command holds the answering user's email and the split it answers, which
 * may be null. Running it copies the split's timestamp into the command and
 * passes the email on to the split's `approveUser` or `rejectUser`.
 */
module SplitCommands {
  import opened SplitPayments
  import opened Ledger

  /** The users of a split, none without one. */
  function SplitUsers(t: SplitPaymentTransaction?): seq<User> {
    if t == null then [] else t.users
  }

  /** The accounts of a split, none without one. */
  function SplitAccounts(t: SplitPaymentTransaction?): seq<Account> {
    if t == null then [] else t.accounts
  }

  /** `AcceptSplitPayment`: one user's acceptance of one split. */
  class AcceptSplitPayment {
    const email: string
    var timestamp: int
    const transaction: SplitPaymentTransaction?

    constructor (email: string, transaction: SplitPaymentTransaction?)
      ensures this.email == email && this.transaction == transaction && timestamp == 0
    {
      this.email, this.transaction, timestamp := email, transaction, 0;
    }

    /**
     * `execute`: nothing happens without a split; otherwise the command takes
     * the split's timestamp and the split hears the acceptance, as
     * `ApprovedFrom` describes. The split is pending, as every split on a
     * user's pending list is.
     */
    method Execute()
      requires transaction != null ==> transaction.Pending()
      modifies this`timestamp, transaction, SplitUsers(transaction), SplitAccounts(transaction)
      ensures transaction == null ==> timestamp == old(timestamp)
      ensures transaction != null ==> timestamp == transaction.timestamp && transaction.ApprovedFrom(email, old(transaction.approvals), old(transaction.Snap()),
                                                          old(transaction.PendingLists(|transaction.users|)))
    {
      if transaction == null {
        return;
      }
      ghost var m, b := transaction.approvals, transaction.Snap();
      ghost var a0 := transaction.PendingLists(|transaction.users|);
      timestamp := transaction.timestamp;
      // `approveUser`, from the split's state before the command's own timestamp, which is not part of it, was set
      transaction.Approve(email, m, b, a0);
    }
  }

  /** `RejectSplitPayment`: one user's rejection of one split. */
  class RejectSplitPayment {
    const email: string
    var timestamp: int
    const transaction: SplitPaymentTransaction?

    constructor (email: string, transaction: SplitPaymentTransaction?)
      ensures this.email == email && this.transaction == transaction && timestamp == 0
    {
      this.email, this.transaction, timestamp := email, transaction, 0;
    }

    /**
     * `execute`: nothing happens without a split; otherwise the command takes
     * the split's timestamp and the split hears the rejection, as
     * `RejectedFrom` describes.
     */
    method Execute()
      requires transaction != null ==> transaction.Pending()
      modifies this`timestamp, transaction, SplitUsers(transaction), SplitAccounts(transaction)
      ensures transaction == null ==> timestamp == old(timestamp)
      ensures transaction != null ==> timestamp == transaction.timestamp && transaction.RejectedFrom(email, old(transaction.approvals), old(transaction.Snap()),
                                                          old(transaction.PendingLists(|transaction.users|)))
    {
      if transaction == null {
        return;
      }
      ghost var m, b := transaction.approvals, transaction.Snap();
      ghost var a0 := transaction.PendingLists(|transaction.users|);
      timestamp := transaction.timestamp;
      // `rejectUser`, from the split's state before the command's own timestamp, which is not part of it, was set
      transaction.Refuse(email, m, b, a0);
    }
  }

  /** A queued command: an acceptance or a rejection. */
  datatype Command = Accept(accept: AcceptSplitPayment) | Reject(reject: RejectSplitPayment)

  function Target(c: Command): SplitPaymentTransaction? {
    match c
    case Accept(a) => a.transaction
    case Reject(r) => r.transaction
  }

  function EmailOf(c: Command): string {
    match c
    case Accept(a) => a.email
    case Reject(r) => r.email
  }

  function Stamp(c: Command): int
    reads if c.Accept? then c.accept else c.reject
  {
    match c
    case Accept(a) => a.timestamp
    case Reject(r) => r.timestamp
  }

  /** The command object itself, whose timestamp running it sets. */
  function Holder(c: Command): object {
    match c
    case Accept(a) => a
    case Reject(r) => r
  }

  /** The splits the queued commands answer. */
  function Targets(q: seq<Command>): set<SplitPaymentTransaction> {
    set k | 0 <= k < |q| && Target(q[k]) != null :: Target(q[k])
  }

  /** What running `c` may change: the command, its split, the split's users and accounts. */
  function Reach(c: Command): seq<object> {
    [Holder(c)] + if Target(c) == null then [] else [Target(c) as object] + Target(c).users + Target(c).accounts
  }

  /** What running the queued commands may change. */
  function Footprint(q: seq<Command>): seq<object> {
    if q == [] then [] else Reach(q[0]) + Footprint(q[1..])
  }

  lemma {:induction false} InFootprint(q: seq<Command>, k: nat)
    requires k < |q|
    ensures forall i :: 0 <= i < |Reach(q[k])| ==> Reach(q[k])[i] in Footprint(q)
  {
    if k > 0 {
      InFootprint(q[1..], k - 1);
      assert q[1..][k - 1] == q[k];
    }
  }

  /** No two of the commands answer the same split. */
  predicate Distinct(q: seq<Command>) {
    forall k, l :: 0 <= k < l < |q| && Target(q[k]) != null ==> Target(q[k]) != Target(q[l])
  }

  /**
   * Commands the queue can run: every split they answer is pending, and no
   * two of them answer the same split.
   */
  predicate Runnable(q: seq<Command>)
    reads Targets(q)
  {
    Distinct(q) && forall k :: 0 <= k < |q| && Target(q[k]) != null ==> Target(q[k]).Pending()
  }

  /** Running one command does not reach another one, nor the split the other answers. */
  lemma Apart(q: seq<Command>, j: nat, k: nat)
    requires Distinct(q) && j < |q| && k < |q| && j != k && Target(q[j]) != null
    ensures Holder(q[j]) !in Reach(q[k]) && Target(q[j]) !in Reach(q[k])
  {
    assert Target(q[j]) != Target(q[k]) by {
      if j < k {} else {}
    }
  }

  /**
   * The command `c` has run against the approvals `m` it found: it carries
   * its split's timestamp, and its email's entry holds its answer.
   */
  predicate RanFrom(c: Command, m: map<string, bool>)
    requires Target(c) != null
    reads Holder(c), Target(c)
  {
    Stamp(c) == Target(c).timestamp && Target(c).approvals == Answered(m, EmailOf(c), c.Accept?)
  }

  /** `execute` on either kind of command. */
  method Run(c: Command)
    requires Target(c) != null ==> Target(c).Pending()
    modifies Reach(c)
    ensures Target(c) != null ==> RanFrom(c, old(Target(c).approvals))
  {
    ReachHas(c);
    match c
    case Accept(a) =>
      a.Execute();
    case Reject(r) =>
      r.Execute();
  }

  lemma ReachHas(c: Command)
    ensures Holder(c) in Reach(c) && (Target(c) != null ==> Target(c) in Reach(c))
    ensures forall i :: 0 <= i < |SplitUsers(Target(c))| ==> SplitUsers(Target(c))[i] in Reach(c)
    ensures forall i :: 0 <= i < |SplitAccounts(Target(c))| ==> SplitAccounts(Target(c))[i] in Reach(c)
  {
  }

  /** The commands' objects, whose timestamps running them sets. */
  function Holders(q: seq<Command>): set<object> {
    set k | 0 <= k < |q| :: Holder(q[k])
  }

  /** From the `k`-th command on, every split is pending and holds the approvals `m` records. */
  predicate Untouched(q: seq<Command>, k: nat, m: seq<map<string, bool>>)
    requires |m| == |q|
    reads Targets(q)
  {
    forall j :: k <= j < |q| && Target(q[j]) != null ==> Target(q[j]).Pending() && Target(q[j]).approvals == m[j]
  }

  /** The commands before the `k`-th have run against the approvals `m` records. */
  predicate RanUpTo(q: seq<Command>, k: nat, m: seq<map<string, bool>>)
    requires |m| == |q|
    reads Targets(q), Holders(q)
  {
    forall j :: 0 <= j < k && j < |q| && Target(q[j]) != null ==> RanFrom(q[j], m[j])
  }

  /** Runs the `k`-th of the commands `q`, which answer distinct splits. */
  method RunAt(c: Command, ghost q: seq<Command>, ghost k: nat, ghost m: seq<map<string, bool>>)
    requires k < |q| && c == q[k] && |m| == |q| && Distinct(q)
    requires Untouched(q, k, m) && RanUpTo(q, k, m)
    modifies Reach(c)
    ensures Untouched(q, k + 1, m) && RanUpTo(q, k + 1, m)
  {
    forall j | 0 <= j < |q| && j != k && Target(q[j]) != null
      ensures Holder(q[j]) !in Reach(c) && Target(q[j]) !in Reach(c)
    {
      Apart(q, j, k);
    }
    Run(c);
  }

  /** `CommandQueue`: a first-in first-out queue of answers. */
  class CommandQueue {
    var queue: seq<Command>
    /** The commands run so far, in the order they ran. */
    ghost var executed: seq<Command>

    constructor ()
      ensures queue == [] && executed == []
    {
      queue, executed := [], [];
    }

    /** `addCommand`: the command joins the tail. */
    method AddCommand(c: Command)
      modifies this`queue
      ensures queue == old(queue) + [c]
    {
      queue := queue + [c];
    }

    /**
     * `processCommands`: the head is taken off and run until the queue is
     * empty, so every queued command runs exactly once, in queue order, each
     * leaving its answer on its split.
     */
    method ProcessCommands()
      requires Runnable(queue)
      modifies this`queue, this`executed, Footprint(queue)
      ensures queue == [] && executed == old(executed) + old(queue)
      ensures forall k :: 0 <= k < |old(queue)| && Target(old(queue)[k]) != null ==>
                RanFrom(old(queue)[k], old(Target(queue[k]).approvals))
    {
      ghost var q0 := queue;
      ghost var m0 := seq(|q0|, j requires 0 <= j < |q0| reads Targets(q0) =>
                            if Target(q0[j]) == null then map[] else Target(q0[j]).approvals);
      assert this !in Holders(q0);
      ProcessFrom(q0, 0, m0);
    }

    /** The queue loop once the first `k` of the commands `q0` have run: one command per call, in order. */
    method ProcessFrom(ghost q0: seq<Command>, ghost k: nat, ghost m0: seq<map<string, bool>>)
      requires k <= |q0| && |m0| == |q0| && Distinct(q0) && this !in Holders(q0)
      requires queue == q0[k..] && Untouched(q0, k, m0) && RanUpTo(q0, k, m0)
      modifies this`queue, this`executed, Footprint(q0)
      ensures queue == [] && executed == old(executed) + q0[k..]
      ensures RanUpTo(q0, |q0|, m0)
      decreases |q0| - k
    {
      if queue != [] {
        var c := queue[0];
        assert c == q0[k];
        InFootprint(q0, k);
        assert this !in Reach(c);
        RunAt(c, q0, k, m0);
        // the head leaves the queue once it has run; running it touches neither field
        queue, executed := queue[1..], executed + [c];
        ProcessFrom(q0, k + 1, m0);
      }
    }
  }
}
