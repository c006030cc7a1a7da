/**
 * The currency resolver: an append-only list of directed conversion edges
 * and a breadth-first search that multiplies rates along the path it finds.
 *
 * The search is specified by the function `Rate` (a functional rendering of
 * the queue/visited loop) and the facts about it are lemmas: the result is
 * 1 for equal currencies, -1 exactly for unreachable targets, the product of
 * a minimum-hop path otherwise, and the first direct edge when there is one.
 */
module ExchangeRates {
  import opened Wrappers

  /** One directed conversion edge; reciprocal edges are built with timestamp 0. */
  datatype ExchangeRate = ExchangeRate(from: string, to: string, rate: real, timestamp: int)

  /** A queue entry of the search: a currency and the rate accumulated to reach it. */
  datatype Node = Node(currency: string, rate: real)

  ghost predicate NonZero(edges: seq<ExchangeRate>) {
    forall k :: 0 <= k < |edges| ==> edges[k].rate != 0.0
  }

  ghost predicate Positive(edges: seq<ExchangeRate>) {
    forall k :: 0 <= k < |edges| ==> edges[k].rate > 0.0
  }

  function Reciprocal(e: ExchangeRate): ExchangeRate
    requires e.rate != 0.0
  {
    ExchangeRate(e.to, e.from, 1.0 / e.rate, 0)
  }

  /** The edges that reverse each edge of `edges`, in the same order. */
  function Reciprocals(edges: seq<ExchangeRate>): (r: seq<ExchangeRate>)
    requires NonZero(edges)
  {
    if edges == [] then []
    else Reciprocals(edges[..|edges| - 1]) + [Reciprocal(edges[|edges| - 1])]
  }

  lemma {:induction false} ReciprocalsAt(edges: seq<ExchangeRate>, k: nat)
    requires NonZero(edges) && k < |edges|
    ensures |Reciprocals(edges)| == |edges|
    ensures Reciprocals(edges)[k] == ExchangeRate(edges[k].to, edges[k].from, 1.0 / edges[k].rate, 0)
  {
    var init := edges[..|edges| - 1];
    if k < |init| {
      ReciprocalsAt(init, k);
    } else if init != [] {
      ReciprocalsAt(init, 0);
    } else {
      assert Reciprocals(init) == [];
    }
  }

  lemma {:induction false} ReciprocalsNonZero(edges: seq<ExchangeRate>)
    requires NonZero(edges)
    ensures NonZero(Reciprocals(edges))
  {
    if edges != [] {
      ReciprocalsNonZero(edges[..|edges| - 1]);
    }
  }

  // ---------------------------------------------------------------------
  // Paths through the edge list

  /** `p` is a walk along edges of `edges` from `from` to `to`; the empty walk joins a currency to itself. */
  ghost predicate IsPath(edges: seq<ExchangeRate>, p: seq<ExchangeRate>, from: string, to: string) {
    (forall k :: 0 <= k < |p| ==> p[k] in edges) &&
    if p == [] then from == to
    else p[0].from == from && p[|p| - 1].to == to &&
         forall k :: 0 <= k < |p| - 1 ==> p[k].to == p[k + 1].from
  }

  ghost predicate Reachable(edges: seq<ExchangeRate>, from: string, to: string) {
    exists p :: IsPath(edges, p, from, to)
  }

  /** A walk with the fewest hops among all walks between the same currencies. */
  ghost predicate ShortestPath(edges: seq<ExchangeRate>, p: seq<ExchangeRate>, from: string, to: string) {
    IsPath(edges, p, from, to) && forall q :: IsPath(edges, q, from, to) ==> |p| <= |q|
  }

  /** The product of the rates along a walk, multiplied in walk order. */
  function Product(p: seq<ExchangeRate>): real {
    if p == [] then 1.0 else Product(p[..|p| - 1]) * p[|p| - 1].rate
  }

  lemma PathExtend(edges: seq<ExchangeRate>, p: seq<ExchangeRate>, from: string, x: string, e: ExchangeRate)
    requires IsPath(edges, p, from, x) && e in edges && e.from == x
    ensures IsPath(edges, p + [e], from, e.to)
    ensures Product(p + [e]) == Product(p) * e.rate
  {
    assert (p + [e])[..|p|] == p;
  }

  lemma PathPrefix(edges: seq<ExchangeRate>, q: seq<ExchangeRate>, from: string, x: string)
    requires IsPath(edges, q, from, x) && q != []
    ensures IsPath(edges, q[..|q| - 1], from, q[|q| - 1].from)
    ensures q[|q| - 1] in edges && q[|q| - 1].to == x
  {
  }

  lemma {:induction false} ProductPositive(edges: seq<ExchangeRate>, p: seq<ExchangeRate>)
    requires Positive(edges) && forall k :: 0 <= k < |p| ==> p[k] in edges
    ensures Product(p) > 0.0
  {
    if p != [] {
      ProductPositive(edges, p[..|p| - 1]);
      var e := p[|p| - 1];
      var k :| 0 <= k < |edges| && edges[k] == e;
      assert e.rate > 0.0;
    }
  }

  lemma {:induction false} ProductNonZero(edges: seq<ExchangeRate>, p: seq<ExchangeRate>)
    requires NonZero(edges) && forall k :: 0 <= k < |p| ==> p[k] in edges
    ensures Product(p) != 0.0
  {
    if p != [] {
      ProductNonZero(edges, p[..|p| - 1]);
      var e := p[|p| - 1];
      var k :| 0 <= k < |edges| && edges[k] == e;
      assert e.rate != 0.0;
    }
  }

  /** If no edge leaves `visited` and `from` is in it, every walk from `from` ends in it. */
  lemma {:induction false} ClosedSetTraps(edges: seq<ExchangeRate>, visited: seq<string>, from: string, q: seq<ExchangeRate>, x: string)
    requires from in visited
    requires forall k, e :: 0 <= k < |visited| && e in edges && e.from == visited[k] ==> e.to in visited
    requires IsPath(edges, q, from, x)
    ensures x in visited
    decreases |q|
  {
    if q != [] {
      PathPrefix(edges, q, from, x);
      ClosedSetTraps(edges, visited, from, q[..|q| - 1], q[|q| - 1].from);
    }
  }

  // ---------------------------------------------------------------------
  // The breadth-first search as a function

  function Targets(t: seq<ExchangeRate>): (r: seq<string>)
    ensures |r| == |t| && forall k :: 0 <= k < |t| ==> r[k] == t[k].to
  {
    seq(|t|, k requires 0 <= k < |t| => t[k].to)
  }

  /** The queue entry for crossing edge `e` from a node reached at `rate`. */
  function Enqueued(rate: real, e: ExchangeRate): (n: Node)
    ensures n.currency == e.to && n.rate == rate * e.rate
  {
    Node(e.to, rate * e.rate)
  }

  /** The queue entries enqueued for the edges `t` when leaving a node reached at `rate`. */
  function Advance(rate: real, t: seq<ExchangeRate>): (r: seq<Node>)
    ensures |r| == |t| && forall k :: 0 <= k < |t| ==> r[k] == Enqueued(rate, t[k])
  {
    seq(|t|, k requires 0 <= k < |t| => Enqueued(rate, t[k]))
  }

  lemma AdvanceSnoc(rate: real, t: seq<ExchangeRate>, e: ExchangeRate)
    ensures Advance(rate, t + [e]) == Advance(rate, t) + [Enqueued(rate, e)]
    ensures Targets(t + [e]) == Targets(t) + [e.to]
  {
    var a := Advance(rate, t + [e]);
    var b := Advance(rate, t) + [Enqueued(rate, e)];
    forall k | 0 <= k < |a| ensures a[k] == b[k] {
      if k < |t| { assert (t + [e])[k] == t[k]; } else { assert (t + [e])[k] == e; }
    }
    var c := Targets(t + [e]);
    var d := Targets(t) + [e.to];
    forall k | 0 <= k < |c| ensures c[k] == d[k] {
      if k < |t| { assert (t + [e])[k] == t[k]; } else { assert (t + [e])[k] == e; }
    }
  }

  ghost function AllTargets(edges: seq<ExchangeRate>): set<string> {
    set e | e in edges :: e.to
  }

  ghost function SetOf(s: seq<string>): set<string> {
    set x | x in s
  }

  /**
   * The edges the inner scan takes while standing on `cur`: the edges of
   * `edges[i..]`, in list order, that leave `cur` towards a currency not yet
   * visited (each taken edge marks its target visited for the rest of the scan).
   */
  function Taken(edges: seq<ExchangeRate>, cur: string, i: nat, visited: seq<string>): seq<ExchangeRate>
    requires i <= |edges|
    decreases |edges| - i
  {
    if i == |edges| then []
    else if edges[i].from == cur && edges[i].to !in visited then
      [edges[i]] + Taken(edges, cur, i + 1, visited + [edges[i].to])
    else Taken(edges, cur, i + 1, visited)
  }

  ghost predicate Distinct(s: seq<string>) {
    forall a, b :: 0 <= a < b < |s| ==> s[a] != s[b]
  }

  lemma {:induction false} TakenFacts(edges: seq<ExchangeRate>, cur: string, i: nat, visited: seq<string>)
    requires i <= |edges|
    ensures forall k :: 0 <= k < |Taken(edges, cur, i, visited)| ==>
      Taken(edges, cur, i, visited)[k] in edges && Taken(edges, cur, i, visited)[k].from == cur &&
      Taken(edges, cur, i, visited)[k].to !in visited
    ensures Distinct(visited) ==> Distinct(visited + Targets(Taken(edges, cur, i, visited)))
    ensures forall j :: i <= j < |edges| && edges[j].from == cur ==>
      edges[j].to in visited + Targets(Taken(edges, cur, i, visited))
    decreases |edges| - i
  {
    if i < |edges| {
      var e := edges[i];
      if e.from == cur && e.to !in visited {
        var v' := visited + [e.to];
        TakenFacts(edges, cur, i + 1, v');
        var rest := Taken(edges, cur, i + 1, v');
        assert Taken(edges, cur, i, visited) == [e] + rest;
        assert visited + Targets([e] + rest) == v' + Targets(rest);
      } else {
        assert Taken(edges, cur, i, visited) == Taken(edges, cur, i + 1, visited);
        TakenFacts(edges, cur, i + 1, visited);
      }
    }
  }

  /**
   * The search loop: poll the head, stop with its rate if it is the target,
   * otherwise enqueue the edges `Taken` from it; an empty queue gives -1.
   */
  function Search(edges: seq<ExchangeRate>, to: string, queue: seq<Node>, visited: seq<string>): real
    decreases AllTargets(edges) - SetOf(visited), |queue|
  {
    if queue == [] then -1.0
    else if queue[0].currency == to then queue[0].rate
    else
      SearchProgress(edges, queue[0].currency, visited);
      Search(edges, to, NextQueue(edges, queue, visited), NextVisited(edges, queue, visited))
  }

  /** The queue after polling the head and enqueueing what the scan from it takes. */
  function NextQueue(edges: seq<ExchangeRate>, queue: seq<Node>, visited: seq<string>): seq<Node>
    requires queue != []
  {
    queue[1..] + Advance(queue[0].rate, Taken(edges, queue[0].currency, 0, visited))
  }

  /** The visited list after the scan from the head. */
  function NextVisited(edges: seq<ExchangeRate>, queue: seq<Node>, visited: seq<string>): seq<string>
    requires queue != []
  {
    visited + Targets(Taken(edges, queue[0].currency, 0, visited))
  }

  lemma SearchProgress(edges: seq<ExchangeRate>, cur: string, visited: seq<string>)
    ensures AllTargets(edges) - SetOf(visited + Targets(Taken(edges, cur, 0, visited))) <= AllTargets(edges) - SetOf(visited)
    ensures Taken(edges, cur, 0, visited) != [] ==>
      AllTargets(edges) - SetOf(visited + Targets(Taken(edges, cur, 0, visited))) < AllTargets(edges) - SetOf(visited)
  {
    var t := Taken(edges, cur, 0, visited);
    TakenFacts(edges, cur, 0, visited);
    if t != [] {
      assert t[0] in edges;
      assert t[0].to in AllTargets(edges);
      assert (visited + Targets(t))[|visited|] == t[0].to;
      assert t[0].to in SetOf(visited + Targets(t));
      assert t[0].to !in SetOf(visited);
    }
  }

  /** The rate `getExchangeRate(from, to)` returns over `edges`: the search from `from` alone. */
  function Rate(edges: seq<ExchangeRate>, from: string, to: string): real {
    Search(edges, to, [Node(from, 1.0)], [from])
  }

  /**
   * The search is correct: a currency converts to itself at 1, an
   * unreachable target gives the -1 sentinel, and a reachable one the
   * product of the rates along some walk with the fewest hops.
   */
  lemma RateCorrect(edges: seq<ExchangeRate>, from: string, to: string)
    ensures from == to ==> Rate(edges, from, to) == 1.0
    ensures !Reachable(edges, from, to) ==> Rate(edges, from, to) == -1.0
    ensures Reachable(edges, from, to) ==> exists p :: ShortestPath(edges, p, from, to) && Rate(edges, from, to) == Product(p)
  {
    InitialInv(edges, from, to);
    SearchCorrect(edges, from, to, [Node(from, 1.0)], [from], [[]]);
  }

  // ---------------------------------------------------------------------
  // Correctness of the search

  /** `ps[k]` is a walk to `visited[k]`, and no walk to it is shorter. */
  ghost predicate Witnesses(edges: seq<ExchangeRate>, from: string, visited: seq<string>, ps: seq<seq<ExchangeRate>>) {
    |ps| == |visited| &&
    (forall k :: 0 <= k < |visited| ==> IsPath(edges, ps[k], from, visited[k])) &&
    (forall k, q :: 0 <= k < |visited| && IsPath(edges, q, from, visited[k]) ==> |ps[k]| <= |q|)
  }

  /** The queue holds the last |queue| visited currencies, each with its witness walk's product. */
  ghost predicate QueueMatches(queue: seq<Node>, visited: seq<string>, ps: seq<seq<ExchangeRate>>)
    requires |ps| == |visited|
  {
    var off := |visited| - |queue|;
    0 <= off &&
    forall j :: 0 <= j < |queue| ==> queue[j].currency == visited[off + j] && queue[j].rate == Product(ps[off + j])
  }

  /** Walk lengths never decrease along `visited` and exceed the head's by at most one. */
  ghost predicate Levels(head: int, ps: seq<seq<ExchangeRate>>)
    requires 0 <= head <= |ps|
  {
    (forall a, b :: 0 <= a <= b < |ps| ==> |ps[a]| <= |ps[b]|) &&
    (head < |ps| ==> forall b :: 0 <= b < |ps| ==> |ps[b]| <= |ps[head]| + 1)
  }

  /** Every edge leaving one of the first `off` (processed) currencies leads to a visited one. */
  ghost predicate Closed(edges: seq<ExchangeRate>, visited: seq<string>, off: int)
    requires 0 <= off <= |visited|
  {
    forall k, e :: 0 <= k < off && e in edges && e.from == visited[k] ==> e.to in visited
  }

  /** Every currency reachable within `bound` hops is visited. */
  ghost predicate Covers(edges: seq<ExchangeRate>, from: string, visited: seq<string>, bound: int) {
    forall x, q :: IsPath(edges, q, from, x) && |q| <= bound ==> x in visited
  }

  /**
   * The search state invariant: witnesses, FIFO layout, ordered levels,
   * closure of processed currencies, coverage up to the head's distance,
   * and the target not yet processed.
   */
  ghost predicate Inv(edges: seq<ExchangeRate>, from: string, to: string,
                      queue: seq<Node>, visited: seq<string>, ps: seq<seq<ExchangeRate>>)
  {
    var off := |visited| - |queue|;
    from in visited && Distinct(visited) &&
    Witnesses(edges, from, visited, ps) && QueueMatches(queue, visited, ps) &&
    Levels(off, ps) && Closed(edges, visited, off) &&
    (|queue| > 0 ==> Covers(edges, from, visited, |ps[off]|)) &&
    TargetPending(to, visited, off)
  }

  /** The target is not among the first `off` (processed) currencies. */
  ghost predicate TargetPending(to: string, visited: seq<string>, off: int) {
    forall k :: 0 <= k < off && k < |visited| ==> visited[k] != to
  }

  lemma InitialInv(edges: seq<ExchangeRate>, from: string, to: string)
    ensures Inv(edges, from, to, [Node(from, 1.0)], [from], [[]])
  {
    forall x: string, q: seq<ExchangeRate> | IsPath(edges, q, from, x) && |q| <= 0 ensures x in [from] {
      assert q == [];
    }
  }

  /** Search over a state satisfying `Inv` returns -1 for unreachable `to` and a shortest walk's product otherwise. */
  lemma {:induction false} SearchCorrect(edges: seq<ExchangeRate>, from: string, to: string,
                                         queue: seq<Node>, visited: seq<string>, ps: seq<seq<ExchangeRate>>)
    requires Inv(edges, from, to, queue, visited, ps)
    ensures !Reachable(edges, from, to) ==> Search(edges, to, queue, visited) == -1.0
    ensures Reachable(edges, from, to) ==>
      exists p :: ShortestPath(edges, p, from, to) && Search(edges, to, queue, visited) == Product(p)
    decreases AllTargets(edges) - SetOf(visited), |queue|
  {
    var off := |visited| - |queue|;
    if queue == [] {
      if Reachable(edges, from, to) {
        var q :| IsPath(edges, q, from, to);
        ClosedSetTraps(edges, visited, from, q, to);
        assert false;
      }
    } else if queue[0].currency == to {
      var p := ps[off];
      assert IsPath(edges, p, from, to);
      assert ShortestPath(edges, p, from, to);
    } else {
      SearchProgress(edges, queue[0].currency, visited);
      var ps' := StepInv(edges, from, to, queue, visited, ps);
      SearchCorrect(edges, from, to, NextQueue(edges, queue, visited), NextVisited(edges, queue, visited), ps');
    }
  }

  /** The witnesses after a step: the head's walk extended by each taken edge. */
  function Extended(ps: seq<seq<ExchangeRate>>, off: int, t: seq<ExchangeRate>): (ps': seq<seq<ExchangeRate>>)
    requires 0 <= off < |ps|
    ensures |ps'| == |ps| + |t| && ps'[..|ps|] == ps
    ensures forall k :: 0 <= k < |ps| ==> ps'[k] == ps[k]
    ensures forall k :: 0 <= k < |t| ==> ps'[|ps| + k] == ps[off] + [t[k]]
  {
    ps + seq(|t|, k requires 0 <= k < |t| => ps[off] + [t[k]])
  }

  /** The hypotheses of every step lemma: the invariant holds and the head is not the target. */
  ghost predicate PreStep(edges: seq<ExchangeRate>, from: string, to: string,
                          queue: seq<Node>, visited: seq<string>, ps: seq<seq<ExchangeRate>>)
  {
    Inv(edges, from, to, queue, visited, ps) && queue != [] && queue[0].currency != to
  }

  ghost function NextPs(edges: seq<ExchangeRate>, queue: seq<Node>, visited: seq<string>, ps: seq<seq<ExchangeRate>>): seq<seq<ExchangeRate>>
    requires queue != [] && |ps| == |visited| && |queue| <= |visited|
  {
    Extended(ps, |visited| - |queue|, Taken(edges, queue[0].currency, 0, visited))
  }

  /** One poll-and-scan step preserves `Inv`. */
  lemma StepInv(edges: seq<ExchangeRate>, from: string, to: string,
                queue: seq<Node>, visited: seq<string>, ps: seq<seq<ExchangeRate>>)
    returns (ps': seq<seq<ExchangeRate>>)
    requires PreStep(edges, from, to, queue, visited, ps)
    ensures Inv(edges, from, to, NextQueue(edges, queue, visited), NextVisited(edges, queue, visited), ps')
  {
    ps' := NextPs(edges, queue, visited, ps);
    StepBasics(edges, from, to, queue, visited, ps);
    StepWitnesses(edges, from, to, queue, visited, ps);
    StepQueue(edges, from, to, queue, visited, ps);
    StepLevels(edges, from, to, queue, visited, ps);
    StepClosed(edges, from, to, queue, visited, ps);
    StepCovers(edges, from, to, queue, visited, ps);
    JoinInv(edges, from, to, NextQueue(edges, queue, visited), NextVisited(edges, queue, visited), ps');
  }

  lemma JoinInv(edges: seq<ExchangeRate>, from: string, to: string,
                queue: seq<Node>, visited: seq<string>, ps: seq<seq<ExchangeRate>>)
    requires from in visited && Distinct(visited)
    requires Witnesses(edges, from, visited, ps) && QueueMatches(queue, visited, ps)
    requires Levels(|visited| - |queue|, ps) && Closed(edges, visited, |visited| - |queue|)
    requires |queue| > 0 ==> Covers(edges, from, visited, |ps[|visited| - |queue|]|)
    requires TargetPending(to, visited, |visited| - |queue|)
    ensures Inv(edges, from, to, queue, visited, ps)
  {
  }

  lemma StepBasics(edges: seq<ExchangeRate>, from: string, to: string,
                   queue: seq<Node>, visited: seq<string>, ps: seq<seq<ExchangeRate>>)
    requires queue != [] && queue[0].currency != to
    requires from in visited && Distinct(visited)
    requires Witnesses(edges, from, visited, ps)
    requires QueueMatches(queue, visited, ps)
    requires TargetPending(to, visited, |visited| - |queue|)
    ensures |NextVisited(edges, queue, visited)| - |NextQueue(edges, queue, visited)| == |visited| - |queue| + 1
    ensures |NextPs(edges, queue, visited, ps)| == |NextVisited(edges, queue, visited)|
    ensures from in NextVisited(edges, queue, visited) && Distinct(NextVisited(edges, queue, visited))
    ensures TargetPending(to, NextVisited(edges, queue, visited), |visited| - |queue| + 1)
  {
    var off := |visited| - |queue|;
    TakenFacts(edges, queue[0].currency, 0, visited);
    assert queue[0].currency == visited[off];
  }

  lemma StepWitnesses(edges: seq<ExchangeRate>, from: string, to: string,
                      queue: seq<Node>, visited: seq<string>, ps: seq<seq<ExchangeRate>>)
    requires queue != [] && queue[0].currency != to
    requires Witnesses(edges, from, visited, ps)
    requires QueueMatches(queue, visited, ps)
    requires Covers(edges, from, visited, |ps[|visited| - |queue|]|)
    ensures Witnesses(edges, from, NextVisited(edges, queue, visited), NextPs(edges, queue, visited, ps))
  {
    var off := |visited| - |queue|;
    var t := Taken(edges, queue[0].currency, 0, visited);
    TakenFacts(edges, queue[0].currency, 0, visited);
    assert queue[0].currency == visited[off];
    var ps' := NextPs(edges, queue, visited, ps);
    var visited' := NextVisited(edges, queue, visited);
    forall k | 0 <= k < |visited'| ensures IsPath(edges, ps'[k], from, visited'[k]) {
      if k >= |visited| {
        PathExtend(edges, ps[off], from, visited[off], t[k - |visited|]);
      }
    }
    forall k: int, q: seq<ExchangeRate> | 0 <= k < |visited'| && IsPath(edges, q, from, visited'[k])
      ensures |ps'[k]| <= |q|
    {
      if k >= |visited| {
        assert visited'[k] == t[k - |visited|].to;
        assert visited'[k] !in visited;
      }
    }
  }

  lemma StepQueue(edges: seq<ExchangeRate>, from: string, to: string,
                  queue: seq<Node>, visited: seq<string>, ps: seq<seq<ExchangeRate>>)
    requires queue != [] && queue[0].currency != to
    requires |ps| == |visited|
    requires QueueMatches(queue, visited, ps)
    ensures |NextPs(edges, queue, visited, ps)| == |NextVisited(edges, queue, visited)|
    ensures QueueMatches(NextQueue(edges, queue, visited), NextVisited(edges, queue, visited), NextPs(edges, queue, visited, ps))
  {
    var off := |visited| - |queue|;
    var t := Taken(edges, queue[0].currency, 0, visited);
    var ps' := NextPs(edges, queue, visited, ps);
    var queue' := NextQueue(edges, queue, visited);
    var visited' := NextVisited(edges, queue, visited);
    forall j | 0 <= j < |queue'|
      ensures queue'[j].currency == visited'[off + 1 + j] && queue'[j].rate == Product(ps'[off + 1 + j])
    {
      if j >= |queue| - 1 {
        var m := j - (|queue| - 1);
        assert (ps[off] + [t[m]])[..|ps[off]|] == ps[off];
      }
    }
  }

  lemma StepLevels(edges: seq<ExchangeRate>, from: string, to: string,
                   queue: seq<Node>, visited: seq<string>, ps: seq<seq<ExchangeRate>>)
    requires queue != [] && queue[0].currency != to
    requires |ps| == |visited|
    requires QueueMatches(queue, visited, ps)
    requires Levels(|visited| - |queue|, ps)
    ensures |visited| - |queue| + 1 <= |NextPs(edges, queue, visited, ps)|
    ensures Levels(|visited| - |queue| + 1, NextPs(edges, queue, visited, ps))
  {
    var off := |visited| - |queue|;
    var ps' := NextPs(edges, queue, visited, ps);
    var l := |ps[off]|;
    assert forall b :: |ps| <= b < |ps'| ==> |ps'[b]| == l + 1;
    if off + 1 < |ps'| {
      assert |ps'[off + 1]| >= l;
    }
  }

  lemma StepClosed(edges: seq<ExchangeRate>, from: string, to: string,
                   queue: seq<Node>, visited: seq<string>, ps: seq<seq<ExchangeRate>>)
    requires queue != [] && queue[0].currency != to
    requires Witnesses(edges, from, visited, ps)
    requires QueueMatches(queue, visited, ps)
    requires Closed(edges, visited, |visited| - |queue|)
    ensures |visited| - |queue| + 1 <= |NextVisited(edges, queue, visited)|
    ensures Closed(edges, NextVisited(edges, queue, visited), |visited| - |queue| + 1)
  {
    var off := |visited| - |queue|;
    TakenFacts(edges, queue[0].currency, 0, visited);
    assert queue[0].currency == visited[off];
    var visited' := NextVisited(edges, queue, visited);
    forall k, e | 0 <= k < off + 1 && e in edges && e.from == visited'[k] ensures e.to in visited' {
      if k == off {
        var j :| 0 <= j < |edges| && edges[j] == e;
      }
    }
  }

  lemma StepCovers(edges: seq<ExchangeRate>, from: string, to: string,
                   queue: seq<Node>, visited: seq<string>, ps: seq<seq<ExchangeRate>>)
    requires queue != [] && queue[0].currency != to
    requires Witnesses(edges, from, visited, ps)
    requires QueueMatches(queue, visited, ps)
    requires Levels(|visited| - |queue|, ps)
    requires Closed(edges, visited, |visited| - |queue|)
    requires Covers(edges, from, visited, |ps[|visited| - |queue|]|)
    requires |NextVisited(edges, queue, visited)| - |NextQueue(edges, queue, visited)| == |visited| - |queue| + 1
    requires |NextPs(edges, queue, visited, ps)| == |NextVisited(edges, queue, visited)|
    requires Levels(|visited| - |queue| + 1, NextPs(edges, queue, visited, ps))
    requires Closed(edges, NextVisited(edges, queue, visited), |visited| - |queue| + 1)
    ensures var off' := |visited| - |queue| + 1;
      |NextQueue(edges, queue, visited)| > 0 ==>
        off' < |NextPs(edges, queue, visited, ps)| &&
        Covers(edges, from, NextVisited(edges, queue, visited), |NextPs(edges, queue, visited, ps)[off']|)
  {
    var off := |visited| - |queue|;
    var ps' := NextPs(edges, queue, visited, ps);
    var visited' := NextVisited(edges, queue, visited);
    if |NextQueue(edges, queue, visited)| > 0 {
      var l := |ps[off]|;
      var l' := |ps'[off + 1]|;
      assert l <= l' <= l + 1;
      forall x: string, q: seq<ExchangeRate> | IsPath(edges, q, from, x) && |q| <= l' ensures x in visited' {
        if |q| > l {
          PathPrefix(edges, q, from, x);
          var z := q[|q| - 1].from;
          assert z in visited;
          var kz :| 0 <= kz < |visited| && visited[kz] == z;
          assert |ps[kz]| <= l;
          assert ps'[kz] == ps[kz];
          assert visited'[kz] == z;
        }
      }
    }
  }

  // ---------------------------------------------------------------------
  // Further facts about Rate

  /** With positive rates, the sentinel -1 is returned exactly for unreachable targets. */
  lemma RateSentinel(edges: seq<ExchangeRate>, from: string, to: string)
    requires Positive(edges)
    ensures Rate(edges, from, to) == -1.0 <==> !Reachable(edges, from, to)
    ensures Reachable(edges, from, to) ==> Rate(edges, from, to) > 0.0
  {
    RateCorrect(edges, from, to);
    var r := Rate(edges, from, to);
    if Reachable(edges, from, to) {
      var p :| ShortestPath(edges, p, from, to) && r == Product(p);
      ProductPositive(edges, p);
    }
  }

  /** Over non-zero rates the search never yields 0, so dividing by a looked-up rate is defined. */
  lemma RateNonZero(edges: seq<ExchangeRate>, from: string, to: string)
    requires NonZero(edges)
    ensures Rate(edges, from, to) != 0.0
  {
    RateCorrect(edges, from, to);
    var r := Rate(edges, from, to);
    if Reachable(edges, from, to) {
      var p :| ShortestPath(edges, p, from, to) && r == Product(p);
      ProductNonZero(edges, p);
    }
  }

  /** If the queue's j-th entry is the first for `to`, the search returns its rate. */
  lemma {:induction false} SearchFinds(edges: seq<ExchangeRate>, to: string, queue: seq<Node>, visited: seq<string>, j: nat)
    requires j < |queue| && queue[j].currency == to
    requires forall i :: 0 <= i < j ==> queue[i].currency != to
    ensures Search(edges, to, queue, visited) == queue[j].rate
    decreases j
  {
    if j > 0 {
      var t := Taken(edges, queue[0].currency, 0, visited);
      var queue' := queue[1..] + Advance(queue[0].rate, t);
      SearchFinds(edges, to, queue', visited + Targets(t), j - 1);
    }
  }

  /** Index of the first edge in list order from `from` to `to`, if any. */
  function FirstEdge(edges: seq<ExchangeRate>, from: string, to: string): (r: Option<nat>)
    ensures r.Some? ==> r.value < |edges| && edges[r.value].from == from && edges[r.value].to == to &&
                        forall i :: 0 <= i < r.value ==> !(edges[i].from == from && edges[i].to == to)
    ensures r.None? ==> forall i :: 0 <= i < |edges| ==> !(edges[i].from == from && edges[i].to == to)
  {
    if edges == [] then None
    else if edges[0].from == from && edges[0].to == to then Some(0)
    else match FirstEdge(edges[1..], from, to)
      case None => None
      case Some(k) => Some(k + 1)
  }

  lemma {:induction false} TakenHasFirstEdge(edges: seq<ExchangeRate>, from: string, to: string,
                                             i: nat, visited: seq<string>, n: nat)
    requires i <= n < |edges| && edges[n].from == from && edges[n].to == to && to !in visited
    requires forall m :: i <= m < n ==> !(edges[m].from == from && edges[m].to == to)
    ensures exists m :: (0 <= m < |Taken(edges, from, i, visited)| && Taken(edges, from, i, visited)[m] == edges[n] &&
                         forall m' :: 0 <= m' < m ==> Taken(edges, from, i, visited)[m'].to != to)
    decreases n - i
  {
    var e := edges[i];
    var t := Taken(edges, from, i, visited);
    if i == n {
      assert t == [edges[n]] + Taken(edges, from, i + 1, visited + [to]);
      assert t[0] == edges[n];
    } else if e.from == from && e.to !in visited {
      var v' := visited + [e.to];
      assert e.to != to;
      TakenHasFirstEdge(edges, from, to, i + 1, v', n);
      var rest := Taken(edges, from, i + 1, v');
      assert t == [e] + rest;
      var m :| 0 <= m < |rest| && rest[m] == edges[n] && forall m' :: 0 <= m' < m ==> rest[m'].to != to;
      assert t[m + 1] == edges[n];
      assert forall m' :: 0 <= m' < m + 1 ==> t[m'].to != to;
    } else {
      assert t == Taken(edges, from, i + 1, visited);
      TakenHasFirstEdge(edges, from, to, i + 1, visited, n);
    }
  }

  /** With a direct edge between distinct currencies, the result is the rate of the first such edge. */
  lemma RateFirstDirectEdge(edges: seq<ExchangeRate>, from: string, to: string)
    requires from != to && FirstEdge(edges, from, to).Some?
    ensures Rate(edges, from, to) == edges[FirstEdge(edges, from, to).value].rate
  {
    var n := FirstEdge(edges, from, to).value;
    var t := Taken(edges, from, 0, [from]);
    TakenHasFirstEdge(edges, from, to, 0, [from], n);
    var m :| 0 <= m < |t| && t[m] == edges[n] && forall m' :: 0 <= m' < m ==> t[m'].to != to;
    var queue' := [Node(from, 1.0)][1..] + Advance(1.0, t);
    assert queue'[m] == Node(to, 1.0 * edges[n].rate);
    SearchFinds(edges, to, queue', [from] + Targets(t), m);
  }

  // ---------------------------------------------------------------------
  // The resolver object

  /** The national bank's exchange-rate list (`Bnr`). */
  class Bnr {
    var exchangeRates: seq<ExchangeRate>

    /** Every stored rate can be inverted and divided by. */
    ghost predicate Valid()
      reads this
    {
      NonZero(exchangeRates)
    }

    constructor ()
      ensures exchangeRates == [] && Valid()
    {
      exchangeRates := [];
    }

    /**
     * Appends the input rates (a missing list counts as empty), then appends
     * the reciprocal of every edge in the list at that point.
     */
    method SetUp(input: Option<seq<ExchangeRate>>)
      requires Valid()
      requires input.Some? ==> NonZero(input.value)
      modifies this
      ensures var added := if input.Some? then input.value else [];
        exchangeRates == old(exchangeRates) + added + Reciprocals(old(exchangeRates) + added)
      ensures Valid()
    {
      var length := if input.Some? then |input.value| else 0;
      var i := 0;
      while i < length
        invariant 0 <= i <= length
        invariant exchangeRates == old(exchangeRates) + (if input.Some? then input.value[..i] else [])
      {
        exchangeRates := exchangeRates + [input.value[i]];
        i := i + 1;
      }
      assert input.Some? ==> input.value[..length] == input.value;
      CoverAllExchangeRates();
    }

    /** Appends, for each of the current edges in order, its reciprocal (`coverAllExchangeRates`). */
    method CoverAllExchangeRates()
      requires Valid()
      modifies this
      ensures exchangeRates == old(exchangeRates) + Reciprocals(old(exchangeRates))
      ensures Valid()
    {
      ghost var base := exchangeRates;
      var size := |exchangeRates|;
      var i := 0;
      while i < size
        invariant 0 <= i <= size && NonZero(base)
        invariant exchangeRates == base + Reciprocals(base[..i])
      {
        var e := exchangeRates[i];
        assert e == base[i];
        assert base[..i + 1][..i] == base[..i];
        exchangeRates := exchangeRates + [ExchangeRate(e.to, e.from, 1.0 / e.rate, 0)];
        i := i + 1;
      }
      assert base[..size] == base;
      ReciprocalsNonZero(base);
    }

    /** Breadth-first search over the edges in list order; -1 when no conversion exists. */
    method GetExchangeRate(from: string, to: string) returns (r: real)
      ensures r == Rate(exchangeRates, from, to)
    {
      var queue := [Node(from, 1.0)];
      var visited := [from];
      while queue != []
        invariant Search(exchangeRates, to, queue, visited) == Search(exchangeRates, to, [Node(from, 1.0)], [from])
        decreases AllTargets(exchangeRates) - SetOf(visited), |queue|
      {
        var node := queue[0];
        ghost var queue0, visited0 := queue, visited;
        queue := queue[1..];
        if node.currency == to {
          return node.rate;
        }
        ghost var taken: seq<ExchangeRate> := [];
        var i := 0;
        while i < |exchangeRates|
          invariant 0 <= i <= |exchangeRates|
          invariant visited == visited0 + Targets(taken) && queue == queue0[1..] + Advance(node.rate, taken)
          invariant Taken(exchangeRates, node.currency, 0, visited0) == taken + Taken(exchangeRates, node.currency, i, visited)
        {
          var rate := exchangeRates[i];
          if rate.from == node.currency && rate.to !in visited {
            visited := visited + [rate.to];
            queue := queue + [Enqueued(node.rate, rate)];
            AdvanceSnoc(node.rate, taken, rate);
            assert queue == queue0[1..] + (Advance(node.rate, taken) + [Enqueued(node.rate, rate)]);
            assert visited == visited0 + (Targets(taken) + [rate.to]);
            taken := taken + [rate];
          }
          i := i + 1;
        }
        assert taken == Taken(exchangeRates, node.currency, 0, visited0);
        SearchProgress(exchangeRates, node.currency, visited0);
        assert Search(exchangeRates, to, queue0, visited0) == Search(exchangeRates, to, queue, visited);
      }
      return -1.0;
    }
  }
}
