/** Finite directed graphs: the reference notions of path, reachability and
    cycle that the task engine and the artifact graph are compared with. */
module Graphs {
  type Edges = set<(nat, nat)>

  ghost predicate IsPath(e: Edges, p: seq<nat>) {
    |p| >= 1 && forall i :: 0 < i < |p| ==> (p[i - 1], p[i]) in e
  }

  /** A path of zero or more edges leads from a to b. */
  ghost predicate Reaches(e: Edges, a: nat, b: nat) {
    exists p :: IsPath(e, p) && p[0] == a && p[|p| - 1] == b
  }

  /** A path of one or more edges leads from a to b. */
  ghost predicate ReachesPlus(e: Edges, a: nat, b: nat) {
    exists p :: IsPath(e, p) && |p| >= 2 && p[0] == a && p[|p| - 1] == b
  }

  ghost predicate Acyclic(e: Edges) {
    forall n :: !ReachesPlus(e, n, n)
  }

  ghost predicate Closed(e: Edges, s: set<nat>) {
    forall a, b :: (a, b) in e && a in s ==> b in s
  }

  lemma ReachesSelf(e: Edges, a: nat)
    ensures Reaches(e, a, a)
  {
    assert IsPath(e, [a]);
  }

  lemma ReachesStep(e: Edges, a: nat, b: nat, c: nat)
    requires Reaches(e, a, b) && (b, c) in e
    ensures Reaches(e, a, c) && ReachesPlus(e, a, c)
  {
    var p :| IsPath(e, p) && p[0] == a && p[|p| - 1] == b;
    assert IsPath(e, p + [c]);
  }

  /** A first edge followed by any path is a path of one or more edges. */
  lemma ReachesFrom(e: Edges, a: nat, b: nat, c: nat)
    requires (a, b) in e && Reaches(e, b, c)
    ensures Reaches(e, a, c) && ReachesPlus(e, a, c)
  {
    var p :| IsPath(e, p) && p[0] == b && p[|p| - 1] == c;
    assert IsPath(e, [a] + p);
  }

  lemma {:induction false} PathStaysInClosed(e: Edges, s: set<nat>, p: seq<nat>)
    requires Closed(e, s) && IsPath(e, p) && p[0] in s
    ensures p[|p| - 1] in s
  {
    if |p| > 1 {
      assert (p[0], p[1]) in e;
      PathStaysInClosed(e, s, p[1..]);
    }
  }

  /** The set a search returns is exactly the reachable set once it contains
      the start, is closed under edges, and holds only reachable nodes. */
  lemma ClosedIsReachable(e: Edges, s: set<nat>, a: nat)
    requires a in s && Closed(e, s) && forall n :: n in s ==> Reaches(e, a, n)
    ensures forall n :: n in s <==> Reaches(e, a, n)
  {
    forall n | Reaches(e, a, n)
      ensures n in s
    {
      var p :| IsPath(e, p) && p[0] == a && p[|p| - 1] == n;
      PathStaysInClosed(e, s, p);
    }
  }

  /** Same, for a set that is seeded with the successors of a. */
  lemma ClosedIsReachablePlus(e: Edges, s: set<nat>, a: nat)
    requires forall b :: (a, b) in e ==> b in s
    requires Closed(e, s) && forall n :: n in s ==> ReachesPlus(e, a, n)
    ensures forall n :: n in s <==> ReachesPlus(e, a, n)
  {
    forall n | ReachesPlus(e, a, n)
      ensures n in s
    {
      var p :| IsPath(e, p) && |p| >= 2 && p[0] == a && p[|p| - 1] == n;
      assert (p[0], p[1]) in e;
      PathStaysInClosed(e, s, p[1..]);
    }
  }

  lemma PlusStep(e: Edges, a: nat, b: nat, c: nat)
    requires ReachesPlus(e, a, b) && (b, c) in e
    ensures ReachesPlus(e, a, c)
  {
    var p :| IsPath(e, p) && |p| >= 2 && p[0] == a && p[|p| - 1] == b;
    assert IsPath(e, p + [c]);
  }

  /** A worklist search from root that may queue a node many times. */
  ghost predicate Searching(e: Edges, queue: seq<nat>, done: set<nat>, root: nat) {
    && (root in done || root in queue)
    && (forall n :: n in queue || n in done ==> Reaches(e, root, n))
    && (forall n, c :: (n, c) in e && n in done ==> c in done || c in queue)
  }

  lemma SearchStep(e: Edges, queue: seq<nat>, done: set<nat>, root: nat, kids: seq<nat>)
    requires Searching(e, queue, done, root) && queue != []
    requires forall c :: c in kids <==> (queue[0], c) in e
    ensures Searching(e, queue[1..] + kids, done + {queue[0]}, root)
  {
    assert queue == [queue[0]] + queue[1..];
    forall c | c in kids
      ensures Reaches(e, root, c)
    {
      ReachesStep(e, root, queue[0], c);
    }
  }

  lemma SearchDone(e: Edges, done: set<nat>, root: nat)
    requires Searching(e, [], done, root)
    ensures forall n :: n in done <==> Reaches(e, root, n)
  {
    ClosedIsReachable(e, done, root);
  }

  /** A path whose end occurs on it before has gone round a cycle. */
  lemma StackCloses(e: Edges, stack: seq<nat>)
    requires IsPath(e, stack) && stack[|stack| - 1] in stack[..|stack| - 1]
    ensures !Acyclic(e)
  {
    var node := stack[|stack| - 1];
    var i :| 0 <= i < |stack| - 1 && stack[i] == node;
    assert IsPath(e, stack[i..]);
    assert ReachesPlus(e, node, node);
  }

  /** Every node of s has a successor in s. */
  ghost predicate Endless(e: Edges, s: set<nat>) {
    s != {} && forall n :: n in s ==> HasNext(e, s, n)
  }

  ghost predicate HasNext(e: Edges, s: set<nat>, n: nat) {
    exists m :: m in s && (n, m) in e
  }

  lemma {:induction false} LongPath(e: Edges, s: set<nat>, n: nat) returns (p: seq<nat>)
    requires Endless(e, s)
    ensures |p| == n + 1 && IsPath(e, p) && forall k :: 0 <= k < |p| ==> p[k] in s
  {
    if n == 0 {
      var start :| start in s;
      return [start];
    }
    p := LongPath(e, s, n - 1);
    assert HasNext(e, s, p[|p| - 1]);
    var m :| m in s && (p[|p| - 1], m) in e;
    p := p + [m];
  }

  /** More elements than there are values: some value comes twice. */
  lemma {:induction false} Pigeonhole(p: seq<nat>, s: set<nat>) returns (j: nat)
    requires |p| > |s| && forall k :: 0 <= k < |p| ==> p[k] in s
    ensures j < |p| && p[j] in p[..j]
    decreases |s|
  {
    var n := |p| - 1;
    if p[n] in p[..n] {
      return n;
    }
    assert forall k :: 0 <= k < n ==> p[..n][k] in s - {p[n]};
    j := Pigeonhole(p[..n], s - {p[n]});
    assert p[..n][..j] == p[..j];
  }

  lemma EndlessIsCyclic(e: Edges, s: set<nat>)
    requires Endless(e, s)
    ensures !Acyclic(e)
  {
    var p := LongPath(e, s, |s|);
    var j := Pigeonhole(p, s);
    assert p[..j + 1][..j] == p[..j];
    StackCloses(e, p[..j + 1]);
  }
}
