/** Directed graphs over names: walks, cycles and topological arrangements. */
module Graph {
  import opened Domain

  /** Each node with its direct dependencies. */
  type Graph = map<Name, set<Name>>

  predicate Edge(g: Graph, n: Name, d: Name) {
    n in g && d in g[n]
  }

  /** Every dependency is itself a node. */
  ghost predicate SelfContained(g: Graph) {
    forall n :: n in g ==> g[n] <= g.Keys
  }

  ghost predicate Walk(g: Graph, p: seq<Name>) {
    p != [] && forall i :: 0 <= i < |p| - 1 ==> Edge(g, p[i], p[i + 1])
  }

  /** A walk of at least one edge that ends where it began. */
  ghost predicate Cycle(g: Graph, p: seq<Name>) {
    Walk(g, p) && |p| > 1 && p[0] == p[|p| - 1]
  }

  ghost predicate Acyclic(g: Graph) {
    !exists p :: Cycle(g, p)
  }

  /** d is a dependency of n, directly or through others. */
  ghost predicate Reaches(g: Graph, n: Name, d: Name) {
    exists p :: Walk(g, p) && |p| > 1 && p[0] == n && p[|p| - 1] == d
  }

  ghost predicate Distinct(s: seq<Name>) {
    forall i, j :: 0 <= i < j < |s| ==> s[i] != s[j]
  }

  /** Lists every node once, each after all its dependencies. */
  ghost predicate Topological(g: Graph, order: seq<Name>) {
    && Distinct(order)
    && (forall n :: n in order <==> n in g)
    && (forall i :: 0 <= i < |order| ==> forall d :: d in g[order[i]] ==> d in order[..i])
  }

  function IndexOf(s: seq<Name>, n: Name): (i: nat)
    requires n in s
    ensures i < |s| && s[i] == n
    ensures n !in s[..i]
  {
    if s[0] == n then 0 else 1 + IndexOf(s[1..], n)
  }

  lemma {:induction false} IndexDecreases(g: Graph, order: seq<Name>, n: Name, d: Name)
    requires Topological(g, order) && Edge(g, n, d)
    ensures n in order && d in order && IndexOf(order, d) < IndexOf(order, n)
  {
    var i := IndexOf(order, n);
    assert d in order[..i];
    var j :| 0 <= j < i && order[j] == d;
    var k := IndexOf(order, d);
    assert order[k] == order[j];
  }

  /** Along a walk the position in a topological order goes down. */
  lemma {:induction false} WalkDescends(g: Graph, order: seq<Name>, p: seq<Name>)
    requires Topological(g, order) && Walk(g, p) && |p| > 1
    ensures p[0] in order && p[|p| - 1] in order
    ensures IndexOf(order, p[|p| - 1]) < IndexOf(order, p[0])
    decreases |p|
  {
    IndexDecreases(g, order, p[0], p[1]);
    if |p| > 2 {
      WalkSlice(g, p, 1, |p|);
      assert p[1..|p|] == p[1..];
      WalkDescends(g, order, p[1..]);
    }
  }

  lemma {:induction false} TopologicalIsAcyclic(g: Graph, order: seq<Name>)
    requires Topological(g, order)
    ensures Acyclic(g)
  {
    forall p | Cycle(g, p) ensures false {
      WalkDescends(g, order, p);
    }
  }

  /** Pigeonhole: a sequence longer than the set it draws from repeats an element. */
  lemma {:induction false} Pigeonhole(p: seq<Name>, s: set<Name>) returns (i: nat, j: nat)
    requires |p| > |s| && forall x :: x in p ==> x in s
    ensures i < j < |p| && p[i] == p[j]
    decreases |s|
  {
    var x := p[0];
    if x in p[1..] {
      i := 0;
      j :| 0 < j < |p| && p[j] == x by {
        var k :| 0 <= k < |p[1..]| && p[1..][k] == x;
        assert p[k + 1] == x;
      }
    } else {
      assert x in s;
      i, j := Pigeonhole(p[1..], s - {x});
      i, j := i + 1, j + 1;
    }
  }

  /** x has an edge into s. */
  ghost predicate HasNext(g: Graph, s: set<Name>, x: Name) {
    exists d :: d in s && Edge(g, x, d)
  }

  /** No member of s is without an edge into s. */
  ghost predicate Trapped(g: Graph, s: set<Name>) {
    forall x :: x in s ==> HasNext(g, s, x)
  }

  lemma {:induction false} WalkExtends(g: Graph, p: seq<Name>, d: Name)
    requires Walk(g, p) && Edge(g, p[|p| - 1], d)
    ensures Walk(g, p + [d])
  {
    var q := p + [d];
    forall i | 0 <= i < |q| - 1 ensures Edge(g, q[i], q[i + 1]) {
      if i < |p| - 1 {
        assert Edge(g, p[i], p[i + 1]);
      }
    }
  }

  /** A walk of k edges inside a trapped set. */
  lemma {:induction false} WalkInside(g: Graph, s: set<Name>, n: Name, k: nat) returns (p: seq<Name>)
    requires n in s && Trapped(g, s)
    ensures |p| == k + 1 && Walk(g, p) && p[0] == n && forall x :: x in p ==> x in s
  {
    hide Trapped;
    if k == 0 {
      p := [n];
    } else {
      var q := WalkInside(g, s, n, k - 1);
      var d := NextIn(g, s, q[k - 1]);
      WalkExtends(g, q, d);
      p := q + [d];
    }
  }

  lemma {:induction false} NextIn(g: Graph, s: set<Name>, x: Name) returns (d: Name)
    requires x in s && Trapped(g, s)
    ensures d in s && Edge(g, x, d)
  {
    assert HasNext(g, s, x);
    hide Trapped;
    d :| d in s && Edge(g, x, d);
  }

  lemma {:induction false} WalkSlice(g: Graph, p: seq<Name>, i: nat, j: nat)
    requires Walk(g, p) && i < j <= |p|
    ensures Walk(g, p[i..j])
  {
    var q := p[i..j];
    forall k | 0 <= k < |q| - 1 ensures Edge(g, q[k], q[k + 1]) {
      assert Edge(g, p[i + k], p[i + k + 1]);
    }
  }

  /** From every member of a trapped set a cycle is reachable. */
  lemma {:induction false} TrappedReachesCycle(g: Graph, s: set<Name>, n: Name)
    requires n in s && Trapped(g, s)
    ensures ReachesCycle(g, n)
  {
    hide Trapped;
    var p := WalkInside(g, s, n, |s|);
    var i, j := Pigeonhole(p, s);
    WalkSlice(g, p, 0, i + 1);
    WalkSlice(g, p, i, j + 1);
    hide Walk;
    var lead, loop := p[0..i + 1], p[i..j + 1];
    assert Cycle(g, loop) && lead[0] == n && lead[|lead| - 1] == loop[0];
  }

  /** A walk leads from n to a node on a cycle (perhaps n itself). */
  ghost predicate ReachesCycle(g: Graph, n: Name) {
    exists lead, loop ::
      Walk(g, lead) && Cycle(g, loop) && lead[0] == n && lead[|lead| - 1] == loop[0]
  }

  /** One more edge in front of a walk. */
  lemma {:induction false} WalkFrom(g: Graph, n: Name, p: seq<Name>)
    requires Walk(g, p) && Edge(g, n, p[0])
    ensures Walk(g, [n] + p)
  {
    var q := [n] + p;
    forall i | 0 <= i < |q| - 1 ensures Edge(g, q[i], q[i + 1]) {
      if i > 0 {
        assert Edge(g, p[i - 1], p[i]);
      }
    }
  }

  lemma {:induction false} ReachesThrough(g: Graph, n: Name, d: Name, e: Name)
    requires Edge(g, n, d) && (d == e || Reaches(g, d, e))
    ensures Reaches(g, n, e)
  {
    if d == e {
      assert Walk(g, [n, e]);
    } else {
      var p :| Walk(g, p) && |p| > 1 && p[0] == d && p[|p| - 1] == e;
      WalkFrom(g, n, p);
      var q := [n] + p;
      assert q[|q| - 1] == e;
    }
  }

  /** A set closed under dependencies that contains those of n contains everything n reaches. */
  lemma {:induction false} ClosedSetHasAll(g: Graph, n: Name, s: set<Name>, p: seq<Name>)
    requires Walk(g, p) && |p| > 1 && p[0] == n
    requires n in g && g[n] <= s && forall x :: x in s && x in g ==> g[x] <= s
    ensures p[|p| - 1] in s
    decreases |p|
  {
    assert Edge(g, p[0], p[1]);
    if |p| > 2 {
      assert Edge(g, p[1], p[2]);
      WalkSlice(g, p, 1, |p|);
      assert p[1..|p|] == p[1..];
      ClosedSetHasAll(g, p[1], s, p[1..]);
    }
  }
}
