/** The dependency closure of a sidecar and the chain in which `start` brings it up. */
module Closure {
  import opened Domain
  import opened Graph

  /** The registered sidecars; each is stored under its own name. */
  type Handles = map<Name, Config>

  function HandleGraph(handles: Handles): Graph {
    map n | n in handles :: set d | d in handles[n].dependsOn
  }

  /** Everything any sidecar depends on. */
  function AllDeps(handles: Handles): set<Name> {
    set n, d | n in handles && d in handles[n].dependsOn :: d
  }

  /** The hash set that collect_deps fills. */
  class NameSet {
    var elems: set<Name>

    constructor ()
      ensures elems == {}
    {
      elems := {};
    }

    method Insert(n: Name) returns (added: bool)
      modifies this
      ensures elems == old(elems) + {n} && added == (n !in old(elems))
    {
      added := n !in elems;
      elems := elems + {n};
    }
  }

  /**
   collect_deps: visits each name at most once, so it ends on cyclic graphs too. What it adds is
   reachable from `name`, and what it added is closed under dependencies.
   */
  method CollectDeps(name: Name, handles: Handles, out: NameSet)
    modifies out
    ensures old(out.elems) <= out.elems
    ensures name in handles ==> HandleGraph(handles)[name] <= out.elems
    ensures forall x :: x in out.elems && x !in old(out.elems) ==> Reaches(HandleGraph(handles), name, x)
    ensures forall x :: x in out.elems && x !in old(out.elems) && x in handles ==>
      HandleGraph(handles)[x] <= out.elems
    decreases AllDeps(handles) - out.elems
  {
    if name in handles {
      ghost var g := HandleGraph(handles);
      var deps := handles[name].dependsOn;
      for i := 0 to |deps|
        invariant old(out.elems) <= out.elems
        invariant forall d :: d in deps[..i] ==> d in out.elems
        invariant forall x :: x in out.elems && x !in old(out.elems) ==> Reaches(g, name, x)
        invariant forall x :: x in out.elems && x !in old(out.elems) && x in handles ==> g[x] <= out.elems
      {
        var dep := deps[i];
        assert Edge(g, name, dep);
        ghost var before := out.elems;
        var added := out.Insert(dep);
        ReachesThrough(g, name, dep, dep);
        if added {
          assert dep in AllDeps(handles);
          CollectDeps(dep, handles, out);
          forall x | x in out.elems && x !in before ensures Reaches(g, name, x) {
            if x != dep {
              ReachesThrough(g, name, dep, x);
            }
          }
        }
        assert deps[..i + 1] == deps[..i] + [dep];
      }
      assert deps[..|deps|] == deps;
    }
  }

  /** Computes exactly the names reachable by one or more dependency edges. */
  method Dependencies(name: Name, handles: Handles) returns (needed: set<Name>)
    ensures forall x :: x in needed <==> Reaches(HandleGraph(handles), name, x)
  {
    var out := new NameSet();
    CollectDeps(name, handles, out);
    needed := out.elems;
    ghost var g := HandleGraph(handles);
    forall x | Reaches(g, name, x) ensures x in needed {
      var p :| Walk(g, p) && |p| > 1 && p[0] == name && p[|p| - 1] == x;
      assert Edge(g, p[0], p[1]);
      ClosedSetHasAll(g, name, needed, p);
    }
  }

  /** The entries of `order` that belong to `keep`, in the same order. */
  function Filter(order: seq<Name>, keep: set<Name>): seq<Name> {
    if order == [] then []
    else
      var last := order[|order| - 1];
      Filter(order[..|order| - 1], keep) + if last in keep then [last] else []
  }

  /** Nodes of g, each after all its dependencies. */
  ghost predicate Ordered(g: Graph, s: seq<Name>) {
    forall i :: 0 <= i < |s| ==> s[i] in g && forall d :: d in g[s[i]] ==> d in s[..i]
  }

  /**
   A chain for `name`: its members are `name` and everything it reaches, each once and after all
   its own dependencies, and `name` comes last.
   */
  ghost predicate IsChain(g: Graph, name: Name, chain: seq<Name>) {
    && Distinct(chain)
    && (forall x :: x in chain <==> x == name || Reaches(g, name, x))
    && Ordered(g, chain)
    && chain != [] && chain[|chain| - 1] == name
  }

  /** The entries of s come in the order in which `order` has them. */
  ghost predicate KeepsOrder(order: seq<Name>, s: seq<Name>) {
    forall i, j :: 0 <= i < j < |s| ==> exists p, q :: 0 <= p < q < |order| && order[p] == s[i] && order[q] == s[j]
  }

  lemma {:induction false} FilterKeepsOrder(order: seq<Name>, keep: set<Name>)
    ensures KeepsOrder(order, Filter(order, keep))
  {
    if order != [] {
      var most, last := order[..|order| - 1], order[|order| - 1];
      FilterKeepsOrder(most, keep);
      FilterMembers(most, keep);
      var s, t := Filter(most, keep), Filter(order, keep);
      hide Filter;
      forall i, j | 0 <= i < j < |t| ensures exists p, q :: 0 <= p < q < |order| && order[p] == t[i] && order[q] == t[j] {
        if j < |s| {
          var p, q :| 0 <= p < q < |most| && most[p] == s[i] && most[q] == s[j];
          assert order[p] == t[i] && order[q] == t[j];
        } else {
          assert s[i] in most;
          var p :| 0 <= p < |most| && most[p] == s[i];
          assert order[p] == t[i] && order[|most|] == t[j];
        }
      }
    }
  }

  lemma {:induction false} FilterMembers(order: seq<Name>, keep: set<Name>)
    ensures forall x :: x in Filter(order, keep) <==> x in order && x in keep
  {
    if order != [] {
      var most := order[..|order| - 1];
      FilterMembers(most, keep);
      assert order == most + [order[|order| - 1]];
    }
  }

  /** Filtering keeps distinctness and the order of dependencies. */
  lemma {:induction false} FilterOrdered(g: Graph, order: seq<Name>, keep: set<Name>)
    requires Distinct(order) && Ordered(g, order)
    requires forall x :: x in keep && x in g ==> g[x] <= keep
    ensures Distinct(Filter(order, keep)) && Ordered(g, Filter(order, keep))
  {
    if order != [] {
      var most, last := order[..|order| - 1], order[|order| - 1];
      assert order == most + [last];
      assert forall i :: 0 <= i < |most| ==> most[i] == order[i] && most[..i] == order[..i];
      FilterOrdered(g, most, keep);
      FilterMembers(most, keep);
      if last in keep {
        OrderedGrows(g, Filter(most, keep), last);
      } else {
        assert Filter(order, keep) == Filter(most, keep);
      }
    }
  }

  lemma {:induction false} OrderedGrows(g: Graph, s: seq<Name>, x: Name)
    requires Ordered(g, s) && x in g && forall d :: d in g[x] ==> d in s
    ensures Ordered(g, s + [x])
  {
    var t := s + [x];
    forall i | 0 <= i < |t| ensures t[i] in g && forall d :: d in g[t[i]] ==> d in t[..i] {
      assert t[..i] == s[..i];
    }
  }

  /** In a topological order, whatever reaches `name` comes after it: `name` ends its own chain. */
  lemma {:induction false} FilterIsChain(g: Graph, order: seq<Name>, name: Name, needed: set<Name>)
    requires Topological(g, order) && SelfContained(g) && name in g
    requires forall x :: x in needed <==> Reaches(g, name, x)
    ensures IsChain(g, name, Filter(order, needed + {name}))
  {
    var keep := needed + {name};
    OrderIsOrdered(g, order);
    KeptIsClosed(g, name, needed);
    FilterMembers(order, keep);
    assert Distinct(order) && forall x :: x in keep ==> x in order;
    hide *;
    FilterOrdered(g, order, keep);
    NameIsLast(g, name, Filter(order, keep));
    ChainOf(g, name, Filter(order, keep));
  }

  lemma {:induction false} ChainOf(g: Graph, name: Name, chain: seq<Name>)
    requires Distinct(chain) && Ordered(g, chain) && (forall x :: x in chain <==> x == name || Reaches(g, name, x))
    requires chain != [] && chain[|chain| - 1] == name
    ensures IsChain(g, name, chain)
  {
    hide Distinct, Ordered, Reaches;
  }

  /** A name and all that it reaches: their dependencies are among them. */
  lemma {:induction false} KeptIsClosed(g: Graph, name: Name, needed: set<Name>)
    requires SelfContained(g) && name in g
    requires forall x :: x in needed <==> Reaches(g, name, x)
    ensures forall x :: x in needed + {name} ==> x in g && g[x] <= needed + {name}
  {
    hide Reaches, SelfContained;
    forall x | x in needed ensures x in g && g[x] <= needed {
      NeededIsClosed(g, name, x);
    }
    forall d | d in g[name] ensures d in needed {
      ReachesThrough(g, name, d, d);
    }
  }

  lemma {:induction false} OrderIsOrdered(g: Graph, order: seq<Name>)
    requires Topological(g, order)
    ensures Ordered(g, order)
  {
    forall i | 0 <= i < |order| ensures order[i] in g && forall d :: d in g[order[i]] ==> d in order[..i] {
      assert order[i] in order;
    }
  }

  lemma {:induction false} NameIsLast(g: Graph, name: Name, chain: seq<Name>)
    requires Distinct(chain) && name in chain && Ordered(g, chain)
    requires forall x :: x in chain ==> x == name || Reaches(g, name, x)
    ensures chain != [] && chain[|chain| - 1] == name
  {
    var i :| 0 <= i < |chain| && chain[i] == name;
    var last := |chain| - 1;
    assert chain[last] in chain && chain[last] !in chain[..i];
    if chain[last] != name {
      var p :| Walk(g, p) && |p| > 1 && p[0] == name && p[|p| - 1] == chain[last];
      WalkStaysBefore(g, chain, p, i);
      assert false;
    }
  }

  lemma {:induction false} NeededIsClosed(g: Graph, name: Name, x: Name)
    requires SelfContained(g) && Reaches(g, name, x)
    ensures x in g && forall d :: d in g[x] ==> Reaches(g, name, d)
  {
    var p :| Walk(g, p) && |p| > 1 && p[0] == name && p[|p| - 1] == x;
    assert Edge(g, p[|p| - 2], p[|p| - 1]);
    forall d | d in g[x] ensures Reaches(g, name, d) {
      WalkExtends(g, p, d);
      var q := p + [d];
      assert q[0] == name && q[|q| - 1] == d;
    }
  }

  /** A walk from the i-th member of a chain ends at an earlier member. */
  lemma {:induction false} WalkStaysBefore(g: Graph, chain: seq<Name>, p: seq<Name>, i: nat)
    requires i < |chain| && Walk(g, p) && |p| > 1 && p[0] == chain[i]
    requires Ordered(g, chain)
    ensures p[|p| - 1] in chain[..i]
    decreases |p|
  {
    assert Edge(g, p[0], p[1]);
    assert p[1] in chain[..i];
    if |p| > 2 {
      var j :| 0 <= j < i && chain[j] == p[1];
      WalkSlice(g, p, 1, |p|);
      WalkStaysBefore(g, chain, p[1..|p|], j);
    }
  }

  /** The chain that `start` walks. */
  method ChainFor(name: Name, handles: Handles, order: seq<Name>) returns (chain: seq<Name>)
    requires Topological(HandleGraph(handles), order) && SelfContained(HandleGraph(handles)) && name in handles
    ensures IsChain(HandleGraph(handles), name, chain) && KeepsOrder(order, chain)
  {
    var needed := Dependencies(name, handles);
    chain := [];
    for i := 0 to |order|
      invariant chain == Filter(order[..i], needed + {name})
    {
      assert order[..i + 1][..i] == order[..i];
      if order[i] in needed || order[i] == name {
        chain := chain + [order[i]];
      }
    }
    assert order[..|order|] == order;
    FilterIsChain(HandleGraph(handles), order, name, needed);
    FilterKeepsOrder(order, needed + {name});
  }
}
