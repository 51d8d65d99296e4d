/** Dependency ordering: Kahn's algorithm with repeated dependencies counted by multiplicity. */
module Ordering {
  import opened Domain
  import opened Graph
  import opened NameOrder
  import opened OrderRule

  // ---------------------------------------------------------------------------------------
  // The dependency graph of a configuration list
  // ---------------------------------------------------------------------------------------

  function NamesOf(cs: seq<Config>): set<Name> {
    set c | c in cs :: c.name
  }

  function DepsOf(cs: seq<Config>, n: Name): set<Name> {
    set c, d | c in cs && c.name == n && d in c.dependsOn :: d
  }

  function GraphOf(cs: seq<Config>): Graph {
    map n | n in NamesOf(cs) :: DepsOf(cs, n)
  }

  ghost predicate DistinctNames(cs: seq<Config>) {
    forall i, j :: 0 <= i < j < |cs| ==> cs[i].name != cs[j].name
  }

  /** Every dependency is the name of some sidecar. */
  ghost predicate Known(cs: seq<Config>) {
    forall c, d :: c in cs && d in c.dependsOn ==> d in NamesOf(cs)
  }

  /** The first dependency, in configuration order, that names no sidecar. */
  ghost predicate FirstUnknown(cs: seq<Config>, n: Name, d: Name) {
    exists i, j ::
      && 0 <= i < |cs| && 0 <= j < |cs[i].dependsOn|
      && n == cs[i].name && d == cs[i].dependsOn[j] && d !in NamesOf(cs)
      && (forall e :: e in cs[i].dependsOn[..j] ==> e in NamesOf(cs))
      && (forall c, e :: c in cs[..i] && e in c.dependsOn ==> e in NamesOf(cs))
  }

  // ---------------------------------------------------------------------------------------
  // The edges with multiplicity
  // ---------------------------------------------------------------------------------------

  /** A (dependent, dependency) pair for each of the first j entries of `dependsOn`. */
  function PairsOf(c: Config, j: nat): seq<(Name, Name)>
    requires j <= |c.dependsOn|
  {
    if j == 0 then [] else PairsOf(c, j - 1) + [(c.name, c.dependsOn[j - 1])]
  }

  function Pairs(cs: seq<Config>, i: nat): seq<(Name, Name)>
    requires i <= |cs|
  {
    if i == 0 then [] else Pairs(cs, i - 1) + PairsOf(cs[i - 1], |cs[i - 1].dependsOn|)
  }

  /** How many dependencies of n, with multiplicity, are not yet done. */
  function InDegree(es: seq<(Name, Name)>, n: Name, done: set<Name>): nat {
    if es == [] then 0
    else
      var e := es[|es| - 1];
      InDegree(es[..|es| - 1], n, done) + if e.0 == n && e.1 !in done then 1 else 0
  }

  /** The dependents of d, in order, once per repeated dependency. */
  function Dependents(es: seq<(Name, Name)>, d: Name): seq<Name> {
    if es == [] then []
    else
      var e := es[|es| - 1];
      Dependents(es[..|es| - 1], d) + if e.1 == d then [e.0] else []
  }

  function Count(s: seq<Name>, n: Name): nat {
    multiset(s)[n]
  }

  lemma {:induction false} PairsGrow(es: seq<(Name, Name)>, e: (Name, Name))
    ensures forall n, done :: InDegree(es + [e], n, done) == InDegree(es, n, done) + if e.0 == n && e.1 !in done then 1 else 0
    ensures forall d :: Dependents(es + [e], d) == Dependents(es, d) + if e.1 == d then [e.0] else []
  {
    assert (es + [e])[..|es|] == es;
  }

  lemma {:induction false} PairsOfMembers(c: Config, j: nat)
    requires j <= |c.dependsOn|
    ensures forall e :: e in PairsOf(c, j) <==> e.0 == c.name && e.1 in c.dependsOn[..j]
  {
    if j > 0 {
      PairsOfMembers(c, j - 1);
      assert c.dependsOn[..j] == c.dependsOn[..j - 1] + [c.dependsOn[j - 1]];
    }
  }

  lemma {:induction false} PairsMembers(cs: seq<Config>, i: nat)
    requires i <= |cs|
    ensures forall n, d :: (n, d) in Pairs(cs, i) <==> exists c :: c in cs[..i] && c.name == n && d in c.dependsOn
  {
    if i > 0 {
      var c := cs[i - 1];
      PairsMembers(cs, i - 1);
      PairsOfMembers(c, |c.dependsOn|);
      assert c.dependsOn[..|c.dependsOn|] == c.dependsOn;
      assert cs[..i] == cs[..i - 1] + [c];
      assert Pairs(cs, i) == Pairs(cs, i - 1) + PairsOf(c, |c.dependsOn|);
    }
  }

  /** The pairs of the whole list are the edges of its graph. */
  lemma {:induction false} PairsAreEdges(cs: seq<Config>)
    ensures forall n, d :: (n, d) in Pairs(cs, |cs|) <==> Edge(GraphOf(cs), n, d)
  {
    PairsMembers(cs, |cs|);
    assert cs[..|cs|] == cs;
    forall n, d ensures (n, d) in Pairs(cs, |cs|) <==> Edge(GraphOf(cs), n, d) {
      if (n, d) in Pairs(cs, |cs|) {
        var c :| c in cs && c.name == n && d in c.dependsOn;
        assert n in NamesOf(cs) && d in DepsOf(cs, n);
      }
    }
  }

  /** Finishing d lowers each in-degree by the number of times it depends on d. */
  lemma {:induction false} FinishLowers(es: seq<(Name, Name)>, n: Name, done: set<Name>, d: Name)
    requires d !in done
    ensures InDegree(es, n, done) == InDegree(es, n, done + {d}) + Count(Dependents(es, d), n)
  {
    if es != [] {
      FinishLowers(es[..|es| - 1], n, done, d);
    }
  }

  lemma {:induction false} ZeroMeansDone(es: seq<(Name, Name)>, n: Name, done: set<Name>)
    ensures InDegree(es, n, done) == 0 <==> forall d :: (n, d) in es ==> d in done
  {
    if es != [] {
      var most, e := es[..|es| - 1], es[|es| - 1];
      ZeroMeansDone(most, n, done);
      assert es == most + [e];
    }
  }

  lemma {:induction false} DependentsMembers(es: seq<(Name, Name)>, d: Name)
    ensures forall n :: n in Dependents(es, d) <==> (n, d) in es
  {
    if es != [] {
      var most, e := es[..|es| - 1], es[|es| - 1];
      DependentsMembers(most, d);
      assert es == most + [e];
    }
  }

  // ---------------------------------------------------------------------------------------
  // The algorithm as a function of its initial queue
  // ---------------------------------------------------------------------------------------

  datatype Kahn = Kahn(degree: map<Name, nat>, queue: seq<Name>, order: seq<Name>)

  /** One round of the inner loop. */
  function Lower(k: Kahn, n: Name): Kahn {
    if n !in k.degree || k.degree[n] == 0 then k
    else
      var d := k.degree[n] - 1;
      k.(degree := k.degree[n := d], queue := if d == 0 then k.queue + [n] else k.queue)
  }

  function LowerAll(k: Kahn, ns: seq<Name>): Kahn {
    if ns == [] then k else Lower(LowerAll(k, ns[..|ns| - 1]), ns[|ns| - 1])
  }

  /** The pop at the head of the outer loop. */
  function Popped(k: Kahn): Kahn
    requires k.queue != []
  {
    var last := |k.queue| - 1;
    k.(queue := k.queue[..last], order := k.order + [k.queue[last]])
  }

  function Round(es: seq<(Name, Name)>, k: Kahn): Kahn {
    if k.queue == [] then k else LowerAll(Popped(k), Dependents(es, k.queue[|k.queue| - 1]))
  }

  function Rounds(es: seq<(Name, Name)>, k: Kahn, m: nat): Kahn {
    if m == 0 then k else Round(es, Rounds(es, k, m - 1))
  }

  function InitialDegree(cs: seq<Config>): map<Name, nat> {
    map n | n in NamesOf(cs) :: InDegree(Pairs(cs, |cs|), n, {})
  }

  ghost function SomeArrangement(s: set<Name>): (r: seq<Name>)
    ensures multiset(r) == multiset(s)
  {
    if s == {} then []
    else
      var x :| x in s;
      assert multiset(s) == multiset(s - {x}) + multiset{x};
      [x] + SomeArrangement(s - {x})
  }

  /** The sorted names without dependencies. */
  ghost function InitialQueue(cs: seq<Config>): seq<Name> {
    Sort(SomeArrangement(set n | n in NamesOf(cs) && InitialDegree(cs)[n] == 0))
  }

  /** The order in which the sidecars are processed, whatever the hash maps iterate like. */
  ghost function KahnOrder(cs: seq<Config>): seq<Name> {
    Rounds(Pairs(cs, |cs|), Kahn(InitialDegree(cs), InitialQueue(cs), []), |cs|).order
  }

  // ---------------------------------------------------------------------------------------
  // What the outer loop keeps
  // ---------------------------------------------------------------------------------------

  function ToSet(s: seq<Name>): set<Name> {
    set n | n in s
  }

  ghost predicate KahnInv(names: set<Name>, es: seq<(Name, Name)>, k: Kahn) {
    && k.degree.Keys == names
    && (forall n :: n in names ==> k.degree[n] == InDegree(es, n, ToSet(k.order)))
    && Queued(names, k)
    && (forall i, d :: 0 <= i < |k.order| && (k.order[i], d) in es ==> d in k.order[..i])
  }

  /** Queue and order hold exactly the names of in-degree zero, each once. */
  ghost predicate Queued(names: set<Name>, k: Kahn) {
    && k.degree.Keys == names
    && Distinct(k.order + k.queue)
    && (forall n :: n in k.order || n in k.queue <==> n in names && k.degree[n] == 0)
  }

  lemma {:induction false} LowerKeepsQueued(names: set<Name>, k: Kahn, n: Name)
    requires Queued(names, k) && n in names && k.degree[n] > 0
    ensures Queued(names, Lower(k, n))
  {
    var k' := Lower(k, n);
    assert n !in k.order && n !in k.queue;
    if k'.degree[n] == 0 {
      assert k'.order + k'.queue == (k.order + k.queue) + [n];
    }
  }

  /** In-degrees while the dependents of the popped name are being lowered. */
  lemma {:induction false} LowerAllInv(names: set<Name>, k: Kahn, ns: seq<Name>)
    requires Queued(names, k) && forall n :: n in ns ==> n in names
    requires forall n :: n in names ==> k.degree[n] >= Count(ns, n)
    ensures
      var k' := LowerAll(k, ns);
      && Queued(names, k') && k'.order == k.order
      && forall n :: n in names ==> k'.degree[n] == k.degree[n] - Count(ns, n)
  {
    if ns != [] {
      var most, n := ns[..|ns| - 1], ns[|ns| - 1];
      assert ns == most + [n];
      LowerAllInv(names, k, most);
      LowerKeepsQueued(names, LowerAll(k, most), n);
    }
  }

  lemma {:induction false} PoppedKeeps(names: set<Name>, k: Kahn)
    requires Queued(names, k) && k.queue != []
    ensures Queued(names, Popped(k))
    ensures k.queue[|k.queue| - 1] !in k.order
  {
    var last := |k.queue| - 1;
    var x := k.queue[last];
    var s, s' := k.order + k.queue, Popped(k).order + Popped(k).queue;
    assert s[|s| - 1] == x;
    forall i, j | 0 <= i < j < |s'| ensures s'[i] != s'[j] {
      var a := if i < |k.order| then i else if i == |k.order| then |s| - 1 else i - 1;
      var b := if j < |k.order| then j else if j == |k.order| then |s| - 1 else j - 1;
      assert s'[i] == s[a] && s'[j] == s[b] && a != b;
    }
    assert k.queue == k.queue[..last] + [x];
    assert forall i :: 0 <= i < |k.order| ==> s[i] == k.order[i];
  }

  /** The dependents of a popped name can all be lowered: no in-degree underflows. */
  lemma {:induction false} RoundReady(names: set<Name>, es: seq<(Name, Name)>, k: Kahn)
    requires KahnInv(names, es, k) && k.queue != []
    requires forall e :: e in es ==> e.0 in names
    ensures
      var x := k.queue[|k.queue| - 1];
      var ns := Dependents(es, x);
      && (forall n :: n in ns ==> n in names)
      && Queued(names, Popped(k))
      && ToSet(Popped(k).order) == ToSet(k.order) + {x}
      && (forall n :: n in names ==> Popped(k).degree[n] >= Count(ns, n))
      && (forall n :: n in names ==> k.degree[n] - Count(ns, n) == InDegree(es, n, ToSet(Popped(k).order)))
  {
    var x := k.queue[|k.queue| - 1];
    PoppedKeeps(names, k);
    DependentsMembers(es, x);
    var done := ToSet(k.order);
    assert Popped(k).order == k.order + [x];
    assert ToSet(Popped(k).order) == done + {x};
    forall n | n in names
      ensures k.degree[n] == InDegree(es, n, done + {x}) + Count(Dependents(es, x), n)
    {
      FinishLowers(es, n, done, x);
    }
  }

  lemma {:induction false} RoundKeeps(names: set<Name>, es: seq<(Name, Name)>, k: Kahn)
    requires KahnInv(names, es, k) && k.queue != []
    requires forall e :: e in es ==> e.0 in names
    ensures KahnInv(names, es, Round(es, k))
    ensures Round(es, k).order == k.order + [k.queue[|k.queue| - 1]]
  {
    var x := k.queue[|k.queue| - 1];
    RoundReady(names, es, k);
    LowerAllInv(names, Popped(k), Dependents(es, x));
    var order := Round(es, k).order;
    assert order == k.order + [x];
    assert x in k.queue;
    forall i, d | 0 <= i < |order| && (order[i], d) in es ensures d in order[..i] {
      if i < |k.order| {
        assert order[..i] == k.order[..i];
      } else {
        ZeroMeansDone(es, x, ToSet(k.order));
        assert order[..i] == k.order;
      }
    }
  }

  lemma {:induction false} DistinctSize(s: seq<Name>)
    requires Distinct(s)
    ensures |ToSet(s)| == |s|
  {
    if s != [] {
      var most, x := s[..|s| - 1], s[|s| - 1];
      DistinctSize(most);
      assert ToSet(s) == ToSet(most) + {x};
    } else {
      assert ToSet(s) == {};
    }
  }

  lemma {:induction false} OneMoreName(cs: seq<Config>, c: Config)
    ensures NamesOf(cs + [c]) == NamesOf(cs) + {c.name}
    ensures DistinctNames(cs + [c]) <==> DistinctNames(cs) && c.name !in NamesOf(cs)
  {
    var more := cs + [c];
    assert forall x :: x in more <==> x in cs || x == c;
    assert forall i :: 0 <= i < |cs| ==> more[i] == cs[i] && cs[i] in cs;
    assert more[|cs|] == c;
    if c.name in NamesOf(cs) {
      var d :| d in cs && d.name == c.name;
      var i :| 0 <= i < |cs| && cs[i] == d;
      assert more[i].name == more[|cs|].name;
    }
  }

  lemma {:induction false} NamesCount(cs: seq<Config>)
    ensures |NamesOf(cs)| <= |cs|
    ensures |NamesOf(cs)| == |cs| <==> DistinctNames(cs)
  {
    if cs == [] {
      assert NamesOf(cs) == {};
    } else {
      var most, c := cs[..|cs| - 1], cs[|cs| - 1];
      NamesCount(most);
      assert cs == most + [c];
      OneMoreName(most, c);
      hide NamesOf, DistinctNames;
    }
  }

  /** The names left over when the queue runs empty. */
  function Stuck(names: set<Name>, order: seq<Name>): set<Name> {
    names - ToSet(order)
  }

  lemma {:induction false} StuckIsTrapped(cs: seq<Config>, k: Kahn)
    requires KahnInv(NamesOf(cs), Pairs(cs, |cs|), k) && k.queue == [] && Known(cs)
    ensures Trapped(GraphOf(cs), Stuck(NamesOf(cs), k.order))
    ensures forall n :: n in NamesOf(cs) ==> (k.degree[n] > 0 <==> n in Stuck(NamesOf(cs), k.order))
  {
    var es, stuck := Pairs(cs, |cs|), Stuck(NamesOf(cs), k.order);
    PairsAreEdges(cs);
    forall n | n in stuck ensures HasNext(GraphOf(cs), stuck, n) {
      ZeroMeansDone(es, n, ToSet(k.order));
      assert n !in k.order;
      var d :| (n, d) in es && d !in ToSet(k.order);
      assert Edge(GraphOf(cs), n, d);
      assert d in NamesOf(cs);
    }
  }

  lemma {:induction false} AllDone(cs: seq<Config>, k: Kahn)
    requires KahnInv(NamesOf(cs), Pairs(cs, |cs|), k) && k.queue == []
    requires Stuck(NamesOf(cs), k.order) == {}
    ensures |k.order| == |NamesOf(cs)|
    ensures Topological(GraphOf(cs), k.order) && Acyclic(GraphOf(cs))
  {
    OrderInNames(NamesOf(cs), Pairs(cs, |cs|), k);
    forall n | n in NamesOf(cs) ensures n in ToSet(k.order) {
      assert n !in Stuck(NamesOf(cs), k.order);
    }
    assert ToSet(k.order) == NamesOf(cs);
    OrderIsTopological(cs, k);
    TopologicalIsAcyclic(GraphOf(cs), k.order);
  }

  lemma {:induction false} NotAllDone(cs: seq<Config>, k: Kahn)
    requires KahnInv(NamesOf(cs), Pairs(cs, |cs|), k) && k.queue == [] && Known(cs)
    requires Stuck(NamesOf(cs), k.order) != {}
    ensures |k.order| < |NamesOf(cs)| && !Acyclic(GraphOf(cs))
    ensures forall n :: n in Stuck(NamesOf(cs), k.order) ==> ReachesCycle(GraphOf(cs), n)
  {
    StuckIsTrapped(cs, k);
    OrderInNames(NamesOf(cs), Pairs(cs, |cs|), k);
    MissingMakesFewer(NamesOf(cs), k.order);
    AllReachCycles(GraphOf(cs), Stuck(NamesOf(cs), k.order));
    hide *;
  }

  lemma {:induction false} MissingMakesFewer(names: set<Name>, order: seq<Name>)
    requires ToSet(order) <= names && Stuck(names, order) != {}
    ensures |ToSet(order)| < |names|
  {
    var n :| n in Stuck(names, order);
    SubsetSize(ToSet(order), names - {n});
  }

  lemma {:induction false} AllReachCycles(g: Graph, s: set<Name>)
    requires Trapped(g, s) && s != {}
    ensures !Acyclic(g) && forall n :: n in s ==> ReachesCycle(g, n)
  {
    hide Trapped, ReachesCycle;
    forall n | n in s ensures ReachesCycle(g, n) && !Acyclic(g) {
      TrappedReachesCycle(g, s, n);
      CycleRefutes(g, n);
    }
  }

  lemma {:induction false} OrderInNames(names: set<Name>, es: seq<(Name, Name)>, k: Kahn)
    requires KahnInv(names, es, k)
    ensures |k.order| == |ToSet(k.order)| <= |names| && ToSet(k.order) <= names
  {
    assert forall i :: 0 <= i < |k.order| ==> (k.order + k.queue)[i] == k.order[i];
    DistinctSize(k.order);
    SubsetSize(ToSet(k.order), names);
  }

  /** What an empty queue says about the configuration. */
  lemma {:induction false} Verdict(cs: seq<Config>, k: Kahn)
    requires KahnInv(NamesOf(cs), Pairs(cs, |cs|), k) && k.queue == [] && Known(cs)
    ensures |k.order| == |cs| <==> DistinctNames(cs) && Acyclic(GraphOf(cs))
    ensures |k.order| == |cs| ==> Topological(GraphOf(cs), k.order)
    ensures Acyclic(GraphOf(cs)) <==> Stuck(NamesOf(cs), k.order) == {}
    ensures forall n :: n in Stuck(NamesOf(cs), k.order) ==> ReachesCycle(GraphOf(cs), n)
  {
    NamesCount(cs);
    if Stuck(NamesOf(cs), k.order) == {} {
      AllDone(cs, k);
    } else {
      NotAllDone(cs, k);
    }
    hide *;
  }

  lemma {:induction false} CycleRefutes(g: Graph, n: Name)
    requires ReachesCycle(g, n)
    ensures !Acyclic(g)
  {
  }

  lemma {:induction false} SubsetSize(a: set<Name>, b: set<Name>)
    requires a <= b
    ensures |a| <= |b|
  {
    assert b == a + (b - a);
  }

  lemma {:induction false} OrderIsTopological(cs: seq<Config>, k: Kahn)
    requires KahnInv(NamesOf(cs), Pairs(cs, |cs|), k) && k.queue == []
    requires ToSet(k.order) == NamesOf(cs)
    ensures Topological(GraphOf(cs), k.order)
  {
    PairsAreEdges(cs);
    assert k.order + k.queue == k.order;
    var g := GraphOf(cs);
    assert forall n :: n in k.order <==> n in ToSet(k.order);
    forall i | 0 <= i < |k.order| ensures forall d :: d in g[k.order[i]] ==> d in k.order[..i] {
      forall d | d in g[k.order[i]] ensures d in k.order[..i] {
        assert Edge(g, k.order[i], d);
      }
    }
  }

  // ---------------------------------------------------------------------------------------
  // Which order
  // ---------------------------------------------------------------------------------------

  /** The names in the order of the configuration list. */
  function NameList(cs: seq<Config>): seq<Name> {
    seq(|cs|, i requires 0 <= i < |cs| => cs[i].name)
  }

  /** The queue is a stack: each of its names goes before those below it. */
  ghost predicate Stacked(g: Graph, list: seq<Name>, k: Kahn) {
    forall i, j :: 0 <= i < j < |k.queue| ==>
      k.queue[i] in g && k.queue[j] in g && Goes(g, list, k.order, k.queue[j], k.queue[i])
  }

  lemma {:induction false} DependentsConcat(a: seq<(Name, Name)>, b: seq<(Name, Name)>, d: Name)
    ensures Dependents(a + b, d) == Dependents(a, d) + Dependents(b, d)
  {
    if b == [] {
      assert a + b == a;
    } else {
      assert (a + b)[..|a + b| - 1] == a + b[..|b| - 1];
      DependentsConcat(a, b[..|b| - 1], d);
    }
  }

  lemma {:induction false} DependentsOfOne(c: Config, j: nat, d: Name)
    requires j <= |c.dependsOn|
    ensures forall n :: n in Dependents(PairsOf(c, j), d) ==> n == c.name
  {
    if j > 0 {
      DependentsOfOne(c, j - 1, d);
      PairsGrow(PairsOf(c, j - 1), (c.name, c.dependsOn[j - 1]));
    }
  }

  /** The names are listed, and different ones in the order of the list. */
  ghost predicate InListOrder(ns: seq<Name>, list: seq<Name>) {
    && (forall p :: 0 <= p < |ns| ==> ns[p] in list)
    && forall p, q :: 0 <= p < q < |ns| && ns[p] != ns[q] ==> ListedBefore(list, ns[p], ns[q])
  }

  lemma {:induction false} InListOrderGrows(ns: seq<Name>, list: seq<Name>, more: seq<Name>, last: Name)
    requires InListOrder(ns, list) && forall n :: n in more ==> n == last
    ensures InListOrder(ns + more, list + [last])
  {
    var all, longer := ns + more, list + [last];
    assert forall p :: |ns| <= p < |all| ==> all[p] in more && all[p] == last;
    forall p | 0 <= p < |all| ensures all[p] in longer {
      assert p < |ns| ==> ns[p] in list;
    }
    forall p, q | 0 <= p < q < |all| && all[p] != all[q] ensures ListedBefore(longer, all[p], all[q]) {
      if q < |ns| {
        assert ListedBefore(list, ns[p], ns[q]);
        ListedStill(list, longer, ns[p], ns[q]);
      } else {
        var k :| 0 <= k < |list| && list[k] == ns[p];
        assert longer[k] == all[p] && longer[|list|] == all[q];
      }
    }
  }

  lemma {:induction false} ListedStill(before: seq<Name>, list: seq<Name>, a: Name, b: Name)
    requires before <= list && ListedBefore(before, a, b)
    ensures ListedBefore(list, a, b)
  {
    var i, j :| 0 <= i < j < |before| && before[i] == a && before[j] == b;
    assert list[i] == a && list[j] == b;
  }

  /** The dependents of a name come in the order of the configuration list. */
  lemma {:induction false} DependentsListed(cs: seq<Config>, i: nat, d: Name)
    requires i <= |cs|
    ensures InListOrder(Dependents(Pairs(cs, i), d), NameList(cs)[..i])
  {
    if i > 0 {
      var c := cs[i - 1];
      DependentsListed(cs, i - 1, d);
      DependentsOfOne(c, |c.dependsOn|, d);
      DependentsConcat(Pairs(cs, i - 1), PairsOf(c, |c.dependsOn|), d);
      assert NameList(cs)[..i] == NameList(cs)[..i - 1] + [c.name];
      hide Dependents, PairsOf, NameList, InListOrder;
      InListOrderGrows(Dependents(Pairs(cs, i - 1), d), NameList(cs)[..i - 1], Dependents(PairsOf(c, |c.dependsOn|), d), c.name);
    }
  }

  /** What a round pushes comes from the list of dependents, in its order. */
  lemma {:induction false} Pushes(k: Kahn, ns: seq<Name>)
    ensures
      var q, m := LowerAll(k, ns).queue, |k.queue|;
      && k.queue <= q
      && (forall i :: m <= i < |q| ==> q[i] in ns)
      && forall i, j :: m <= i < j < |q| && q[i] != q[j] ==> exists a, b :: 0 <= a < b < |ns| && ns[a] == q[i] && ns[b] == q[j]
  {
    if ns != [] {
      var most, last := ns[..|ns| - 1], ns[|ns| - 1];
      Pushes(k, most);
      var q', q, m := LowerAll(k, most).queue, LowerAll(k, ns).queue, |k.queue|;
      assert q == q' || q == q' + [last];
      hide LowerAll;
      forall i | m <= i < |q| ensures q[i] in ns {
        assert i < |q'| ==> q[i] == q'[i] && q'[i] in most;
      }
      forall i, j | m <= i < j < |q| && q[i] != q[j] ensures exists a, b :: 0 <= a < b < |ns| && ns[a] == q[i] && ns[b] == q[j] {
        if j < |q'| {
          var a, b :| 0 <= a < b < |most| && most[a] == q'[i] && most[b] == q'[j];
          assert ns[a] == q[i] && ns[b] == q[j];
        } else {
          assert q'[i] in most;
          var a :| 0 <= a < |most| && most[a] == q'[i];
          assert ns[a] == q[i] && ns[|ns| - 1] == q[j];
        }
      }
    }
  }

  /** A name can come next exactly when it is in the queue. */
  lemma {:induction false} FreeIsQueued(cs: seq<Config>, k: Kahn, n: Name)
    requires KahnInv(NamesOf(cs), Pairs(cs, |cs|), k)
    ensures IsFree(GraphOf(cs), k.order, n) <==> n in k.queue
  {
    var g, es, done := GraphOf(cs), Pairs(cs, |cs|), ToSet(k.order);
    PairsAreEdges(cs);
    ZeroMeansDone(es, n, done);
    assert n in k.queue ==> n !in k.order by {
      var s := k.order + k.queue;
      forall i, j | 0 <= i < |k.order| && 0 <= j < |k.queue| ensures k.order[i] != k.queue[j] {
        assert s[i] == k.order[i] && s[|k.order| + j] == k.queue[j];
      }
    }
    assert n in k.order || n in k.queue <==> n in g && InDegree(es, n, done) == 0;
    hide InDegree, Pairs, KahnInv;
    assert n in g ==> forall d :: d in g[n] <==> (n, d) in es by {
      assert forall d :: Edge(g, n, d) <==> (n, d) in es;
    }
  }

  lemma {:induction false} FreeSinceStep(done: seq<Name>, x: Name, deps: set<Name>)
    ensures FreeSince(done + [x], deps) == if x in deps then |done| + 1 else FreeSince(done, deps)
    ensures FreeSince(done, deps) <= |done|
  {
    assert (done + [x])[..|done|] == done;
    if done != [] {
      FreeSinceStep(done[..|done| - 1], done[|done| - 1], deps);
    }
  }

  /** The popped name goes before all that could have come next. */
  lemma {:induction false} PopFollows(cs: seq<Config>, k: Kahn)
    requires KahnInv(NamesOf(cs), Pairs(cs, |cs|), k) && k.queue != []
    requires Stacked(GraphOf(cs), NameList(cs), k) && FollowsRule(GraphOf(cs), NameList(cs), k.order)
    ensures FollowsRule(GraphOf(cs), NameList(cs), k.order + [k.queue[|k.queue| - 1]])
  {
    var g, list, x := GraphOf(cs), NameList(cs), k.queue[|k.queue| - 1];
    var order := k.order + [x];
    hide KahnInv, GraphOf, NameList, Goes;
    FreeIsQueued(cs, k, x);
    forall i, n | 0 <= i < |order| && IsFree(g, order[..i], n) && n != order[i]
      ensures order[i] in g && Goes(g, list, order[..i], order[i], n)
    {
      if i < |k.order| {
        assert order[..i] == k.order[..i];
      } else {
        assert order[..i] == k.order;
        FreeIsQueued(cs, k, n);
        var j :| 0 <= j < |k.queue| && k.queue[j] == n;
      }
    }
  }

  /** A round leaves a stack. */
  lemma {:induction false} RoundStacks(cs: seq<Config>, k: Kahn)
    requires KahnInv(NamesOf(cs), Pairs(cs, |cs|), k) && k.queue != []
    requires Stacked(GraphOf(cs), NameList(cs), k)
    ensures Stacked(GraphOf(cs), NameList(cs), Round(Pairs(cs, |cs|), k))
  {
    var g, list, es, x := GraphOf(cs), NameList(cs), Pairs(cs, |cs|), k.queue[|k.queue| - 1];
    var k', ns := Round(es, k), Dependents(es, x);
    PairsStartAtNames(cs);
    RoundKeeps(NamesOf(cs), es, k);
    Pushes(Popped(k), ns);
    forall i, j | 0 <= i < j < |k'.queue|
      ensures k'.queue[i] in g && k'.queue[j] in g && Goes(g, list, k'.order, k'.queue[j], k'.queue[i])
    {
      hide *;
      FreeIsQueued(cs, k', k'.queue[i]);
      FreeIsQueued(cs, k', k'.queue[j]);
      RoundGoes(cs, k, k', x, ns, i, j);
    }
  }

  /** Two names in the queue after a round: of those pushed before, of those pushed now, or one of each. */
  lemma {:induction false} RoundGoes(cs: seq<Config>, k: Kahn, k': Kahn, x: Name, ns: seq<Name>, i: nat, j: nat)
    requires KahnInv(NamesOf(cs), Pairs(cs, |cs|), k) && k.queue != [] && x == k.queue[|k.queue| - 1]
    requires Stacked(GraphOf(cs), NameList(cs), k) && ns == Dependents(Pairs(cs, |cs|), x)
    requires k'.order == k.order + [x] && Distinct(k'.order + k'.queue)
    requires k.queue[..|k.queue| - 1] <= k'.queue
    requires forall a :: |k.queue| - 1 <= a < |k'.queue| ==> k'.queue[a] in ns
    requires forall a, b :: |k.queue| - 1 <= a < b < |k'.queue| && k'.queue[a] != k'.queue[b] ==>
      exists p, q :: 0 <= p < q < |ns| && ns[p] == k'.queue[a] && ns[q] == k'.queue[b]
    requires i < j < |k'.queue| && k'.queue[i] in GraphOf(cs) && k'.queue[j] in GraphOf(cs)
    ensures Goes(GraphOf(cs), NameList(cs), k'.order, k'.queue[j], k'.queue[i])
  {
    var g, list, m, a, b := GraphOf(cs), NameList(cs), |k.queue| - 1, k'.queue[i], k'.queue[j];
    DependentsListed(cs, |cs|, x);
    assert list[..|cs|] == list;
    assert a != b by {
      var s := k'.order + k'.queue;
      assert s[|k'.order| + i] == a && s[|k'.order| + j] == b;
    }
    assert j < m ==> b == k.queue[j] && Goes(g, list, k.order, b, a);
    assert i < m ==> a == k.queue[i];
    hide *;
    FreeSinceStep(k.order, x, g[a]);
    FreeSinceStep(k.order, x, g[b]);
    if i < m {
      QueuedIsOld(cs, k, x, a);
    } else {
      PushedIsNew(cs, x, a);
    }
    if j < m {
      QueuedIsOld(cs, k, x, b);
      GoesStill(g, list, k.order, x, b, a);
    } else {
      PushedIsNew(cs, x, b);
      if i < m {
        LaterGoes(g, list, k.order + [x], b, a);
      } else {
        ListedGoes(g, list, k.order + [x], ns, b, a);
      }
    }
  }

  lemma {:induction false} GoesStill(g: Graph, list: seq<Name>, done: seq<Name>, x: Name, a: Name, b: Name)
    requires a in g && b in g && x !in g[a] && x !in g[b] && Goes(g, list, done, a, b)
    ensures Goes(g, list, done + [x], a, b)
  {
    FreeSinceStep(done, x, g[a]);
    FreeSinceStep(done, x, g[b]);
    hide FreeSince, Less, ListedBefore;
  }

  lemma {:induction false} LaterGoes(g: Graph, list: seq<Name>, done: seq<Name>, a: Name, b: Name)
    requires a in g && b in g && FreeSince(done, g[a]) > FreeSince(done, g[b])
    ensures Goes(g, list, done, a, b)
  {
  }

  lemma {:induction false} ListedGoes(g: Graph, list: seq<Name>, done: seq<Name>, ns: seq<Name>, a: Name, b: Name)
    requires a in g && b in g && FreeSince(done, g[a]) == FreeSince(done, g[b]) > 0
    requires InListOrder(ns, list) && a != b && exists p, q :: 0 <= p < q < |ns| && ns[p] == b && ns[q] == a
    ensures Goes(g, list, done, a, b)
  {
    hide ListedBefore, FreeSince;
  }

  lemma {:induction false} LeIsLess(a: Name, b: Name)
    requires Le(a, b) && a != b
    ensures Less(a, b)
    decreases |a|
  {
    if a == [] || a[0] < b[0] {
      assert a[..0] == b[..0];
    } else {
      assert a == [a[0]] + a[1..] && b == [b[0]] + b[1..];
      LeIsLess(a[1..], b[1..]);
      var k :| 0 <= k <= |a[1..]| && k < |b[1..]| && a[1..][..k] == b[1..][..k] && (k == |a[1..]| || a[1..][k] < b[1..][k]);
      assert a[..k + 1] == [a[0]] + a[1..][..k] && b[..k + 1] == [b[0]] + b[1..][..k];
    }
  }

  lemma {:induction false} InitialStacks(cs: seq<Config>)
    ensures Stacked(GraphOf(cs), NameList(cs), Kahn(InitialDegree(cs), InitialQueue(cs), []))
    ensures FollowsRule(GraphOf(cs), NameList(cs), [])
  {
    InitialQueueIs(cs);
    InitialSorted(cs);
    assert forall n :: n in InitialQueue(cs) ==> n in GraphOf(cs);
    hide *;
    SortedStacks(GraphOf(cs), NameList(cs), InitialDegree(cs), InitialQueue(cs));
  }

  lemma {:induction false} SortedStacks(g: Graph, list: seq<Name>, degree: map<Name, nat>, q: seq<Name>)
    requires Sorted(q) && Distinct(q) && forall n :: n in q ==> n in g
    ensures Stacked(g, list, Kahn(degree, q, [])) && FollowsRule(g, list, [])
  {
    hide Less, Le;
    forall i, j | 0 <= i < j < |q| ensures Less(q[i], q[j]) {
      LeIsLess(q[i], q[j]);
    }
  }

  lemma {:induction false} InitialSorted(cs: seq<Config>)
    ensures Sorted(InitialQueue(cs))
  {
    SortSorts(SomeArrangement(set n | n in NamesOf(cs) && InitialDegree(cs)[n] == 0));
    hide Sorted, Sort, SomeArrangement;
  }

  /** Every round keeps to the rule. */
  lemma {:induction false} RoundsFollow(cs: seq<Config>, m: nat)
    ensures
      var es := Pairs(cs, |cs|);
      var k := Rounds(es, Kahn(InitialDegree(cs), InitialQueue(cs), []), m);
      && KahnInv(NamesOf(cs), es, k) && Stacked(GraphOf(cs), NameList(cs), k)
      && FollowsRule(GraphOf(cs), NameList(cs), k.order)
  {
    var es, start := Pairs(cs, |cs|), Kahn(InitialDegree(cs), InitialQueue(cs), []);
    if m == 0 {
      InitialInv(cs);
      InitialStacks(cs);
    } else {
      RoundsFollow(cs, m - 1);
      PairsStartAtNames(cs);
      var k := Rounds(es, start, m - 1);
      hide KahnInv, Stacked, FollowsRule, GraphOf, NameList, Pairs, InitialQueue, InitialDegree, NamesOf;
      if k.queue != [] {
        RoundKeeps(NamesOf(cs), es, k);
        PopFollows(cs, k);
        RoundStacks(cs, k);
      }
    }
  }

  /** The rule leaves no choice: a topological order that follows it is the only one. */
  lemma {:induction false} OnlyOneOrder(cs: seq<Config>, a: seq<Name>, b: seq<Name>)
    requires DistinctNames(cs) && Topological(GraphOf(cs), a) && Topological(GraphOf(cs), b)
    requires FollowsRule(GraphOf(cs), NameList(cs), a) && FollowsRule(GraphOf(cs), NameList(cs), b)
    ensures a == b
  {
    hide FollowsRule, GraphOf;
    DistinctSize(a);
    DistinctSize(b);
    assert ToSet(a) == ToSet(b);
    assert Distinct(NameList(cs));
    hide NameList, Topological;
    RuleDecides(GraphOf(cs), NameList(cs), a, b, |a|);
    assert a[..|a|] == a && b[..|b|] == b;
  }

  /** What is in the queue does not depend on what is popped. */
  lemma {:induction false} QueuedIsOld(cs: seq<Config>, k: Kahn, x: Name, n: Name)
    requires KahnInv(NamesOf(cs), Pairs(cs, |cs|), k) && x in k.queue && n in GraphOf(cs)
    ensures n in k.queue ==> x !in GraphOf(cs)[n]
  {
    hide KahnInv;
    FreeIsQueued(cs, k, x);
    FreeIsQueued(cs, k, n);
    hide GraphOf;
  }

  lemma {:induction false} PushedIsNew(cs: seq<Config>, x: Name, n: Name)
    requires n in GraphOf(cs)
    ensures n in Dependents(Pairs(cs, |cs|), x) ==> x in GraphOf(cs)[n]
  {
    PairsAreEdges(cs);
    DependentsMembers(Pairs(cs, |cs|), x);
    hide Dependents, Pairs, GraphOf;
    assert (n, x) in Pairs(cs, |cs|) <==> Edge(GraphOf(cs), n, x);
  }

  // ---------------------------------------------------------------------------------------
  // topo_sort
  // ---------------------------------------------------------------------------------------

  /** The check for unregistered dependencies. */
  method CheckKnown(configs: seq<Config>) returns (r: Option<Error>)
    ensures r.None? <==> Known(configs)
    ensures r.Some? ==> r.value.UnknownDependency? && FirstUnknown(configs, r.value.dependent, r.value.dep)
  {
    var names := NamesOf(configs);
    for i := 0 to |configs|
      invariant forall c, e :: c in configs[..i] && e in c.dependsOn ==> e in names
    {
      var deps := configs[i].dependsOn;
      for j := 0 to |deps|
        invariant forall e :: e in deps[..j] ==> e in names
      {
        if deps[j] !in names {
          assert configs[i] in configs;
          return Some(UnknownDependency(configs[i].name, deps[j]));
        }
        assert deps[..j + 1] == deps[..j] + [deps[j]];
      }
      assert deps[..|deps|] == deps;
      assert configs[..i + 1] == configs[..i] + [configs[i]];
    }
    assert configs[..|configs|] == configs;
    r := None;
  }

  function Lookup(m: map<Name, seq<Name>>, n: Name): seq<Name> {
    if n in m then m[n] else []
  }

  /** In-degrees and dependents of the given names agree with the given edges. */
  ghost predicate Counted(names: set<Name>, es: seq<(Name, Name)>, degree: map<Name, nat>, dependents: map<Name, seq<Name>>) {
    && degree.Keys == names
    && (forall n :: n in names ==> degree[n] == InDegree(es, n, {}))
    && (forall n :: n !in names ==> InDegree(es, n, {}) == 0)
    && (forall d :: Lookup(dependents, d) == Dependents(es, d))
  }

  lemma {:induction false} CountOne(names: set<Name>, es: seq<(Name, Name)>, degree: map<Name, nat>,
      dependents: map<Name, seq<Name>>, n: Name, dep: Name)
    requires Counted(names, es, degree, dependents) && n in names
    ensures Counted(names, es + [(n, dep)], degree[n := degree[n] + 1],
      dependents[dep := Lookup(dependents, dep) + [n]])
  {
    PairsGrow(es, (n, dep));
    hide InDegree, Dependents;
  }

  lemma {:induction false} CountName(names: set<Name>, es: seq<(Name, Name)>, degree: map<Name, nat>,
      dependents: map<Name, seq<Name>>, n: Name)
    requires Counted(names, es, degree, dependents) && n !in names
    ensures Counted(names + {n}, es, degree[n := 0], dependents)
  {
    hide InDegree, Dependents;
  }

  /** One configuration of the first pass. */
  method CountConfig(c: Config, ghost names: set<Name>, ghost es: seq<(Name, Name)>,
      degree: map<Name, nat>, dependents: map<Name, seq<Name>>)
    returns (degree': map<Name, nat>, dependents': map<Name, seq<Name>>)
    requires Counted(names, es, degree, dependents)
    ensures Counted(names + {c.name}, es + PairsOf(c, |c.dependsOn|), degree', dependents')
  {
    hide InDegree, Dependents;
    degree', dependents' := degree, dependents;
    if c.name !in degree {
      CountName(names, es, degree, dependents, c.name);
      degree' := degree'[c.name := 0];
    }
    assert names + {c.name} == degree'.Keys;
    assert es + PairsOf(c, 0) == es;
    hide Counted;
    for j := 0 to |c.dependsOn|
      invariant degree'.Keys == names + {c.name}
      invariant Counted(names + {c.name}, es + PairsOf(c, j), degree', dependents')
    {
      var dep := c.dependsOn[j];
      CountOne(names + {c.name}, es + PairsOf(c, j), degree', dependents', c.name, dep);
      assert es + PairsOf(c, j + 1) == es + PairsOf(c, j) + [(c.name, dep)];
      degree' := degree'[c.name := degree'[c.name] + 1];
      dependents' := dependents'[dep := Lookup(dependents', dep) + [c.name]];
    }
  }

  /** The first pass over the configurations. */
  method CountEdges(configs: seq<Config>) returns (degree: map<Name, nat>, dependents: map<Name, seq<Name>>)
    ensures degree == InitialDegree(configs)
    ensures forall d :: Lookup(dependents, d) == Dependents(Pairs(configs, |configs|), d)
  {
    degree, dependents := map[], map[];
    assert NamesOf(configs[..0]) == {};
    for i := 0 to |configs|
      invariant Counted(NamesOf(configs[..i]), Pairs(configs, i), degree, dependents)
    {
      hide Counted;
      degree, dependents := CountConfig(configs[i], NamesOf(configs[..i]), Pairs(configs, i), degree, dependents);
      assert configs[..i + 1] == configs[..i] + [configs[i]];
      assert NamesOf(configs[..i + 1]) == NamesOf(configs[..i]) + {configs[i].name};
    }
    assert configs[..|configs|] == configs;
  }

  /** The names of in-degree zero, collected in the arbitrary order of a hash map, then sorted. */
  method FirstQueue(degree: map<Name, nat>) returns (queue: seq<Name>)
    ensures multiset(queue) == multiset(set n | n in degree && degree[n] == 0)
    ensures queue == Sort(SomeArrangement(set n | n in degree && degree[n] == 0))
  {
    var zero := set n | n in degree && degree[n] == 0;
    var found := [];
    var todo := degree.Keys;
    while todo != {}
      invariant todo <= degree.Keys
      invariant multiset(found) == multiset(zero - todo)
    {
      var n :| n in todo;
      if degree[n] == 0 {
        assert zero - (todo - {n}) == (zero - todo) + {n};
        found := found + [n];
      } else {
        assert zero - (todo - {n}) == zero - todo;
      }
      todo := todo - {n};
    }
    assert zero - todo == zero;
    queue := Sort(found);
    SortSorts(found);
    SortSorts(SomeArrangement(zero));
    SortedUnique(queue, Sort(SomeArrangement(zero)));
  }

  lemma {:induction false} InitialQueueIs(cs: seq<Config>)
    ensures Distinct(InitialQueue(cs))
    ensures forall n :: n in InitialQueue(cs) <==> n in NamesOf(cs) && InitialDegree(cs)[n] == 0
  {
    hide InDegree, Pairs, NamesOf;
    var zero := set n | n in NamesOf(cs) && InitialDegree(cs)[n] == 0;
    var q := InitialQueue(cs);
    assert multiset(q) == multiset(zero);
    forall i, j | 0 <= i < j < |q| ensures q[i] != q[j] {
      if q[i] == q[j] {
        TwiceCounts(q, i, j);
      }
    }
    forall n ensures n in q <==> n in zero {
      assert n in q <==> n in multiset(q);
    }
  }

  lemma {:induction false} InitialInv(cs: seq<Config>)
    ensures
      KahnInv(NamesOf(cs), Pairs(cs, |cs|), Kahn(InitialDegree(cs), InitialQueue(cs), []))
  {
    InitialQueueIs(cs);
    hide InitialQueue, NamesOf, InDegree, Pairs;
    assert ToSet([]) == {};
    assert [] + InitialQueue(cs) == InitialQueue(cs);
  }

  lemma {:induction false} TwiceCounts(s: seq<Name>, i: nat, j: nat)
    requires i < j < |s| && s[i] == s[j]
    ensures multiset(s)[s[i]] >= 2
  {
    assert s == s[..i] + [s[i]] + s[i + 1..j] + [s[j]] + s[j + 1..];
  }

  /** The inner loop: every dependent of a finished name has one dependency less. */
  method LowerDependents(ghost names: set<Name>, ghost k: Kahn, ns: seq<Name>, degree: map<Name, nat>, queue: seq<Name>)
    returns (degree': map<Name, nat>, queue': seq<Name>)
    requires k.degree == degree && k.queue == queue
    requires Queued(names, k) && (forall n :: n in ns ==> n in names)
    requires forall n :: n in names ==> k.degree[n] >= Count(ns, n)
    ensures Kahn(degree', queue', k.order) == LowerAll(k, ns)
  {
    hide Queued, Count;
    degree', queue' := degree, queue;
    for j := 0 to |ns|
      invariant Kahn(degree', queue', k.order) == LowerAll(k, ns[..j])
    {
      MidRound(names, k, ns, j);
      assert ns[..j + 1][..j] == ns[..j];
      var d := degree'[ns[j]] - 1;
      degree' := degree'[ns[j] := d];
      if d == 0 {
        queue' := queue' + [ns[j]];
      }
    }
    assert ns[..|ns|] == ns;
  }

  /** The outer loop, from the first queue to an empty one. */
  method Drain(ghost names: set<Name>, ghost es: seq<(Name, Name)>, dependents: map<Name, seq<Name>>,
      degree: map<Name, nat>, queue: seq<Name>)
    returns (degree': map<Name, nat>, order: seq<Name>)
    requires KahnInv(names, es, Kahn(degree, queue, [])) && forall e :: e in es ==> e.0 in names
    requires forall d :: Lookup(dependents, d) == Dependents(es, d)
    ensures KahnInv(names, es, Kahn(degree', [], order))
    ensures Kahn(degree', [], order) == Rounds(es, Kahn(degree, queue, []), |order|)
  {
    order := [];
    degree' := degree;
    var queue' := queue;
    ghost var start := Kahn(degree, queue, []);
    ghost var k := start;
    hide KahnInv, Queued, Count, LowerAll, Dependents;
    while queue' != []
      invariant KahnInv(names, es, k) && k == Kahn(degree', queue', order)
      invariant k == Rounds(es, start, |order|)
      decreases |names| - |order|
    {
      RoundReady(names, es, k);
      RoundKeeps(names, es, k);
      OrderInNames(names, es, Round(es, k));
      var name := queue'[|queue'| - 1];
      queue' := queue'[..|queue'| - 1];
      order := order + [name];
      degree', queue' := LowerDependents(names, Popped(k), Lookup(dependents, name), degree', queue');
      k := Round(es, k);
    }
  }

  /** Some name of positive in-degree, in the arbitrary order of a hash map; empty when there is none. */
  method AnyStuck(degree: map<Name, nat>) returns (name: Name)
    ensures if exists n :: n in degree && degree[n] > 0 then name in degree && degree[name] > 0 else name == ""
  {
    var stuck := set n | n in degree && degree[n] > 0;
    if stuck == {} {
      assert forall n :: n in degree && degree[n] > 0 ==> n in stuck;
      return "";
    }
    name :| name in stuck;
  }

  lemma {:induction false} StuckAreNames(names: set<Name>, es: seq<(Name, Name)>, k: Kahn)
    requires KahnInv(names, es, k)
    ensures k.degree.Keys == names && Stuck(names, k.order) <= names
  {
  }

  method TopoSort(configs: seq<Config>) returns (r: Result<seq<Name>, Error>)
    ensures r.Ok? <==> DistinctNames(configs) && Known(configs) && Acyclic(GraphOf(configs))
    ensures r.Ok? ==> Topological(GraphOf(configs), r.value) && |r.value| == |configs|
    ensures r.Ok? ==> FollowsRule(GraphOf(configs), NameList(configs), r.value)
    ensures r.Ok? ==> r.value == KahnOrder(configs)
    ensures r.Err? ==> r.error.UnknownDependency? || r.error.DependencyCycle?
    ensures r.Err? && r.error.UnknownDependency? ==> FirstUnknown(configs, r.error.dependent, r.error.dep)
    ensures !Known(configs) ==> r.Err? && r.error.UnknownDependency?
    ensures r.Err? && r.error.DependencyCycle? ==>
      Known(configs) &&
      if Acyclic(GraphOf(configs)) then !DistinctNames(configs) && r.error.name == ""
      else r.error.name in NamesOf(configs) && ReachesCycle(GraphOf(configs), r.error.name)
  {
    hide Known, GraphOf, FirstUnknown, Acyclic, ReachesCycle, DistinctNames, InDegree, Dependents, Topological, NamesOf;
    hide FollowsRule, NameList, Stacked;
    var unknown := CheckKnown(configs);
    if unknown.Some? {
      FirstUnknownRefutes(configs, unknown.value.dependent, unknown.value.dep);
      return Err(unknown.value);
    }
    var degree, dependents := CountEdges(configs);
    var queue := FirstQueue(degree);
    InitialKeys(configs);
    InitialInv(configs);
    PairsStartAtNames(configs);
    ghost var es, names := Pairs(configs, |configs|), NamesOf(configs);
    ghost var start := Kahn(degree, queue, []);
    var order;
    degree, order := Drain(names, es, dependents, degree, queue);
    ghost var k := Kahn(degree, [], order);
    Verdict(configs, k);
    if |order| != |configs| {
      StuckIsTrapped(configs, k);
      StuckAreNames(names, es, k);
      hide *;
      var name := AnyStuck(degree);
      return Err(DependencyCycle(name));
    }
    RoundsFollow(configs, |order|);
    r := Ok(order);
  }

  lemma {:induction false} InitialKeys(cs: seq<Config>)
    ensures InitialDegree(cs).Keys == NamesOf(cs)
    ensures InitialQueue(cs) ==
      Sort(SomeArrangement(set n | n in InitialDegree(cs) && InitialDegree(cs)[n] == 0))
  {
    var d := InitialDegree(cs);
    assert (set n | n in d && d[n] == 0) == (set n | n in NamesOf(cs) && d[n] == 0);
  }

  lemma {:induction false} PairsStartAtNames(cs: seq<Config>)
    ensures forall e :: e in Pairs(cs, |cs|) ==> e.0 in NamesOf(cs)
  {
    PairsAreEdges(cs);
    forall e | e in Pairs(cs, |cs|) ensures e.0 in NamesOf(cs) {
      assert e == (e.0, e.1);
      assert Edge(GraphOf(cs), e.0, e.1);
    }
  }

  lemma {:induction false} FirstUnknownRefutes(cs: seq<Config>, n: Name, d: Name)
    requires FirstUnknown(cs, n, d)
    ensures !Known(cs)
  {
    var i, j :| 0 <= i < |cs| && 0 <= j < |cs[i].dependsOn| && d == cs[i].dependsOn[j] && d !in NamesOf(cs);
    assert cs[i] in cs && d in cs[i].dependsOn;
  }

  /** In the middle of a round the next dependent is registered and can be lowered. */
  lemma {:induction false} MidRound(names: set<Name>, k: Kahn, ns: seq<Name>, j: nat)
    requires Queued(names, k) && (forall n :: n in ns ==> n in names) && j < |ns|
    requires forall n :: n in names ==> k.degree[n] >= Count(ns, n)
    ensures
      var k' := LowerAll(k, ns[..j]);
      ns[j] in k'.degree && k'.degree[ns[j]] > 0
  {
    var before, after := ns[..j], ns[j..];
    assert ns == before + after;
    assert after[0] == ns[j] && after[0] in multiset(after);
    LowerAllInv(names, k, before);
  }
}
