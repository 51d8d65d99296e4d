/**
 Which topological order: at each point, of the names that could come next, the one that became free last.
 The rule says nothing of how the order is found; it has at most one.
 */
module OrderRule {
  import opened Domain
  import opened Graph

  /** When a name with the given dependencies became free: after the last of them, or at the start. */
  function FreeSince(done: seq<Name>, deps: set<Name>): nat {
    if done == [] then 0
    else if done[|done| - 1] in deps then |done|
    else FreeSince(done[..|done| - 1], deps)
  }

  /** a is less than b by the first character in which they differ, or is the beginning of b. */
  ghost predicate Less(a: Name, b: Name) {
    exists k :: 0 <= k <= |a| && k < |b| && a[..k] == b[..k] && (k == |a| || a[k] < b[k])
  }

  ghost predicate ListedBefore(list: seq<Name>, a: Name, b: Name) {
    exists i, j :: 0 <= i < j < |list| && list[i] == a && list[j] == b
  }

  /** n can come next. */
  ghost predicate IsFree(g: Graph, done: seq<Name>, n: Name) {
    n in g && n !in done && forall d :: d in g[n] ==> d in done
  }

  /**
   a comes before b: it became free later, or at the same time and is listed later; of the names without
   dependencies the greater one comes first.
   */
  ghost predicate Goes(g: Graph, list: seq<Name>, done: seq<Name>, a: Name, b: Name)
    requires a in g && b in g
  {
    var s, t := FreeSince(done, g[a]), FreeSince(done, g[b]);
    s > t || (s == t && if s == 0 then Less(b, a) else ListedBefore(list, b, a))
  }

  /** The order takes, at each point, the one that goes before all others. */
  ghost predicate FollowsRule(g: Graph, list: seq<Name>, order: seq<Name>) {
    forall i, n :: 0 <= i < |order| && IsFree(g, order[..i], n) && n != order[i] ==>
      order[i] in g && Goes(g, list, order[..i], order[i], n)
  }

  // ---------------------------------------------------------------------------------------
  // At most one order
  // ---------------------------------------------------------------------------------------

  lemma {:induction false} SameAt(a: Name, b: Name, m: nat)
    requires m <= |a| && m <= |b| && a[..m] == b[..m]
    ensures forall k :: 0 <= k < m ==> a[k] == b[k]
  {
    forall k | 0 <= k < m ensures a[k] == b[k] {
      assert a[k] == a[..m][k];
    }
  }

  lemma {:induction false} LessIsStrict(a: Name, b: Name)
    requires Less(a, b)
    ensures !Less(b, a)
  {
    var k :| 0 <= k <= |a| && k < |b| && a[..k] == b[..k] && (k == |a| || a[k] < b[k]);
    SameAt(a, b, k);
    forall m | 0 <= m <= |b| && m < |a| && b[..m] == a[..m] ensures m != |b| && b[m] >= a[m] {
      SameAt(a, b, m);
    }
  }

  lemma {:induction false} ListedOnce(list: seq<Name>, a: Name, b: Name)
    requires Distinct(list) && ListedBefore(list, a, b)
    ensures !ListedBefore(list, b, a)
  {
    var i, j :| 0 <= i < j < |list| && list[i] == a && list[j] == b;
    forall p, q | 0 <= p < |list| && 0 <= q < |list| && list[p] == b && list[q] == a ensures q < p {
      assert q == i && p == j;
    }
  }

  /** Of two names only one goes first. */
  lemma {:induction false} GoesOneWay(g: Graph, list: seq<Name>, done: seq<Name>, a: Name, b: Name)
    requires Distinct(list) && a in g && b in g
    requires Goes(g, list, done, a, b)
    ensures !Goes(g, list, done, b, a)
  {
    hide Less, ListedBefore;
    if FreeSince(done, g[a]) == FreeSince(done, g[b]) {
      if FreeSince(done, g[a]) == 0 {
        LessIsStrict(b, a);
      } else {
        ListedOnce(list, b, a);
      }
    }
  }

  lemma {:induction false} ComesNext(g: Graph, order: seq<Name>, i: nat)
    requires Topological(g, order) && i < |order|
    ensures IsFree(g, order[..i], order[i])
  {
    assert order[i] in order;
  }

  lemma {:induction false} GoesNext(g: Graph, list: seq<Name>, order: seq<Name>, i: nat, n: Name)
    requires FollowsRule(g, list, order) && i < |order| && IsFree(g, order[..i], n) && n != order[i]
    ensures order[i] in g && n in g && Goes(g, list, order[..i], order[i], n)
  {
    hide Goes;
  }

  lemma {:induction false} SameNext(g: Graph, list: seq<Name>, a: seq<Name>, b: seq<Name>, i: nat)
    requires Distinct(list) && Topological(g, a) && Topological(g, b)
    requires FollowsRule(g, list, a) && FollowsRule(g, list, b)
    requires i < |a| && i < |b| && a[..i] == b[..i]
    ensures a[i] == b[i]
  {
    hide *;
    ComesNext(g, a, i);
    ComesNext(g, b, i);
    if a[i] != b[i] {
      GoesNext(g, list, a, i, b[i]);
      GoesNext(g, list, b, i, a[i]);
      GoesOneWay(g, list, a[..i], a[i], b[i]);
    }
  }

  /** There is only one topological order that follows the rule. */
  lemma {:induction false} RuleDecides(g: Graph, list: seq<Name>, a: seq<Name>, b: seq<Name>, k: nat)
    requires Distinct(list) && Topological(g, a) && Topological(g, b)
    requires FollowsRule(g, list, a) && FollowsRule(g, list, b)
    requires k <= |a| && |a| == |b|
    ensures a[..k] == b[..k]
  {
    hide *;
    if k > 0 {
      RuleDecides(g, list, a, b, k - 1);
      SameNext(g, list, a, b, k - 1);
      assert a[..k] == a[..k - 1] + [a[k - 1]] && b[..k] == b[..k - 1] + [b[k - 1]];
    }
  }
}
