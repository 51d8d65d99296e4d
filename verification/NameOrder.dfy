/** The order of names, and sorting by it. */
module NameOrder {
  import opened Domain

  /** Lexicographic comparison of strings. */
  predicate Le(a: Name, b: Name) {
    a == [] || (b != [] && (a[0] < b[0] || (a[0] == b[0] && Le(a[1..], b[1..]))))
  }

  lemma {:induction false} LeTotal(a: Name, b: Name)
    ensures Le(a, b) || Le(b, a)
    decreases |a|
  {
    if a != [] && b != [] {
      LeTotal(a[1..], b[1..]);
    }
  }

  lemma {:induction false} LeAntisymmetric(a: Name, b: Name)
    requires Le(a, b) && Le(b, a)
    ensures a == b
    decreases |a|
  {
    if a != [] {
      LeAntisymmetric(a[1..], b[1..]);
      assert a == [a[0]] + a[1..] && b == [b[0]] + b[1..];
    }
  }

  lemma {:induction false} LeTransitive(a: Name, b: Name, c: Name)
    requires Le(a, b) && Le(b, c)
    ensures Le(a, c)
    decreases |a|
  {
    if a != [] && a[0] == b[0] && b[0] == c[0] {
      LeTransitive(a[1..], b[1..], c[1..]);
    }
  }

  ghost predicate Sorted(s: seq<Name>) {
    forall i, j :: 0 <= i < j < |s| ==> Le(s[i], s[j])
  }

  /** Inserts x before the first element that is not smaller. */
  function Insert(x: Name, s: seq<Name>): (r: seq<Name>)
    ensures multiset(r) == multiset(s) + multiset{x}
  {
    if s == [] || Le(x, s[0]) then
      assert [x] + s == [x] + s;
      [x] + s
    else
      assert s == [s[0]] + s[1..];
      [s[0]] + Insert(x, s[1..])
  }

  lemma {:induction false} InsertSorted(x: Name, s: seq<Name>)
    requires Sorted(s)
    ensures Sorted(Insert(x, s))
  {
    if s == [] {
    } else if Le(x, s[0]) {
      var r := [x] + s;
      forall i, j | 0 <= i < j < |r| ensures Le(r[i], r[j]) {
        if i == 0 && j > 1 {
          LeTransitive(x, s[0], s[j - 1]);
        }
      }
    } else {
      LeTotal(x, s[0]);
      InsertSorted(x, s[1..]);
      var t := Insert(x, s[1..]);
      forall y | y in t ensures Le(s[0], y) {
        assert y in multiset(t);
        if y != x {
          assert y in multiset(s[1..]);
          assert y in s[1..];
        }
      }
    }
  }

  /** A sorted arrangement of the same names. */
  function Sort(s: seq<Name>): (r: seq<Name>)
    ensures multiset(r) == multiset(s)
  {
    if s == [] then []
    else
      assert s == [s[0]] + s[1..];
      Insert(s[0], Sort(s[1..]))
  }

  lemma {:induction false} SortSorts(s: seq<Name>)
    ensures Sorted(Sort(s))
  {
    if s != [] {
      SortSorts(s[1..]);
      InsertSorted(s[0], Sort(s[1..]));
    }
  }

  lemma {:induction false} LeastFirst(a: seq<Name>, x: Name)
    requires Sorted(a) && x in a
    ensures Le(a[0], x)
  {
    LeReflexive(x);
    var i :| 0 <= i < |a| && a[i] == x;
    assert i > 0 ==> Le(a[0], a[i]);
  }

  lemma {:induction false} SameHead(a: seq<Name>, b: seq<Name>)
    requires Sorted(a) && Sorted(b) && multiset(a) == multiset(b) && a != []
    ensures b != [] && a[0] == b[0]
  {
    assert a[0] in multiset(b) && b != [];
    assert b[0] in multiset(a);
    LeastFirst(a, b[0]);
    LeastFirst(b, a[0]);
    LeAntisymmetric(a[0], b[0]);
  }

  lemma {:induction false} TailMultiset(a: seq<Name>)
    requires a != []
    ensures multiset(a[1..]) == multiset(a) - multiset{a[0]}
  {
    assert a == [a[0]] + a[1..];
  }

  /** There is only one sorted arrangement of given names. */
  lemma {:induction false} SortedUnique(a: seq<Name>, b: seq<Name>)
    requires Sorted(a) && Sorted(b) && multiset(a) == multiset(b)
    ensures a == b
  {
    hide Sorted, Le;
    if a == [] {
      assert |b| == |multiset(b)| == |multiset(a)| == 0;
    } else {
      SameHead(a, b);
      TailMultiset(a);
      TailMultiset(b);
      SortedTail(a);
      SortedTail(b);
      SortedUnique(a[1..], b[1..]);
      assert a == [a[0]] + a[1..] && b == [b[0]] + b[1..];
    }
  }

  lemma {:induction false} SortedTail(a: seq<Name>)
    requires Sorted(a) && a != []
    ensures Sorted(a[1..])
  {
  }

  lemma {:induction false} LeReflexive(a: Name)
    ensures Le(a, a)
    decreases |a|
  {
    if a != [] {
      LeReflexive(a[1..]);
    }
  }
}
