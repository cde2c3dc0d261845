/** Stable sorting, as sort.SliceStable promises it: the services only rely on the
    result being ordered, a permutation, and stable. */
module Sorting {
  import opened Basics

  ghost predicate TotalPreorder<T(!new)>(le: (T, T) -> bool) {
    && (forall x, y :: le(x, y) || le(y, x))
    && (forall x, y, z :: le(x, y) && le(y, z) ==> le(x, z))
  }

  ghost predicate Sorted<T>(s: seq<T>, le: (T, T) -> bool) {
    forall i, j :: 0 <= i < j < |s| ==> le(s[i], s[j])
  }

  /** x stands somewhere before y in s. */
  ghost predicate Precedes<T>(s: seq<T>, x: T, y: T) {
    exists i, j :: 0 <= i < j < |s| && s[i] == x && s[j] == y
  }

  /** Elements that compare as equal keep the order they have in s. */
  ghost predicate Stable<T>(s: seq<T>, r: seq<T>, le: (T, T) -> bool) {
    forall i, j :: 0 <= i < j < |r| && le(r[j], r[i]) ==> Precedes(s, r[i], r[j])
  }

  /** Where x goes in the ordered r: after everything that is not greater. */
  function Position<T>(r: seq<T>, x: T, le: (T, T) -> bool): (p: nat)
    ensures p <= |r|
  {
    if r == [] || le(r[|r| - 1], x) then |r| else Position(r[..|r| - 1], x, le)
  }

  function StableSort<T>(s: seq<T>, le: (T, T) -> bool): seq<T> {
    if s == [] then [] else
    var r := StableSort(s[..|s| - 1], le);
    var p := Position(r, s[|s| - 1], le);
    InsertAt(r, p, s[|s| - 1])
  }

  lemma {:induction false} PositionSplits<T(!new)>(r: seq<T>, x: T, le: (T, T) -> bool)
    requires TotalPreorder(le) && Sorted(r, le)
    ensures var p := Position(r, x, le);
      (forall i :: 0 <= i < p ==> le(r[i], x)) && (forall i :: p <= i < |r| ==> !le(r[i], x))
  {
    if r != [] {
      if le(r[|r| - 1], x) {
        forall i | 0 <= i < |r|
          ensures le(r[i], x)
        {
          assert i == |r| - 1 || le(r[i], r[|r| - 1]);
        }
      } else {
        PositionSplits(r[..|r| - 1], x, le);
      }
    }
  }

  function InsertAt<T>(r: seq<T>, p: nat, x: T): seq<T>
    requires p <= |r|
  {
    r[..p] + [x] + r[p..]
  }

  lemma InsertSorted<T(!new)>(r: seq<T>, x: T, le: (T, T) -> bool)
    requires TotalPreorder(le) && Sorted(r, le)
    ensures Sorted(InsertAt(r, Position(r, x, le), x), le)
  {
    PositionSplits(r, x, le);
  }

  lemma PrecedesGrows<T>(s: seq<T>, z: T, x: T, y: T)
    requires Precedes(s, x, y)
    ensures Precedes(s + [z], x, y)
  {
    var i, j :| 0 <= i < j < |s| && s[i] == x && s[j] == y;
    assert (s + [z])[i] == x && (s + [z])[j] == y;
  }

  lemma EarlierPrecedesLast<T>(s: seq<T>, x: T, y: T)
    requires y in s
    ensures Precedes(s + [x], y, x)
  {
    var i :| 0 <= i < |s| && s[i] == y;
    assert (s + [x])[i] == y && (s + [x])[|s|] == x;
  }

  lemma InsertStable<T(!new)>(s: seq<T>, r: seq<T>, x: T, le: (T, T) -> bool)
    requires TotalPreorder(le) && Sorted(r, le) && Stable(s, r, le)
    requires forall y :: y in r ==> y in s
    ensures Stable(s + [x], InsertAt(r, Position(r, x, le), x), le)
  {
    var p := Position(r, x, le);
    var r' := InsertAt(r, p, x);
    PositionSplits(r, x, le);
    forall i, j | 0 <= i < j < |r'| && le(r'[j], r'[i])
      ensures Precedes(s + [x], r'[i], r'[j])
    {
      if j == p {
        EarlierPrecedesLast(s, x, r'[i]);
      } else if i != p {
        var i', j' := if i < p then i else i - 1, if j < p then j else j - 1;
        assert r[i'] == r'[i] && r[j'] == r'[j];
        PrecedesGrows(s, x, r[i'], r[j']);
      }
    }
  }

  /** The result is ordered, a permutation of the input, and stable. */
  lemma {:induction false} StableSortSpec<T(!new)>(s: seq<T>, le: (T, T) -> bool)
    requires TotalPreorder(le)
    ensures var r := StableSort(s, le);
      Sorted(r, le) && multiset(r) == multiset(s) && |r| == |s| && Stable(s, r, le)
  {
    if s != [] {
      var front, x := s[..|s| - 1], s[|s| - 1];
      assert s == front + [x];
      StableSortSpec(front, le);
      var r := StableSort(front, le);
      PermutationKeepsElements(front, r);
      InsertSorted(r, x, le);
      InsertStable(front, r, x, le);
      var p := Position(r, x, le);
      assert r == r[..p] + r[p..];
      assert StableSort(s, le) == InsertAt(r, p, x);
    }
  }

  lemma PermutationKeepsElements<T>(s: seq<T>, r: seq<T>)
    requires multiset(s) == multiset(r)
    ensures Elements(s) == Elements(r)
    ensures forall x :: x in s <==> x in r
  {
    forall x
      ensures x in s <==> x in r
    {
      assert x in s <==> x in multiset(s);
      assert x in r <==> x in multiset(r);
    }
  }

  lemma {:induction false} DistinctByCount<T>(s: seq<T>)
    ensures NoDuplicates(s) <==> forall x :: multiset(s)[x] <= 1
  {
    if s != [] {
      var front, x := s[..|s| - 1], s[|s| - 1];
      assert s == front + [x];
      DistinctByCount(front);
      assert x in front <==> multiset(front)[x] >= 1;
      assert multiset(s) == multiset(front) + multiset{x};
      if NoDuplicates(s) {
        assert NoDuplicates(front);
        assert x !in front;
      } else if NoDuplicates(front) {
        var i, j :| 0 <= i < j < |s| && s[i] == s[j];
        assert j == |s| - 1;
        assert multiset(s)[x] >= 2;
      } else {
        var y :| multiset(front)[y] > 1;
        assert multiset(s)[y] > 1;
      }
    }
  }

  lemma PermutationStaysDistinct<T>(s: seq<T>, r: seq<T>)
    requires multiset(s) == multiset(r) && NoDuplicates(s)
    ensures NoDuplicates(r)
  {
    DistinctByCount(s);
    DistinctByCount(r);
  }

  // ── Go's string order ──

  predicate LexLe(a: string, b: string) {
    a == "" || (b != "" && (a[0] < b[0] || (a[0] == b[0] && LexLe(a[1..], b[1..]))))
  }

  lemma {:induction false} LexTotal(a: string, b: string)
    ensures LexLe(a, b) || LexLe(b, a)
  {
    if a != "" && b != "" && a[0] == b[0] {
      LexTotal(a[1..], b[1..]);
    }
  }

  lemma {:induction false} LexTransitive(a: string, b: string, c: string)
    requires LexLe(a, b) && LexLe(b, c)
    ensures LexLe(a, c)
  {
    if a != "" && a[0] == b[0] == c[0] {
      LexTransitive(a[1..], b[1..], c[1..]);
    }
  }

  lemma {:induction false} LexAntisymmetric(a: string, b: string)
    requires LexLe(a, b) && LexLe(b, a)
    ensures a == b
  {
    if a != "" {
      LexAntisymmetric(a[1..], b[1..]);
      assert a == [a[0]] + a[1..] && b == [b[0]] + b[1..];
    }
  }

  /** Length of the common prefix. */
  function FirstDiff(a: string, b: string): (i: nat)
    ensures i <= |a| && i <= |b|
    ensures forall j :: 0 <= j < i ==> a[j] == b[j]
    ensures i < |a| && i < |b| ==> a[i] != b[i]
  {
    if a == "" || b == "" || a[0] != b[0] then 0 else 1 + FirstDiff(a[1..], b[1..])
  }

  lemma {:induction false} LexLeByFirstDiff(a: string, b: string)
    ensures var i := FirstDiff(a, b); LexLe(a, b) <==> i == |a| || (i < |b| && a[i] < b[i])
  {
    if a != "" && b != "" && a[0] == b[0] {
      LexLeByFirstDiff(a[1..], b[1..]);
    }
  }
}
