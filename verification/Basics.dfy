/** Small vocabulary shared by every component of the model. */
module Basics {

  datatype Option<+T> = None | Some(value: T)

  /** Instants and durations are counted in one integer unit per component. */
  type Time = int

  /** Go passes "" where SQL stores NULL. */
  function NullIfEmpty(s: string): Option<string> {
    if s == "" then None else Some(s)
  }

  /** sql.NullString.String: NULL reads back as "". */
  function StringOf(o: Option<string>): string {
    if o.Some? then o.value else ""
  }

  function Coalesce<T>(a: Option<T>, b: Option<T>): Option<T> {
    if a.Some? then a else b
  }

  function FirstNonEmpty(a: string, b: string): string {
    if a != "" then a else b
  }

  function Min(a: int, b: int): int {
    if a <= b then a else b
  }

  ghost predicate NoDuplicates<T>(s: seq<T>) {
    forall i, j :: 0 <= i < j < |s| ==> s[i] != s[j]
  }

  function Elements<T>(s: seq<T>): set<T> {
    set x | x in s
  }

  lemma PrefixStep<T>(s: seq<T>, i: nat)
    requires i < |s|
    ensures s[..i + 1] == s[..i] + [s[i]]
  {
  }

  lemma ElementsConcat<T>(a: seq<T>, b: seq<T>)
    ensures Elements(a + b) == Elements(a) + Elements(b)
  {
    forall x
      ensures x in Elements(a + b) <==> x in Elements(a) || x in Elements(b)
    {
      assert x in a + b <==> x in a || x in b;
    }
  }

  lemma ElementsAppend<T>(a: seq<T>, x: T)
    ensures Elements(a + [x]) == Elements(a) + {x}
  {
    ElementsConcat(a, [x]);
    assert Elements([x]) == {x};
  }

  /** A sequence without repetitions has as many elements as positions. */
  lemma {:induction false} ElementsOfDistinct<T>(s: seq<T>)
    requires NoDuplicates(s)
    ensures |Elements(s)| == |s|
  {
    if s != [] {
      var front, last := s[..|s| - 1], s[|s| - 1];
      ElementsOfDistinct(front);
      assert Elements(s) == Elements(front) + {last};
      assert last !in Elements(front);
    } else {
      assert Elements(s) == {};
    }
  }

  lemma {:induction false} SubsetSize<T>(a: set<T>, b: set<T>)
    requires a <= b
    ensures |a| <= |b|
    decreases a
  {
    if a != {} {
      var x :| x in a;
      SubsetSize(a - {x}, b - {x});
    }
  }

  /** Some element of the longer of two lists without repetitions is not in the shorter. */
  lemma Pigeonhole<T>(short: seq<T>, long: seq<T>) returns (j: nat)
    requires NoDuplicates(short) && NoDuplicates(long) && |short| < |long|
    ensures j < |long| && long[j] !in short
  {
    ElementsOfDistinct(short);
    ElementsOfDistinct(long);
    if Elements(long) <= Elements(short) {
      SubsetSize(Elements(long), Elements(short));
    }
    var x :| x in Elements(long) && x !in Elements(short);
    j :| 0 <= j < |long| && long[j] == x;
  }

  lemma SubsetOfSameSize<T>(a: set<T>, b: set<T>)
    requires a <= b && |a| == |b|
    ensures a == b
  {
    if x :| x in b && x !in a {
      SubsetSize(a, b - {x});
    }
  }
}
