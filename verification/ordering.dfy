/** Ordering of records by their `metadata.name`, and the ascending sort the
    list actions apply before announcing a list. */
module Ordering {

  /** Lexicographic order on names, comparing character by character as the
      relational operators on strings do. */
  predicate NameLe(a: string, b: string)
    decreases |a|
  {
    |a| == 0 || (|b| > 0 && (a[0] < b[0] || (a[0] == b[0] && NameLe(a[1..], b[1..]))))
  }

  lemma {:induction false} NameLeTotal(a: string, b: string)
    ensures NameLe(a, b) || NameLe(b, a)
    decreases |a|
  {
    if |a| > 0 && |b| > 0 && a[0] == b[0] {
      NameLeTotal(a[1..], b[1..]);
    }
  }

  lemma {:induction false} NameLeTransitive(a: string, b: string, c: string)
    requires NameLe(a, b) && NameLe(b, c)
    ensures NameLe(a, c)
    decreases |a|
  {
    if |a| > 0 && a[0] == b[0] && b[0] == c[0] {
      NameLeTransitive(a[1..], b[1..], c[1..]);
    }
  }

  lemma {:induction false} NameLeAntisymmetric(a: string, b: string)
    requires NameLe(a, b) && NameLe(b, a)
    ensures a == b
    decreases |a|
  {
    if |a| > 0 {
      NameLeAntisymmetric(a[1..], b[1..]);
      assert a == [a[0]] + a[1..];
      assert b == [b[0]] + b[1..];
    }
  }

  /** Every neighbouring pair of `xs` is in ascending name order. */
  predicate SortedBy<T>(xs: seq<T>, key: T -> string) {
    forall i :: 0 < i < |xs| ==> NameLe(key(xs[i - 1]), key(xs[i]))
  }

  /** No two elements of `xs` share a name. */
  predicate DistinctKeys<T>(xs: seq<T>, key: T -> string) {
    forall i, j :: 0 <= i < j < |xs| ==> key(xs[i]) != key(xs[j])
  }

  /** Places `x` in the sorted list `xs`, ahead of the first element whose
      name is not below its own. */
  function Insert<T>(x: T, xs: seq<T>, key: T -> string): (r: seq<T>)
    requires SortedBy(xs, key)
    ensures SortedBy(r, key)
    ensures multiset(r) == multiset(xs) + multiset{x}
    ensures |r| == |xs| + 1
    ensures r[0] == x || (|xs| > 0 && r[0] == xs[0])
  {
    if |xs| == 0 then [x]
    else if NameLe(key(x), key(xs[0])) then [x] + xs
    else
      var t := Insert(x, xs[1..], key);
      NameLeTotal(key(x), key(xs[0]));
      assert xs == [xs[0]] + xs[1..];
      [xs[0]] + t
  }

  /** The list sorted ascending by name (an insertion sort). */
  function SortBy<T>(xs: seq<T>, key: T -> string): (r: seq<T>)
    ensures SortedBy(r, key)
    ensures multiset(r) == multiset(xs)
  {
    if |xs| == 0 then []
    else
      assert xs == [xs[0]] + xs[1..];
      Insert(xs[0], SortBy(xs[1..], key), key)
  }

  /** Adjacent order implies order between any two positions. */
  lemma {:induction false} SortedPairwise<T>(xs: seq<T>, key: T -> string, i: int, j: int)
    requires SortedBy(xs, key)
    requires 0 <= i <= j < |xs|
    ensures NameLe(key(xs[i]), key(xs[j]))
    decreases j - i
  {
    if i == j {
      NameLeTotal(key(xs[i]), key(xs[j]));
    } else {
      SortedPairwise(xs, key, i, j - 1);
      NameLeTransitive(key(xs[i]), key(xs[j - 1]), key(xs[j]));
    }
  }

  lemma TailSorted<T>(xs: seq<T>, key: T -> string)
    requires |xs| > 0 && SortedBy(xs, key)
    ensures SortedBy(xs[1..], key)
  {
    forall k | 0 < k < |xs[1..]| ensures NameLe(key(xs[1..][k - 1]), key(xs[1..][k])) {
      assert xs[1..][k - 1] == xs[k] && xs[1..][k] == xs[k + 1];
    }
  }

  lemma TailDistinct<T>(xs: seq<T>, key: T -> string)
    requires |xs| > 0 && DistinctKeys(xs, key)
    ensures DistinctKeys(xs[1..], key)
  {
    forall p, q | 0 <= p < q < |xs[1..]| ensures key(xs[1..][p]) != key(xs[1..][q]) {
      assert xs[1..][p] == xs[p + 1] && xs[1..][q] == xs[q + 1];
    }
  }

  /** Two sorted permutations of a list with distinct names start with the
      same element: the least one. */
  lemma SameHead<T>(a: seq<T>, b: seq<T>, key: T -> string)
    requires |a| > 0 && |b| > 0
    requires SortedBy(a, key) && SortedBy(b, key)
    requires multiset(a) == multiset(b)
    requires DistinctKeys(a, key)
    ensures a[0] == b[0]
  {
    assert a[0] in multiset(b);
    var j :| 0 <= j < |b| && b[j] == a[0];
    assert b[0] in multiset(a);
    var i :| 0 <= i < |a| && a[i] == b[0];
    SortedPairwise(b, key, 0, j);
    SortedPairwise(a, key, 0, i);
    NameLeAntisymmetric(key(a[0]), key(b[0]));
  }

  /** Among lists whose names are distinct, the sorted arrangement is unique:
      two sorted permutations of the same elements are equal. */
  lemma {:induction false} SortedPermutationUnique<T>(a: seq<T>, b: seq<T>, key: T -> string)
    requires SortedBy(a, key) && SortedBy(b, key)
    requires multiset(a) == multiset(b)
    requires DistinctKeys(a, key)
    ensures a == b
    decreases |a|
  {
    assert |a| == |multiset(a)| == |multiset(b)| == |b|;
    if |a| > 0 {
      SameHead(a, b, key);
      assert a == [a[0]] + a[1..];
      assert b == [b[0]] + b[1..];
      assert multiset(a[1..]) == multiset(a) - multiset{a[0]};
      assert multiset(b[1..]) == multiset(b) - multiset{b[0]};
      TailSorted(a, key);
      TailSorted(b, key);
      TailDistinct(a, key);
      SortedPermutationUnique(a[1..], b[1..], key);
    }
  }
}
