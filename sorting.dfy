/**
 * The orderings the queries ask MongoDB for: `sort({updatedAt: -1})`,
 * `sort({createdAt: -1})`, `$sort: {playlistCount: -1}` and `sort({name: 1})`.
 * A sort is a permutation whose neighbours are in order; ties keep the order
 * in which the documents were stored.
 */
module Sorting {

  /** `le` relates every two elements one way or the other. */
  ghost predicate Total<T(!new)>(le: (T, T) -> bool) {
    forall a: T, b: T :: le(a, b) || le(b, a)
  }

  /** Every element is `le` its successor. */
  predicate SortedBy<T(!new)>(s: seq<T>, le: (T, T) -> bool) {
    forall i :: 0 < i < |s| ==> le(s[i - 1], s[i])
  }

  /** Puts `x` in front of the first element it is `le` to. */
  function Insert<T(!new)>(x: T, s: seq<T>, le: (T, T) -> bool): (r: seq<T>)
    requires Total(le)
    requires SortedBy(s, le)
    ensures multiset(r) == multiset(s) + multiset{x}
    ensures |r| == |s| + 1
    ensures SortedBy(r, le)
    ensures r[0] == x || (|s| > 0 && r[0] == s[0])
  {
    if s == [] then [x]
    else if le(x, s[0]) then [x] + s
    else
      var rest := Insert(x, s[1..], le);
      assert s == [s[0]] + s[1..];
      [s[0]] + rest
  }

  /** Insertion sort: a sorted permutation of `s`. */
  function SortBy<T(!new)>(s: seq<T>, le: (T, T) -> bool): (r: seq<T>)
    requires Total(le)
    ensures multiset(r) == multiset(s)
    ensures |r| == |s|
    ensures SortedBy(r, le)
  {
    if s == [] then []
    else
      assert s == [s[0]] + s[1..];
      Insert(s[0], SortBy(s[1..], le), le)
  }

  /** A sort only reorders: it keeps exactly the elements it was given. */
  lemma SortByKeepsElements<T(!new)>(s: seq<T>, le: (T, T) -> bool, x: T)
    requires Total(le)
    ensures x in SortBy(s, le) <==> x in s
  {
    var r := SortBy(s, le);
    assert x in r <==> x in multiset(r);
    assert x in s <==> x in multiset(s);
  }

  /** The descending order of an integer key, as `sort({key: -1})` asks. */
  function ByKeyDesc<T(!new)>(key: T -> int): (le: (T, T) -> bool)
    ensures forall a, b :: le(a, b) == (key(a) >= key(b))
  {
    (a: T, b: T) => key(a) >= key(b)
  }

  lemma ByKeyDescTotal<T(!new)>(key: T -> int)
    ensures Total(ByKeyDesc(key))
  {
  }

  /** Code-point lexicographic order on strings, as `sort({name: 1})` compares them. */
  predicate LexLe(a: string, b: string)
  {
    if a == [] then true
    else if b == [] then false
    else if a[0] != b[0] then a[0] < b[0]
    else LexLe(a[1..], b[1..])
  }

  lemma {:induction false} LexLeTotal(a: string, b: string)
    ensures LexLe(a, b) || LexLe(b, a)
  {
    if a != [] && b != [] && a[0] == b[0] {
      LexLeTotal(a[1..], b[1..]);
    }
  }

  lemma {:induction false} LexLeAntisymmetric(a: string, b: string)
    requires LexLe(a, b) && LexLe(b, a)
    ensures a == b
  {
    if a != [] && b != [] {
      LexLeAntisymmetric(a[1..], b[1..]);
      assert a == [a[0]] + a[1..] && b == [b[0]] + b[1..];
    }
  }

  /** The ascending order of a text key. */
  function ByTextAsc<T(!new)>(key: T -> string): (le: (T, T) -> bool)
    ensures forall a, b :: le(a, b) == LexLe(key(a), key(b))
  {
    (a: T, b: T) => LexLe(key(a), key(b))
  }

  lemma ByTextAscTotal<T(!new)>(key: T -> string)
    ensures Total(ByTextAsc(key))
  {
    forall a: T, b: T ensures ByTextAsc(key)(a, b) || ByTextAsc(key)(b, a) {
      LexLeTotal(key(a), key(b));
    }
  }

  /** With an integer key, a sorted sequence never has a larger key after a smaller one. */
  lemma {:induction false} SortedDescOrdered<T(!new)>(s: seq<T>, key: T -> int, i: int, j: int)
    requires SortedBy(s, ByKeyDesc(key))
    requires 0 <= i <= j < |s|
    ensures key(s[i]) >= key(s[j])
  {
    if i < j {
      SortedDescOrdered(s, key, i, j - 1);
      assert ByKeyDesc(key)(s[j - 1], s[j]);
    }
  }
}
