/**
 * Collections as MongoDB stores them: documents keyed by an id drawn from
 * one growing counter, so that ascending id order is insertion order (the
 * natural order of a scan), and arrays of references that `$push` appends to
 * and `$pull` filters.
 */
module Collection {
  import opened Wrappers

  /** Every document of `m` with an id below `n`, in insertion order. */
  function Scan<T(!new)>(m: map<nat, T>, n: nat): (r: seq<T>)
    ensures forall x :: x in r <==> exists k :: k in m && k < n && m[k] == x
  {
    if n == 0 then []
    else Scan(m, n - 1) + (if n - 1 in m then [m[n - 1]] else [])
  }

  /** The ids below `n` whose document satisfies `p`. */
  ghost function Chosen<T(!new)>(m: map<nat, T>, n: nat, p: T -> bool): set<nat> {
    set k | k in m && k < n && p(m[k])
  }

  lemma ChosenStep<T(!new)>(m: map<nat, T>, n: nat, p: T -> bool)
    requires n > 0
    ensures n - 1 in m && p(m[n - 1]) ==> |Chosen(m, n, p)| == |Chosen(m, n - 1, p)| + 1
    ensures !(n - 1 in m && p(m[n - 1])) ==> Chosen(m, n, p) == Chosen(m, n - 1, p)
  {
    if n - 1 in m && p(m[n - 1]) {
      assert Chosen(m, n, p) == Chosen(m, n - 1, p) + {n - 1};
    } else {
      assert Chosen(m, n, p) == Chosen(m, n - 1, p);
    }
  }

  /** One more id scanned adds its document to the filtered scan iff it is stored and satisfies `p`. */
  lemma ScanFilterStep<T(!new)>(m: map<nat, T>, n: nat, p: T -> bool)
    requires n > 0
    ensures |Filter(Scan(m, n), p)| == |Filter(Scan(m, n - 1), p)| + (if n - 1 in m && p(m[n - 1]) then 1 else 0)
  {
    var tail := if n - 1 in m then [m[n - 1]] else [];
    FilterConcat(Scan(m, n - 1), tail, p);
    if n - 1 in m {
      assert tail[1..] == [];
    }
  }

  /** The documents of a scan that satisfy `p` are as many as the ids whose document does. */
  lemma {:induction false} ScanFilterCount<T(!new)>(m: map<nat, T>, n: nat, p: T -> bool)
    ensures |Filter(Scan(m, n), p)| == |Chosen(m, n, p)|
  {
    if n > 0 {
      ScanFilterCount(m, n - 1, p);
      ScanFilterStep(m, n, p);
      ChosenStep(m, n, p);
    }
  }

  /** The elements of `s` that satisfy `p`, in their order: a MongoDB filter. */
  function Filter<T(!new)>(s: seq<T>, p: T -> bool): (r: seq<T>)
    ensures |r| <= |s|
    ensures forall x :: x in r <==> x in s && p(x)
    ensures forall i :: 0 <= i < |r| ==> p(r[i])
  {
    if s == [] then []
    else (if p(s[0]) then [s[0]] else []) + Filter(s[1..], p)
  }

  /** Filtering a concatenation filters each part: the relative order is kept. */
  lemma {:induction false} FilterConcat<T(!new)>(a: seq<T>, b: seq<T>, p: T -> bool)
    ensures Filter(a + b, p) == Filter(a, p) + Filter(b, p)
  {
    if a != [] {
      assert (a + b)[1..] == a[1..] + b;
      FilterConcat(a[1..], b, p);
    } else {
      assert a + b == b;
    }
  }

  /** The elements of `s` whose flag in `keep` is set, in their order. */
  function Select<T>(s: seq<T>, keep: seq<bool>): (r: seq<T>)
    requires |keep| == |s|
    ensures |r| <= |s| && |r| == Trues(keep)
  {
    if s == [] then [] else (if keep[0] then [s[0]] else []) + Select(s[1..], keep[1..])
  }

  /** `a` is `b` with some elements deleted and the rest in their order. */
  ghost predicate Subsequence<T>(a: seq<T>, b: seq<T>) {
    exists keep: seq<bool> :: |keep| == |b| && a == Select(b, keep)
  }

  lemma SubsequenceNil<T>()
    ensures Subsequence<T>([], [])
  {
    assert Select<T>([], []) == [];
  }

  /** Keeping the first element of both sides keeps a subsequence. */
  lemma SubsequenceCons<T>(x: T, a: seq<T>, b: seq<T>)
    requires Subsequence(a, b)
    ensures Subsequence([x] + a, [x] + b)
  {
    var keep :| |keep| == |b| && a == Select(b, keep);
    var k := [true] + keep;
    assert ([x] + b)[1..] == b && k[1..] == keep;
    assert Select([x] + b, k) == [x] + a;
  }

  /** Skipping the first `n` elements is a deletion. */
  lemma SubsequenceSkip<T>(a: seq<T>, b: seq<T>, n: nat)
    requires n <= |b| && Subsequence(a, b[n..])
    ensures Subsequence(a, b)
  {
    var keep :| |keep| == |b[n..]| && a == Select(b[n..], keep);
    SelectSkip(b, n, keep);
  }

  /** Flags that clear the first `n` elements select from the rest alone. */
  lemma {:induction false} SelectSkip<T>(b: seq<T>, n: nat, keep: seq<bool>)
    requires n <= |b| && |keep| == |b| - n
    ensures Select(b, seq(n, _ => false) + keep) == Select(b[n..], keep)
  {
    var k := seq(n, _ => false) + keep;
    if n > 0 {
      assert k[0] == false && k[1..] == seq(n - 1, _ => false) + keep;
      assert b[1..][n - 1..] == b[n..];
      SelectSkip(b[1..], n - 1, keep);
      assert Select(b, k) == Select(b[1..], k[1..]);
    } else {
      assert k == keep && b[n..] == b;
    }
  }

  /** How many flags are set. */
  function Trues(keep: seq<bool>): nat {
    if keep == [] then 0 else (if keep[0] then 1 else 0) + Trues(keep[1..])
  }

  /** The flags that select, from `s`, what `inner` selects from what `outer` selects. */
  function Compose(outer: seq<bool>, inner: seq<bool>): (r: seq<bool>)
    requires |inner| == Trues(outer)
    ensures |r| == |outer|
  {
    if outer == [] then []
    else if outer[0] then [inner[0]] + Compose(outer[1..], inner[1..])
    else [false] + Compose(outer[1..], inner)
  }

  lemma {:induction false} SelectCompose<T>(s: seq<T>, outer: seq<bool>, inner: seq<bool>)
    requires |outer| == |s| && |inner| == Trues(outer)
    ensures Select(Select(s, outer), inner) == Select(s, Compose(outer, inner))
  {
    if s != [] {
      var c := Compose(outer, inner);
      if outer[0] {
        SelectCompose(s[1..], outer[1..], inner[1..]);
        var mid := Select(s, outer);
        assert mid == [s[0]] + Select(s[1..], outer[1..]);
        assert mid[1..] == Select(s[1..], outer[1..]);
        assert c[0] == inner[0] && c[1..] == Compose(outer[1..], inner[1..]);
      } else {
        SelectCompose(s[1..], outer[1..], inner);
        assert Select(s, outer) == Select(s[1..], outer[1..]);
        assert c[0] == false && c[1..] == Compose(outer[1..], inner);
        assert Select(s, c) == Select(s[1..], c[1..]);
      }
    }
  }

  /** A subsequence of a subsequence is a subsequence. */
  lemma SubsequenceTransitive<T>(a: seq<T>, b: seq<T>, c: seq<T>)
    requires Subsequence(a, b) && Subsequence(b, c)
    ensures Subsequence(a, c)
  {
    var inner :| |inner| == |b| && a == Select(b, inner);
    var outer :| |outer| == |c| && b == Select(c, outer);
    SelectCompose(c, outer, inner);
  }

  /** A prefix is what is left after deleting the tail. */
  lemma SubsequencePrefix<T>(s: seq<T>, n: nat)
    requires n <= |s|
    ensures Subsequence(s[..n], s)
  {
    SelectPrefix(s, n);
  }

  lemma {:induction false} SelectPrefix<T>(s: seq<T>, n: nat)
    requires n <= |s|
    ensures Select(s, seq(n, _ => true) + seq(|s| - n, _ => false)) == s[..n]
  {
    var k := seq(n, _ => true) + seq(|s| - n, _ => false);
    if n > 0 {
      SelectPrefix(s[1..], n - 1);
      assert k[0] && k[1..] == seq(n - 1, _ => true) + seq(|s[1..]| - (n - 1), _ => false);
      assert s[..n] == [s[0]] + s[1..][..n - 1];
    } else {
      SelectSkip(s, |s|, []);
      assert k == seq(|s|, _ => false) + [];
      assert Select(s[|s|..], []) == [];
    }
  }

  /** A filter only deletes. */
  lemma {:induction false} FilterDeletes<T(!new)>(s: seq<T>, p: T -> bool)
    ensures Subsequence(Filter(s, p), s)
  {
    if s == [] {
      SubsequenceNil<T>();
    } else {
      FilterDeletes(s[1..], p);
      assert [s[0]] + s[1..] == s;
      if p(s[0]) {
        SubsequenceCons(s[0], Filter(s[1..], p), s[1..]);
      } else {
        SubsequenceSkip(Filter(s[1..], p), s, 1);
      }
    }
  }

  /** A filter that every element passes changes nothing. */
  lemma {:induction false} FilterAll<T(!new)>(s: seq<T>, p: T -> bool)
    requires forall x :: x in s ==> p(x)
    ensures Filter(s, p) == s
  {
    if s != [] {
      FilterAll(s[1..], p);
      assert s == [s[0]] + s[1..];
    }
  }

  /** The first element that satisfies `p`, as `findOne` returns it. */
  function FindFirst<T(!new)>(s: seq<T>, p: T -> bool): (r: Option<T>)
    ensures r.Some? ==> r.value in s && p(r.value)
    ensures r.None? <==> forall x :: x in s ==> !p(x)
  {
    if s == [] then None
    else if p(s[0]) then Some(s[0])
    else FindFirst(s[1..], p)
  }

  /** No element occurs twice. */
  ghost predicate NoDuplicates<T>(s: seq<T>) {
    forall i, j :: 0 <= i < j < |s| ==> s[i] != s[j]
  }

  lemma NoDuplicatesAppend<T>(s: seq<T>, x: T)
    requires NoDuplicates(s) && x !in s
    ensures NoDuplicates(s + [x])
  {
    var t := s + [x];
    forall i, j | 0 <= i < j < |t| ensures t[i] != t[j] {
      if j == |s| {
        assert t[i] == s[i];
        assert s[i] in s;
      }
    }
  }

  /** A filter never introduces a repetition. */
  lemma {:induction false} FilterNoDuplicates<T(!new)>(s: seq<T>, p: T -> bool)
    requires NoDuplicates(s)
    ensures NoDuplicates(Filter(s, p))
  {
    if s != [] {
      assert NoDuplicates(s[1..]) by {
        forall i, j | 0 <= i < j < |s[1..]| ensures s[1..][i] != s[1..][j] {
          assert s[1..][i] == s[i + 1] && s[1..][j] == s[j + 1];
        }
      }
      FilterNoDuplicates(s[1..], p);
      var rest := Filter(s[1..], p);
      if p(s[0]) {
        assert s[0] !in s[1..] by {
          forall k | 0 <= k < |s[1..]| ensures s[1..][k] != s[0] {
            assert s[1..][k] == s[k + 1];
          }
        }
        assert s[0] !in rest;
        var r := [s[0]] + rest;
        forall i, j | 0 <= i < j < |r| ensures r[i] != r[j] {
          if i == 0 {
            assert r[j] == rest[j - 1];
            assert rest[j - 1] in rest;
          } else {
            assert r[i] == rest[i - 1] && r[j] == rest[j - 1];
          }
        }
      } else {
        assert Filter(s, p) == rest;
      }
    }
  }

  /** `$pull`: every occurrence of `x` removed, the rest kept in order. */
  function Without<T(==,!new)>(s: seq<T>, x: T): (r: seq<T>)
    ensures x !in r
    ensures forall y :: y != x ==> (y in r <==> y in s)
    ensures |r| == |s| - multiset(s)[x]
  {
    if s == [] then []
    else
      assert s == [s[0]] + s[1..];
      (if s[0] == x then [] else [s[0]]) + Without(s[1..], x)
  }

  /** `$pull` is `Filter` with the predicate "differs from `x`". */
  lemma {:induction false} WithoutIsFilter<T(!new)>(s: seq<T>, x: T)
    ensures Without(s, x) == Filter(s, y => y != x)
  {
    if s != [] {
      WithoutIsFilter(s[1..], x);
    }
  }

  /** A second `$pull` of the same value changes nothing. */
  lemma WithoutIdempotent<T(!new)>(s: seq<T>, x: T)
    ensures Without(Without(s, x), x) == Without(s, x)
  {
    WithoutAbsent(Without(s, x), x);
  }

  /** `$pull` of a value that is not there changes nothing. */
  lemma {:induction false} WithoutAbsent<T(!new)>(s: seq<T>, x: T)
    requires x !in s
    ensures Without(s, x) == s
  {
    if s != [] {
      assert s[0] != x;
      WithoutAbsent(s[1..], x);
      assert s == [s[0]] + s[1..];
    }
  }

  lemma WithoutNoDuplicates<T(!new)>(s: seq<T>, x: T)
    requires NoDuplicates(s)
    ensures NoDuplicates(Without(s, x))
  {
    WithoutIsFilter(s, x);
    FilterNoDuplicates(s, y => y != x);
  }

  /** The number of lists in which `x` occurs. */
  function ListsContaining<T(==,!new)>(lists: seq<seq<T>>, x: T): (n: nat)
    ensures n <= |lists|
  {
    if lists == [] then 0
    else (if x in lists[0] then 1 else 0) + ListsContaining(lists[1..], x)
  }

  /** The number of entries equal to `x` over all lists: what `$unwind` then `$group` counts. */
  function Occurrences<T(==,!new)>(lists: seq<seq<T>>, x: T): (n: nat)
    ensures n >= ListsContaining(lists, x)
    ensures n == 0 <==> forall i :: 0 <= i < |lists| ==> x !in lists[i]
  {
    if lists == [] then 0
    else
      assert x in lists[0] <==> multiset(lists[0])[x] > 0;
      multiset(lists[0])[x] + Occurrences(lists[1..], x)
  }

  /** Without repetitions inside a list, counting entries counts lists. */
  lemma {:induction false} OccurrencesOfDuplicateFree<T(!new)>(lists: seq<seq<T>>, x: T)
    requires forall i :: 0 <= i < |lists| ==> NoDuplicates(lists[i])
    ensures Occurrences(lists, x) == ListsContaining(lists, x)
  {
    if lists != [] {
      OccurrencesOfDuplicateFree(lists[1..], x);
      CountInDuplicateFree(lists[0], x);
    }
  }

  lemma {:induction false} CountInDuplicateFree<T(!new)>(s: seq<T>, x: T)
    requires NoDuplicates(s)
    ensures multiset(s)[x] == if x in s then 1 else 0
  {
    if s != [] {
      assert s == [s[0]] + s[1..];
      assert NoDuplicates(s[1..]) by {
        forall i, j | 0 <= i < j < |s[1..]| ensures s[1..][i] != s[1..][j] {
          assert s[1..][i] == s[i + 1] && s[1..][j] == s[j + 1];
        }
      }
      CountInDuplicateFree(s[1..], x);
      if s[0] == x {
        assert x !in s[1..] by {
          forall k | 0 <= k < |s[1..]| ensures s[1..][k] != x {
            assert s[1..][k] == s[k + 1];
          }
        }
      }
    }
  }

  /** A reordering of a sequence without repetitions has none either. */
  lemma PermutationNoDuplicates<T(!new)>(a: seq<T>, b: seq<T>)
    requires multiset(a) == multiset(b) && NoDuplicates(a)
    ensures NoDuplicates(b)
  {
    forall i, j | 0 <= i < j < |b| ensures b[i] != b[j] {
      if b[i] == b[j] {
        var x := b[i];
        assert b == b[..j] + b[j..];
        assert x in b[..j] && x in b[j..];
        assert multiset(b)[x] >= 2;
        CountInDuplicateFree(a, x);
        assert false;
      }
    }
  }

  /** `$unwind` over a sequence of arrays: all their entries, one array after another. */
  function Flatten<T(!new)>(lists: seq<seq<T>>): (r: seq<T>)
    ensures forall x :: x in r <==> exists i :: 0 <= i < |lists| && x in lists[i]
  {
    if lists == [] then []
    else
      var rest := Flatten(lists[1..]);
      assert forall x :: x in rest <==> exists i :: 1 <= i < |lists| && x in lists[i] by {
        forall x ensures x in rest <==> exists i :: 1 <= i < |lists| && x in lists[i] {
          if x in rest {
            var j :| 0 <= j < |lists[1..]| && x in lists[1..][j];
            assert x in lists[j + 1];
          }
          if exists i :: 1 <= i < |lists| && x in lists[i] {
            var i :| 1 <= i < |lists| && x in lists[i];
            assert x in lists[1..][i - 1];
          }
        }
      }
      lists[0] + rest
  }

  /** The distinct elements of `s` in the order they first appear: the groups `$group` forms. */
  function Distinct<T(==,!new)>(s: seq<T>): (r: seq<T>)
    ensures NoDuplicates(r)
    ensures forall x :: x in r <==> x in s
  {
    if s == [] then []
    else
      var init := s[..|s| - 1];
      var last := s[|s| - 1];
      assert s == init + [last];
      var d := Distinct(init);
      if last in d then d
      else
        NoDuplicatesAppend(d, last);
        d + [last]
  }
}
