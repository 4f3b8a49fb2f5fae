/** Sequence operations the JavaScript code takes from the language:
    `filter`, `findIndex`, `slice(0, n)`, de-duplication through a `Set`, and
    the order-preserving "subsequence" relation their results stand in. */
module Seqs {
  import opened Common

  /** `a` can be obtained from `b` by deleting elements: same relative order. */
  predicate IsSubsequence<T(==)>(a: seq<T>, b: seq<T>)
    decreases |b|
  {
    if a == [] then true
    else if b == [] then false
    else (a[0] == b[0] && IsSubsequence(a[1..], b[1..])) || IsSubsequence(a, b[1..])
  }

  lemma {:induction false} SubsequenceMembers<T>(a: seq<T>, b: seq<T>)
    requires IsSubsequence(a, b)
    ensures |a| <= |b|
    ensures forall x :: x in a ==> x in b
    decreases |b|
  {
    if a != [] {
      if a[0] == b[0] && IsSubsequence(a[1..], b[1..]) {
        SubsequenceMembers(a[1..], b[1..]);
        assert a == [a[0]] + a[1..];
      } else {
        SubsequenceMembers(a, b[1..]);
      }
    }
  }

  lemma {:induction false} SubsequenceRefl<T>(a: seq<T>)
    ensures IsSubsequence(a, a)
    decreases |a|
  {
    if a != [] {
      SubsequenceRefl(a[1..]);
    }
  }

  lemma {:induction false} SubsequenceTrans<T>(a: seq<T>, b: seq<T>, c: seq<T>)
    requires IsSubsequence(a, b) && IsSubsequence(b, c)
    ensures IsSubsequence(a, c)
    decreases |c|
  {
    if a != [] {
      if b[0] == c[0] && IsSubsequence(b[1..], c[1..]) {
        if a[0] == b[0] && IsSubsequence(a[1..], b[1..]) {
          SubsequenceTrans(a[1..], b[1..], c[1..]);
        } else {
          SubsequenceTrans(a, b[1..], c[1..]);
        }
      } else {
        SubsequenceTrans(a, b, c[1..]);
      }
    }
  }

  /** A prefix is a subsequence. */
  lemma {:induction false} PrefixIsSubsequence<T>(a: seq<T>, b: seq<T>)
    requires a <= b
    ensures IsSubsequence(a, b)
    decreases |b|
  {
    if a != [] {
      PrefixIsSubsequence(a[1..], b[1..]);
    }
  }

  /** Appending the same element to both sides keeps the relation. */
  lemma {:induction false} SubsequenceAppend<T>(a: seq<T>, b: seq<T>, x: T)
    requires IsSubsequence(a, b)
    ensures IsSubsequence(a + [x], b + [x])
    decreases |b|
  {
    if a == [] {
      if b == [] {
      } else {
        SubsequenceAppend(a, b[1..], x);
        assert (b + [x])[1..] == b[1..] + [x];
      }
    } else if a[0] == b[0] && IsSubsequence(a[1..], b[1..]) {
      SubsequenceAppend(a[1..], b[1..], x);
      assert (a + [x])[1..] == a[1..] + [x];
      assert (b + [x])[1..] == b[1..] + [x];
    } else {
      SubsequenceAppend(a, b[1..], x);
      assert (b + [x])[1..] == b[1..] + [x];
    }
  }

  /** Appending to the longer side only keeps the relation. */
  lemma {:induction false} SubsequenceExtend<T>(a: seq<T>, b: seq<T>, x: T)
    requires IsSubsequence(a, b)
    ensures IsSubsequence(a, b + [x])
    decreases |b|
  {
    if a != [] {
      if a[0] == b[0] && IsSubsequence(a[1..], b[1..]) {
        SubsequenceExtend(a[1..], b[1..], x);
        assert (b + [x])[1..] == b[1..] + [x];
      } else {
        SubsequenceExtend(a, b[1..], x);
        assert (b + [x])[1..] == b[1..] + [x];
      }
    }
  }

  /** JavaScript `arr.filter(p)`: the elements satisfying `p`, in order. */
  function Filter<T(!new)>(s: seq<T>, p: T -> bool): (r: seq<T>)
    ensures |r| <= |s|
    ensures forall x :: x in r <==> x in s && p(x)
    decreases |s|
  {
    if s == [] then []
    else (if p(s[0]) then [s[0]] else []) + Filter(s[1..], p)
  }

  lemma {:induction false} FilterIsSubsequence<T(!new)>(s: seq<T>, p: T -> bool)
    ensures IsSubsequence(Filter(s, p), s)
    decreases |s|
  {
    if s != [] {
      FilterIsSubsequence(s[1..], p);
      var rest := Filter(s[1..], p);
      if p(s[0]) {
        assert Filter(s, p) == [s[0]] + rest;
        assert ([s[0]] + rest)[1..] == rest;
      } else {
        assert Filter(s, p) == rest;
      }
    }
  }

  /** The keys strictly increase along the sequence. */
  predicate IncreasingBy<T>(s: seq<T>, key: T -> int)
  {
    forall i, j :: 0 <= i < j < |s| ==> key(s[i]) < key(s[j])
  }

  /** Filtering keeps the keys increasing. */
  lemma {:induction false} FilterIncreasing<T(!new)>(s: seq<T>, p: T -> bool, key: T -> int)
    requires IncreasingBy(s, key)
    ensures IncreasingBy(Filter(s, p), key)
    decreases |s|
  {
    if s != [] {
      var tail := s[1..];
      assert IncreasingBy(tail, key) by {
        forall i, j | 0 <= i < j < |tail| ensures key(tail[i]) < key(tail[j]) {
          assert tail[i] == s[i + 1] && tail[j] == s[j + 1];
        }
      }
      FilterIncreasing(tail, p, key);
      var rest := Filter(tail, p);
      if p(s[0]) {
        forall y | y in rest ensures key(s[0]) < key(y) {
          var k :| 0 <= k < |tail| && tail[k] == y;
          assert tail[k] == s[k + 1];
        }
        ConsIncreasing(s[0], rest, key);
      }
    }
  }

  lemma ConsIncreasing<T>(x: T, rest: seq<T>, key: T -> int)
    requires IncreasingBy(rest, key)
    requires forall y :: y in rest ==> key(x) < key(y)
    ensures IncreasingBy([x] + rest, key)
  {
    var f := [x] + rest;
    forall i, j | 0 <= i < j < |f| ensures key(f[i]) < key(f[j]) {
      assert f[j] == rest[j - 1];
      if i > 0 {
        assert f[i] == rest[i - 1];
      }
    }
  }

  /** Reversing an increasing sequence makes the keys strictly decrease. */
  lemma ReverseDecreasing<T(!new)>(s: seq<T>, key: T -> int)
    requires IncreasingBy(s, key)
    ensures forall i, j :: 0 <= i < j < |Reverse(s)| ==> key(Reverse(s)[i]) > key(Reverse(s)[j])
  {
    var r := Reverse(s);
    forall i, j | 0 <= i < j < |r| ensures key(r[i]) > key(r[j]) {
      assert r[i] == s[|s| - 1 - i] && r[j] == s[|s| - 1 - j];
    }
  }

  /** Filtering with a predicate that holds everywhere changes nothing. */
  lemma {:induction false} FilterAll<T(!new)>(s: seq<T>, p: T -> bool)
    requires forall x :: x in s ==> p(x)
    ensures Filter(s, p) == s
    decreases |s|
  {
    if s != [] {
      FilterAll(s[1..], p);
      assert s == [s[0]] + s[1..];
    }
  }

  lemma {:induction false} FilterAppend<T(!new)>(s: seq<T>, x: T, p: T -> bool)
    ensures Filter(s + [x], p) == Filter(s, p) + (if p(x) then [x] else [])
    decreases |s|
  {
    if s == [] {
      assert [x][1..] == [];
    } else {
      assert (s + [x])[1..] == s[1..] + [x];
      FilterAppend(s[1..], x, p);
    }
  }

  /** JavaScript `arr.slice(0, n)`. */
  function Take<T>(s: seq<T>, n: nat): (r: seq<T>)
    ensures r <= s
    ensures |r| == if |s| < n then |s| else n
  {
    if |s| <= n then s else s[..n]
  }

  /** The elements in the opposite order, as `arr.slice().reverse()` gives. */
  function Reverse<T(!new)>(s: seq<T>): (r: seq<T>)
    ensures |r| == |s|
    ensures forall i :: 0 <= i < |s| ==> r[i] == s[|s| - 1 - i]
    ensures forall x :: x in r <==> x in s
    decreases |s|
  {
    if s == [] then []
    else
      assert s == [s[0]] + s[1..];
      Reverse(s[1..]) + [s[0]]
  }

  /** Reversing after an append puts the new element first. */
  lemma ReverseAppend<T(!new)>(s: seq<T>, x: T)
    ensures Reverse(s + [x]) == [x] + Reverse(s)
  {
    var lhs := Reverse(s + [x]);
    var rhs := [x] + Reverse(s);
    forall i | 0 <= i < |lhs| ensures lhs[i] == rhs[i] {
      if i > 0 {
        assert lhs[i] == (s + [x])[|s| - i];
      }
    }
  }

  /** JavaScript `arr.findIndex(p)`, with -1 as None. */
  function FindIndex<T>(s: seq<T>, p: T -> bool): (r: Option<nat>)
    ensures r.Some? ==> r.value < |s| && p(s[r.value])
    ensures r.Some? ==> forall j :: 0 <= j < r.value ==> !p(s[j])
    ensures r.None? ==> forall j :: 0 <= j < |s| ==> !p(s[j])
    decreases |s|
  {
    if s == [] then None
    else if p(s[0]) then Some(0)
    else match FindIndex(s[1..], p)
      case None => None
      case Some(i) => Some(i + 1)
  }

  /** The keys of the elements of `s`. */
  function KeySet<T(==), K(==)>(s: seq<T>, key: T -> K): set<K>
  {
    set x | x in s :: key(x)
  }

  lemma KeySetAppend<T, K>(s: seq<T>, x: T, key: T -> K)
    ensures KeySet(s + [x], key) == KeySet(s, key) + {key(x)}
  {
    assert forall y :: y in s + [x] <==> y in s || y == x;
  }

  /** The first element of `s` for each key, in the order of `s`: the value
      `uniqueBy` in extractMedicines.js builds with its `seen` set. */
  function UniqueBy<T(==), K(==)>(s: seq<T>, key: T -> K): (r: seq<T>)
    ensures KeySet(r, key) == KeySet(s, key)
    decreases |s|
  {
    if s == [] then []
    else
      var r := UniqueBy(s[..|s| - 1], key);
      var x := s[|s| - 1];
      assert s == s[..|s| - 1] + [x];
      KeySetAppend(s[..|s| - 1], x, key);
      KeySetAppend(r, x, key);
      if key(x) in KeySet(r, key) then r else r + [x]
  }

  /** One more element: `UniqueBy` keeps it exactly when its key is new. */
  lemma UniqueByAppend<T, K>(s: seq<T>, x: T, key: T -> K)
    ensures UniqueBy(s + [x], key) ==
      if key(x) in KeySet(UniqueBy(s, key), key) then UniqueBy(s, key) else UniqueBy(s, key) + [x]
  {
    assert (s + [x])[..|s|] == s;
  }

  /** Pairwise-distinct keys. */
  predicate DistinctKeys<T, K(==)>(s: seq<T>, key: T -> K)
  {
    forall i, j :: 0 <= i < j < |s| ==> key(s[i]) != key(s[j])
  }

  /** `s[j]` is the first element of `s` with its key. */
  predicate FirstOfKey<T, K(==)>(s: seq<T>, key: T -> K, j: int)
    requires 0 <= j < |s|
  {
    forall i :: 0 <= i < j ==> key(s[i]) != key(s[j])
  }

  lemma {:induction false} UniqueByProperties<T, K>(s: seq<T>, key: T -> K)
    ensures DistinctKeys(UniqueBy(s, key), key)
    ensures IsSubsequence(UniqueBy(s, key), s)
    ensures forall j :: 0 <= j < |s| && FirstOfKey(s, key, j) ==> s[j] in UniqueBy(s, key)
    decreases |s|
  {
    if s != [] {
      var init := s[..|s| - 1];
      var x := s[|s| - 1];
      var r := UniqueBy(init, key);
      UniqueByProperties(init, key);
      assert s == init + [x];
      if key(x) in KeySet(r, key) {
        SubsequenceExtend(r, init, x);
        SubsequenceMembers(r, init);
        var y :| y in r && key(y) == key(x);
        var i :| 0 <= i < |init| && init[i] == y;
        assert !FirstOfKey(s, key, |s| - 1) by {
          assert s[i] == init[i];
        }
        forall j | 0 <= j < |s| && FirstOfKey(s, key, j) ensures s[j] in r {
          assert j != |s| - 1;
          assert init[j] == s[j];
          assert FirstOfKey(init, key, j);
        }
      } else {
        SubsequenceAppend(r, init, x);
        forall i, j | 0 <= i < j < |r + [x]| ensures key((r + [x])[i]) != key((r + [x])[j]) {
          if j == |r| {
            assert (r + [x])[i] in r;
          }
        }
        forall j | 0 <= j < |s| && FirstOfKey(s, key, j) ensures s[j] in r + [x] {
          if j < |s| - 1 {
            assert init[j] == s[j];
            assert FirstOfKey(init, key, j);
          }
        }
      }
    }
  }

  /** De-duplication through a JavaScript `Set`: first occurrences, in order. */
  function Distinct<T(==,!new)>(s: seq<T>): (r: seq<T>)
    ensures forall x :: x in r <==> x in s
  {
    var r := UniqueBy(s, (x: T) => x);
    assert forall x :: x in r <==> x in KeySet(r, (x: T) => x);
    assert forall x :: x in s <==> x in KeySet(s, (x: T) => x);
    r
  }

  lemma DistinctProperties<T(!new)>(s: seq<T>)
    ensures forall i, j :: 0 <= i < j < |Distinct(s)| ==> Distinct(s)[i] != Distinct(s)[j]
    ensures IsSubsequence(Distinct(s), s)
  {
    UniqueByProperties(s, (x: T) => x);
  }
}
