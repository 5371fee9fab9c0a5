/**
 * The array operations every screen of the console uses on its React state:
 * `filter`, `map` over the element with a given id, `find`, `includes`, and
 * the append-if-absent and toggle idioms built from them.
 */
module Seqs {
  import opened Options

  // ---------------------------------------------------------------------------
  // filter
  // ---------------------------------------------------------------------------

  /** `s.filter(p)`: the elements of `s` that satisfy `p`, in their original order. */
  function Filter<T(!new)>(s: seq<T>, p: T -> bool): (r: seq<T>)
    ensures |r| <= |s|
    ensures forall x :: x in r <==> x in s && p(x)
  {
    if s == [] then [] else (if p(s[0]) then [s[0]] else []) + Filter(s[1..], p)
  }

  /** `a` can be obtained from `b` by deleting elements: `a` keeps `b`'s order. */
  ghost predicate IsSubseq<T(!new)>(a: seq<T>, b: seq<T>)
    decreases |b|
  {
    a == [] || (b != [] && ((a[0] == b[0] && IsSubseq(a[1..], b[1..])) || IsSubseq(a, b[1..])))
  }

  lemma {:induction false} FilterIsSubseq<T(!new)>(s: seq<T>, p: T -> bool)
    ensures IsSubseq(Filter(s, p), s)
  {
    if s != [] {
      FilterIsSubseq(s[1..], p);
      assert Filter(s, p) == (if p(s[0]) then [s[0]] else []) + Filter(s[1..], p);
      if p(s[0]) {
        var r := Filter(s, p);
        assert r[0] == s[0] && r[1..] == Filter(s[1..], p);
        assert IsSubseq(r[1..], s[1..]);
        assert IsSubseq(r, s);
      } else {
        assert Filter(s, p) == Filter(s[1..], p);
      }
    }
  }

  /** Filtering a concatenation filters each part. */
  lemma {:induction false} FilterConcat<T(!new)>(a: seq<T>, b: seq<T>, p: T -> bool)
    ensures Filter(a + b, p) == Filter(a, p) + Filter(b, p)
  {
    if a != [] {
      assert (a + b)[1..] == a[1..] + b;
      FilterConcat(a[1..], b, p);
    } else {
      assert a + b == b;
    }
  }

  /** A filter that every element passes keeps the whole sequence. */
  lemma {:induction false} FilterKeepsAll<T(!new)>(s: seq<T>, p: T -> bool)
    requires forall i :: 0 <= i < |s| ==> p(s[i])
    ensures Filter(s, p) == s
  {
    if s != [] {
      FilterKeepsAll(s[1..], p);
    }
  }

  /** Filters whose tests agree on every element of `s` give the same result. */
  lemma {:induction false} FilterCongruent<T(!new)>(s: seq<T>, p: T -> bool, q: T -> bool)
    requires forall i :: 0 <= i < |s| ==> p(s[i]) == q(s[i])
    ensures Filter(s, p) == Filter(s, q)
  {
    if s != [] {
      FilterCongruent(s[1..], p, q);
    }
  }

  // ---------------------------------------------------------------------------
  // duplicate-free sequences
  // ---------------------------------------------------------------------------

  ghost predicate Distinct<T(!new)>(s: seq<T>) {
    forall i, j :: 0 <= i < j < |s| ==> s[i] != s[j]
  }

  lemma {:induction false} FilterDistinct<T(!new)>(s: seq<T>, p: T -> bool)
    requires Distinct(s)
    ensures Distinct(Filter(s, p))
  {
    if s != [] {
      FilterDistinct(s[1..], p);
      assert s[0] !in s[1..] by {
        forall k | 0 <= k < |s[1..]| ensures s[1..][k] != s[0] {
          assert s[1..][k] == s[k + 1];
        }
      }
      var rest := Filter(s[1..], p);
      if p(s[0]) {
        assert Filter(s, p) == [s[0]] + rest;
        forall i, j | 0 <= i < j < |[s[0]] + rest| ensures ([s[0]] + rest)[i] != ([s[0]] + rest)[j] {
          if i == 0 {
            assert ([s[0]] + rest)[j] == rest[j - 1];
          }
        }
      }
    }
  }

  lemma AppendFreshDistinct<T(!new)>(s: seq<T>, x: T)
    requires Distinct(s) && x !in s
    ensures Distinct(s + [x])
  {
    forall i, j | 0 <= i < j < |s + [x]| ensures (s + [x])[i] != (s + [x])[j] {
      if j == |s| {
        assert (s + [x])[i] == s[i];
      }
    }
  }

  // ---------------------------------------------------------------------------
  // removing one value, appending one if absent, toggling one
  // ---------------------------------------------------------------------------

  /** `s.filter(y => y !== x)`. */
  function Without<T(!new,==)>(s: seq<T>, x: T): (r: seq<T>)
    ensures x !in r
    ensures forall y :: y != x ==> (y in r <==> y in s)
    ensures IsSubseq(r, s)
  {
    var p := y => y != x;
    FilterIsSubseq(s, p);
    Filter(s, p)
  }

  /** `s.includes(x) ? s : [...s, x]`. */
  function AddIfAbsent<T(!new,==)>(s: seq<T>, x: T): (r: seq<T>)
    ensures x in r
    ensures forall y :: y in r <==> y in s || y == x
    ensures x in s ==> r == s
    ensures x !in s ==> |r| == |s| + 1 && r[..|s|] == s && r[|s|] == x
  {
    if x in s then s else s + [x]
  }

  /** `s.includes(x) ? s.filter(y => y !== x) : [...s, x]`. */
  function Toggle<T(!new,==)>(s: seq<T>, x: T): (r: seq<T>)
    ensures x in r <==> x !in s
    ensures forall y :: y != x ==> (y in r <==> y in s)
    ensures x !in s ==> r == s + [x]
    ensures x in s ==> r == Without(s, x)
  {
    if x in s then Without(s, x) else s + [x]
  }

  /** Toggling the same value twice restores membership of every value. */
  lemma ToggleTwiceMembership<T(!new)>(s: seq<T>, x: T, y: T)
    ensures y in Toggle(Toggle(s, x), x) <==> y in s
  {
  }

  /** Toggling an absent value twice restores the sequence itself. */
  lemma ToggleTwiceAbsent<T(!new)>(s: seq<T>, x: T)
    requires x !in s
    ensures Toggle(Toggle(s, x), x) == s
  {
    WithoutUndoesAppend(s, x);
  }

  lemma TogglePreservesDistinct<T(!new)>(s: seq<T>, x: T)
    requires Distinct(s)
    ensures Distinct(Toggle(s, x))
  {
    if x in s {
      FilterDistinct(s, y => y != x);
    } else {
      AppendFreshDistinct(s, x);
    }
  }

  /** Removing a value just appended to a sequence without it gives the sequence back. */
  lemma WithoutUndoesAppend<T(!new)>(s: seq<T>, x: T)
    requires x !in s
    ensures Without(s + [x], x) == s
  {
    FilterConcat(s, [x], y => y != x);
    FilterKeepsAll(s, y => y != x);
    assert Filter([x], y => y != x) == [];
  }

  lemma WithoutPreservesDistinct<T(!new)>(s: seq<T>, x: T)
    requires Distinct(s)
    ensures Distinct(Without(s, x))
  {
    FilterDistinct(s, y => y != x);
  }

  lemma AddIfAbsentPreservesDistinct<T(!new)>(s: seq<T>, x: T)
    requires Distinct(s)
    ensures Distinct(AddIfAbsent(s, x))
  {
    if x !in s {
      AppendFreshDistinct(s, x);
    }
  }

  // ---------------------------------------------------------------------------
  // removing one position
  // ---------------------------------------------------------------------------

  /** `s.filter((_, i) => i !== idx)`: deletes position `idx`, if there is one. */
  function RemoveAt<T(!new)>(s: seq<T>, idx: int): (r: seq<T>)
    ensures 0 <= idx < |s| ==> |r| == |s| - 1 && r == s[..idx] + s[idx + 1..]
    ensures !(0 <= idx < |s|) ==> r == s
  {
    if s == [] then []
    else if idx == 0 then s[1..]
    else [s[0]] + RemoveAt(s[1..], idx - 1)
  }

  // ---------------------------------------------------------------------------
  // records identified by an integer key (`id`)
  // ---------------------------------------------------------------------------

  /** Some element of `s` has key `k`. */
  ghost predicate HasKey<T(!new), K>(s: seq<T>, key: T -> K, k: K) {
    exists i :: 0 <= i < |s| && key(s[i]) == k
  }

  /** No two elements of `s` share a key. */
  ghost predicate UniqueKeys<T(!new), K>(s: seq<T>, key: T -> K) {
    forall i, j :: 0 <= i < j < |s| ==> key(s[i]) != key(s[j])
  }

  /** `s.find(x => x.id === k)`: the first element with key `k`. */
  function FindKey<T(!new)>(s: seq<T>, key: T -> int, k: int): (r: Option<T>)
    ensures r.None? <==> !HasKey(s, key, k)
    ensures r.Some? ==> exists i :: 0 <= i < |s| && s[i] == r.value && key(s[i]) == k &&
                                     forall j :: 0 <= j < i ==> key(s[j]) != k
  {
    if s == [] then None
    else if key(s[0]) == k then Some(s[0])
    else
      var r := FindKey(s[1..], key, k);
      assert forall i :: 0 <= i < |s[1..]| ==> s[1..][i] == s[i + 1];
      r
  }

  /** `s.filter(x => x.id !== k)`. */
  function WithoutKey<T(!new)>(s: seq<T>, key: T -> int, k: int): (r: seq<T>)
    ensures !HasKey(r, key, k)
    ensures forall x :: x in r <==> x in s && key(x) != k
    ensures IsSubseq(r, s)
  {
    var p := x => key(x) != k;
    FilterIsSubseq(s, p);
    var r := Filter(s, p);
    assert forall i :: 0 <= i < |r| ==> r[i] in r;
    r
  }

  /** `s.map(x => x.id === k ? f(x) : x)`. */
  function MapKey<T(!new)>(s: seq<T>, key: T -> int, k: int, f: T -> T): (r: seq<T>)
    ensures |r| == |s|
    ensures forall i :: 0 <= i < |s| ==> r[i] == if key(s[i]) == k then f(s[i]) else s[i]
  {
    if s == [] then [] else [if key(s[0]) == k then f(s[0]) else s[0]] + MapKey(s[1..], key, k, f)
  }

  /** `s.map(x => x.id === k ? v : x)`. */
  function ReplaceKey<T(!new)>(s: seq<T>, key: T -> int, k: int, v: T): (r: seq<T>)
    ensures |r| == |s|
    ensures forall i :: 0 <= i < |s| ==> r[i] == if key(s[i]) == k then v else s[i]
  {
    MapKey(s, key, k, _ => v)
  }

  /** A map that keeps the key of every element it changes keeps the keys of the whole sequence. */
  lemma MapKeyKeepsKeys<T(!new)>(s: seq<T>, key: T -> int, k: int, f: T -> T)
    requires forall x :: key(x) == k ==> key(f(x)) == k
    ensures forall i :: 0 <= i < |s| ==> key(MapKey(s, key, k, f)[i]) == key(s[i])
    ensures UniqueKeys(s, key) ==> UniqueKeys(MapKey(s, key, k, f), key)
    ensures forall k' :: HasKey(MapKey(s, key, k, f), key, k') <==> HasKey(s, key, k')
  {
    var r := MapKey(s, key, k, f);
    forall k' ensures HasKey(r, key, k') <==> HasKey(s, key, k') {
      if HasKey(s, key, k') {
        var i :| 0 <= i < |s| && key(s[i]) == k';
        assert key(r[i]) == k';
      }
      if HasKey(r, key, k') {
        var i :| 0 <= i < |r| && key(r[i]) == k';
        assert key(s[i]) == k';
      }
    }
  }

  lemma WithoutKeyKeepsUnique<T(!new)>(s: seq<T>, key: T -> int, k: int)
    requires UniqueKeys(s, key)
    ensures UniqueKeys(WithoutKey(s, key, k), key)
  {
    FilterUniqueKeys(s, key, x => key(x) != k);
  }

  lemma {:induction false} FilterUniqueKeys<T(!new), K>(s: seq<T>, key: T -> K, p: T -> bool)
    requires UniqueKeys(s, key)
    ensures UniqueKeys(Filter(s, p), key)
  {
    if s != [] {
      UniqueKeysTail(s, key);
      FilterUniqueKeys(s[1..], key, p);
      var rest := Filter(s[1..], p);
      if p(s[0]) {
        assert Filter(s, p) == [s[0]] + rest;
        forall y | y in rest ensures key(y) != key(s[0]) {
          var m :| 0 <= m < |s[1..]| && s[1..][m] == y;
          assert s[m + 1] == y;
        }
        UniqueKeysCons(s[0], rest, key);
      }
    }
  }

  lemma UniqueKeysTail<T(!new), K>(s: seq<T>, key: T -> K)
    requires s != [] && UniqueKeys(s, key)
    ensures UniqueKeys(s[1..], key)
  {
    forall i, j | 0 <= i < j < |s[1..]| ensures key(s[1..][i]) != key(s[1..][j]) {
      assert s[1..][i] == s[i + 1] && s[1..][j] == s[j + 1];
    }
  }

  lemma UniqueKeysCons<T(!new), K>(x: T, rest: seq<T>, key: T -> K)
    requires UniqueKeys(rest, key) && forall y :: y in rest ==> key(y) != key(x)
    ensures UniqueKeys([x] + rest, key)
  {
    forall i, j | 0 <= i < j < |[x] + rest| ensures key(([x] + rest)[i]) != key(([x] + rest)[j]) {
      if i == 0 {
        assert ([x] + rest)[j] == rest[j - 1];
      } else {
        assert ([x] + rest)[i] == rest[i - 1] && ([x] + rest)[j] == rest[j - 1];
      }
    }
  }

  lemma AppendFreshKeepsUnique<T(!new), K>(s: seq<T>, key: T -> K, x: T)
    requires UniqueKeys(s, key) && !HasKey(s, key, key(x))
    ensures UniqueKeys(s + [x], key)
    ensures UniqueKeys([x] + s, key)
  {
    forall i, j | 0 <= i < j < |s + [x]| ensures key((s + [x])[i]) != key((s + [x])[j]) {
      if j == |s| {
        assert (s + [x])[i] == s[i];
      }
    }
    forall i, j | 0 <= i < j < |[x] + s| ensures key(([x] + s)[i]) != key(([x] + s)[j]) {
      if i == 0 {
        assert ([x] + s)[j] == s[j - 1];
      } else {
        assert ([x] + s)[i] == s[i - 1] && ([x] + s)[j] == s[j - 1];
      }
    }
  }

  /** After a key-preserving map of the elements with key `k`, finding key `k'` finds the mapped element. */
  lemma {:induction false} FindKeyAfterMapKey<T(!new)>(s: seq<T>, key: T -> int, k: int, f: T -> T, k': int)
    requires forall x :: key(f(x)) == key(x)
    ensures FindKey(MapKey(s, key, k, f), key, k') ==
            match FindKey(s, key, k')
            case None => None
            case Some(x) => Some(if k' == k then f(x) else x)
  {
    if s != [] {
      var r := MapKey(s, key, k, f);
      assert r[1..] == MapKey(s[1..], key, k, f);
      FindKeyAfterMapKey(s[1..], key, k, f, k');
    }
  }

  /** A sequence with no members is empty. */
  lemma NoMembersEmpty<T>(s: seq<T>)
    ensures (forall x :: x !in s) ==> s == []
  {
    if s != [] {
      assert s[0] in s;
    }
  }
}
