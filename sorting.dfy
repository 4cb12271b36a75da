/**
 * Python's `sorted(xs, key=k, reverse=True)`: a stable sort into
 * non-increasing key order, and the slices the engine takes of its output.
 */
module Sorting {

  ghost predicate NonIncreasing<T>(s: seq<T>, key: T -> real)
  {
    forall i, j :: 0 <= i < j < |s| ==> key(s[i]) >= key(s[j])
  }

  /** The elements of `s` whose key is `v`, in their order in `s`. */
  function WithKey<T>(s: seq<T>, key: T -> real, v: real): (r: seq<T>)
    ensures |r| <= |s|
  {
    if s == [] then []
    else if key(s[0]) == v then [s[0]] + WithKey(s[1..], key, v)
    else WithKey(s[1..], key, v)
  }

  /** Stability: every run of equal keys keeps the order it had in the input. */
  ghost predicate SameTies<T>(s: seq<T>, t: seq<T>, key: T -> real)
  {
    forall v :: WithKey(s, key, v) == WithKey(t, key, v)
  }

  /** Puts `x` in front of the first element whose key is not larger than its own. */
  function Insert<T>(x: T, s: seq<T>, key: T -> real): (r: seq<T>)
    ensures |r| == |s| + 1
  {
    if s == [] || key(x) >= key(s[0]) then [x] + s
    else [s[0]] + Insert(x, s[1..], key)
  }

  function SortDesc<T>(s: seq<T>, key: T -> real): (r: seq<T>)
    ensures |r| == |s|
  {
    if s == [] then [] else Insert(s[0], SortDesc(s[1..], key), key)
  }

  lemma {:induction false} InsertPermutes<T>(x: T, s: seq<T>, key: T -> real)
    ensures multiset(Insert(x, s, key)) == multiset{x} + multiset(s)
  {
    if s != [] && key(x) < key(s[0]) {
      InsertPermutes(x, s[1..], key);
      assert s == [s[0]] + s[1..];
    }
  }

  lemma {:induction false} InsertSorted<T>(x: T, s: seq<T>, key: T -> real)
    requires NonIncreasing(s, key)
    ensures NonIncreasing(Insert(x, s, key), key)
  {
    if s != [] && key(x) < key(s[0]) {
      InsertSorted(x, s[1..], key);
      var r := Insert(x, s[1..], key);
      InsertPermutes(x, s[1..], key);
      forall j | 0 <= j < |r| ensures key(s[0]) >= key(r[j]) {
        assert r[j] in multiset(r);
        assert r[j] == x || r[j] in multiset(s[1..]);
        if r[j] != x {
          var k :| 0 <= k < |s[1..]| && s[1..][k] == r[j];
          assert s[k + 1] == r[j];
        }
      }
    }
  }

  lemma {:induction false} InsertKeepsTies<T>(x: T, s: seq<T>, key: T -> real, v: real)
    ensures WithKey(Insert(x, s, key), key, v)
         == if key(x) == v then [x] + WithKey(s, key, v) else WithKey(s, key, v)
  {
    if s != [] && key(x) < key(s[0]) {
      InsertKeepsTies(x, s[1..], key, v);
      assert ([s[0]] + Insert(x, s[1..], key))[1..] == Insert(x, s[1..], key);
    } else {
      assert ([x] + s)[1..] == s;
    }
  }

  /** The sorted output is a permutation of the input. */
  lemma {:induction false} SortPermutes<T>(s: seq<T>, key: T -> real)
    ensures multiset(SortDesc(s, key)) == multiset(s)
  {
    if s != [] {
      SortPermutes(s[1..], key);
      InsertPermutes(s[0], SortDesc(s[1..], key), key);
      assert s == [s[0]] + s[1..];
    }
  }

  /** The sorted output is in non-increasing key order. */
  lemma {:induction false} SortSorted<T>(s: seq<T>, key: T -> real)
    ensures NonIncreasing(SortDesc(s, key), key)
  {
    if s != [] {
      SortSorted(s[1..], key);
      InsertSorted(s[0], SortDesc(s[1..], key), key);
    }
  }

  /** The sort is stable: equal keys keep their input order. */
  lemma {:induction false} SortStable<T>(s: seq<T>, key: T -> real)
    ensures SameTies(SortDesc(s, key), s, key)
  {
    if s != [] {
      SortStable(s[1..], key);
      forall v ensures WithKey(SortDesc(s, key), key, v) == WithKey(s, key, v) {
        InsertKeepsTies(s[0], SortDesc(s[1..], key), key, v);
      }
    }
  }

  /**
   * Sortedness and stability pin the output down: any permutation that is
   * non-increasing and keeps ties in input order is the one `SortDesc` gives,
   * whatever algorithm computes it.
   */
  lemma {:induction false} SortUnique<T>(a: seq<T>, b: seq<T>, key: T -> real)
    requires NonIncreasing(a, key) && NonIncreasing(b, key)
    requires SameTies(a, b, key)
    ensures a == b
    decreases |a| + |b|
  {
    if a == [] && b == [] {
    } else if a == [] {
      WithKeyHead(b, key);
      assert false;
    } else if b == [] {
      WithKeyHead(a, key);
      assert false;
    } else {
      var va, vb := key(a[0]), key(b[0]);
      WithKeyHead(a, key);
      WithKeyHead(b, key);
      assert WithKey(a, key, va) == WithKey(b, key, va);
      assert WithKey(a, key, vb) == WithKey(b, key, vb);
      WithKeyMember(b, key, va);
      WithKeyMember(a, key, vb);
      var x := WithKey(b, key, va)[0];
      var j :| 0 <= j < |b| && b[j] == x;
      var y := WithKey(a, key, vb)[0];
      var i :| 0 <= i < |a| && a[i] == y;
      assert vb >= key(b[j]) == va;
      assert va >= key(a[i]) == vb;
      assert a[0] == WithKey(a, key, va)[0] == WithKey(b, key, vb)[0] == b[0];
      forall v ensures WithKey(a[1..], key, v) == WithKey(b[1..], key, v) {
        assert WithKey(a, key, v) == WithKey(b, key, v);
        if v == va {
          assert WithKey(a[1..], key, v) == WithKey(a, key, v)[1..];
          assert WithKey(b[1..], key, v) == WithKey(b, key, v)[1..];
        }
      }
      SortUnique(a[1..], b[1..], key);
      assert a == [a[0]] + a[1..];
      assert b == [b[0]] + b[1..];
    }
  }

  lemma WithKeyHead<T>(s: seq<T>, key: T -> real)
    requires s != []
    ensures WithKey(s, key, key(s[0])) == [s[0]] + WithKey(s[1..], key, key(s[0]))
  {
  }

  /** Every element of a run `WithKey(s, key, v)` is an element of `s` with key `v`. */
  lemma {:induction false} WithKeyMember<T>(s: seq<T>, key: T -> real, v: real)
    ensures forall i :: 0 <= i < |WithKey(s, key, v)| ==>
      key(WithKey(s, key, v)[i]) == v && WithKey(s, key, v)[i] in s
  {
    if s != [] {
      WithKeyMember(s[1..], key, v);
    }
  }

  /** Python's `s[:n]`; a negative `n` counts from the end. */
  function PyPrefix<T>(s: seq<T>, n: int): (r: seq<T>)
    ensures 0 <= n ==> |r| == if n <= |s| then n else |s|
    ensures n < 0 ==> |r| == if |s| + n >= 0 then |s| + n else 0
    ensures r == s[..|r|]
  {
    if n >= |s| then s
    else if n >= 0 then s[..n]
    else if |s| + n >= 0 then s[..|s| + n]
    else []
  }

  /** A prefix of a sorted sequence holds its largest keys. */
  lemma PrefixIsTop<T>(s: seq<T>, k: nat, key: T -> real)
    requires NonIncreasing(s, key)
    requires k <= |s|
    ensures forall i, j :: 0 <= i < k <= j < |s| ==> key(s[i]) >= key(s[j])
  {
  }
}
