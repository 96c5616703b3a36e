/**
 * The array methods the stores use (`filter`, `findIndex`, `slice(-n)`), over a key
 * projection `f` so that one definition serves every record type.
 */
module Seqs {
  import opened Wrappers

  /** `s.filter(x => f(x) !== k)`: the elements whose key is not `k`, in their order. */
  function Without<T(==,!new), K(==)>(s: seq<T>, f: T -> K, k: K): (r: seq<T>)
    ensures |r| <= |s|
    ensures forall x :: x in r <==> x in s && f(x) != k
    decreases |s|
  {
    if |s| == 0 then [] else (if f(s[0]) == k then [] else [s[0]]) + Without(s[1..], f, k)
  }

  /** `s.filter(x => f(x) === k)`: the elements whose key is `k`, in their order. */
  function Only<T(==,!new), K(==)>(s: seq<T>, f: T -> K, k: K): (r: seq<T>)
    ensures |r| <= |s|
    ensures forall x :: x in r <==> x in s && f(x) == k
    decreases |s|
  {
    if |s| == 0 then [] else (if f(s[0]) == k then [s[0]] else []) + Only(s[1..], f, k)
  }

  /** `Without` keeps order: filtering a concatenation concatenates the filtered parts. */
  lemma {:induction false} WithoutAppend<T(!new), K>(s: seq<T>, t: seq<T>, f: T -> K, k: K)
    ensures Without(s + t, f, k) == Without(s, f, k) + Without(t, f, k)
    decreases |s|
  {
    if |s| > 0 {
      assert (s + t)[1..] == s[1..] + t;
      WithoutAppend(s[1..], t, f, k);
    } else {
      assert s + t == t;
    }
  }

  /** `Only` keeps order: filtering a concatenation concatenates the filtered parts. */
  lemma {:induction false} OnlyAppend<T(!new), K>(s: seq<T>, t: seq<T>, f: T -> K, k: K)
    ensures Only(s + t, f, k) == Only(s, f, k) + Only(t, f, k)
    decreases |s|
  {
    if |s| > 0 {
      assert (s + t)[1..] == s[1..] + t;
      OnlyAppend(s[1..], t, f, k);
    } else {
      assert s + t == t;
    }
  }

  /** Filtering removes nothing exactly when no element has key `k`, and then it is the identity. */
  lemma {:induction false} WithoutSameLength<T(!new), K>(s: seq<T>, f: T -> K, k: K)
    ensures |Without(s, f, k)| == |s| <==> forall i :: 0 <= i < |s| ==> f(s[i]) != k
    ensures |Without(s, f, k)| == |s| ==> Without(s, f, k) == s
    decreases |s|
  {
    if |s| > 0 {
      WithoutSameLength(s[1..], f, k);
      assert forall i :: 1 <= i < |s| ==> s[i] == s[1..][i - 1];
    }
  }

  /** No two elements share a `g`-key. */
  ghost predicate DistinctKeys<T, K>(s: seq<T>, g: T -> K) {
    forall i, j :: 0 <= i < j < |s| ==> g(s[i]) != g(s[j])
  }

  /** Filtering keeps keys distinct. */
  lemma {:induction false} WithoutKeepsDistinct<T(!new), K, L>(s: seq<T>, f: T -> K, k: K, g: T -> L)
    requires DistinctKeys(s, g)
    ensures DistinctKeys(Without(s, f, k), g)
    decreases |s|
  {
    if |s| > 0 {
      var t := s[1..];
      assert DistinctKeys(t, g) by {
        forall i, j | 0 <= i < j < |t| ensures g(t[i]) != g(t[j]) {
          assert t[i] == s[i + 1] && t[j] == s[j + 1];
        }
      }
      WithoutKeepsDistinct(t, f, k, g);
      var w := Without(t, f, k);
      if f(s[0]) != k {
        forall j | 0 <= j < |w| ensures g(s[0]) != g(w[j]) {
          assert w[j] in t;
          var m :| 0 <= m < |t| && t[m] == w[j];
          assert t[m] == s[m + 1];
        }
      }
    }
  }

  /** `s.findIndex(x => f(x) === k)`: the first position whose key is `k`, `None` for -1. */
  function FindIndex<T, K(==)>(s: seq<T>, f: T -> K, k: K): (r: Option<nat>)
    ensures r.Some? ==> r.value < |s| && f(s[r.value]) == k
    ensures r.Some? ==> forall j :: 0 <= j < r.value ==> f(s[j]) != k
    ensures r.None? ==> forall j :: 0 <= j < |s| ==> f(s[j]) != k
    decreases |s|
  {
    if |s| == 0 then None
    else if f(s[0]) == k then Some(0)
    else match FindIndex(s[1..], f, k)
      case None => None
      case Some(i) => Some(i + 1)
  }

  /** `s.slice(-n)` for `n > 0`: the last `n` elements, or all of them when there are fewer. */
  function Last<T>(s: seq<T>, n: nat): (r: seq<T>)
    requires n > 0
    ensures |r| == if |s| <= n then |s| else n
    ensures r == s[|s| - |r|..]
  {
    if |s| <= n then s else s[|s| - n..]
  }

  /** Capping after each append equals capping once at the end. */
  lemma LastAppend<T>(s: seq<T>, x: T, n: nat)
    requires n > 0
    ensures Last(Last(s, n) + [x], n) == Last(s + [x], n)
  {
    var a := Last(s, n) + [x];
    var b := s + [x];
    assert a == b[|b| - |a|..];
  }

  /** Capping twice is capping once. */
  lemma LastIdempotent<T>(s: seq<T>, n: nat)
    requires n > 0
    ensures Last(Last(s, n), n) == Last(s, n)
  {
  }

  /** Appending the elements of `xs` one at a time, capping after each, keeps the last `n` of all. */
  lemma {:induction false} LastAppendAll<T>(s: seq<T>, xs: seq<T>, n: nat)
    requires n > 0
    ensures AppendCapped(Last(s, n), xs, n) == Last(s + xs, n)
    decreases |xs|
  {
    if |xs| == 0 {
      assert s + xs == s;
      LastIdempotent(s, n);
    } else {
      var x := xs[0];
      calc {
        AppendCapped(Last(s, n), xs, n);
        AppendCapped(Last(Last(s, n) + [x], n), xs[1..], n);
        { LastAppend(s, x, n); }
        AppendCapped(Last(s + [x], n), xs[1..], n);
        { LastAppendAll(s + [x], xs[1..], n); }
        Last(s + [x] + xs[1..], n);
        { assert s + [x] + xs[1..] == s + xs; }
        Last(s + xs, n);
      }
    }
  }

  /** `xs.forEach(x => { s.push(x); if (s.length > n) s = s.slice(-n); })`. */
  function AppendCapped<T>(s: seq<T>, xs: seq<T>, n: nat): seq<T>
    requires n > 0
    decreases |xs|
  {
    if |xs| == 0 then s else AppendCapped(Last(s + [xs[0]], n), xs[1..], n)
  }

  /** The concatenation of the lists `xss`, in order. */
  function Flatten<T>(xss: seq<seq<T>>): seq<T>
    decreases |xss|
  {
    if |xss| == 0 then [] else Flatten(xss[..|xss| - 1]) + xss[|xss| - 1]
  }

  /** Flattening one more list appends its elements. */
  lemma FlattenStep<T>(xss: seq<seq<T>>, i: nat)
    requires i < |xss|
    ensures Flatten(xss[..i + 1]) == Flatten(xss[..i]) + xss[i]
  {
    assert xss[..i + 1][..i] == xss[..i];
  }

  /** Taking one more element of `t` after `s`. */
  lemma PrefixStep<T>(s: seq<T>, t: seq<T>, j: nat)
    requires j < |t|
    ensures s + t[..j + 1] == (s + t[..j]) + [t[j]]
  {
    assert t[..j + 1] == t[..j] + [t[j]];
  }

  /** The keys of the elements of `s`. */
  function KeysOf<T, K>(s: seq<T>, f: T -> K): set<K>
    decreases |s|
  {
    if |s| == 0 then {} else KeysOf(s[..|s| - 1], f) + {f(s[|s| - 1])}
  }

  /**
   * De-duplication by key, the reference meaning of a walk with a `seen` set: an element is
   * kept exactly when no earlier element has its key, and the kept ones stay in order.
   */
  function FirstsBy<T, K(==)>(s: seq<T>, f: T -> K): seq<T>
    decreases |s|
  {
    if |s| == 0 then []
    else if f(s[|s| - 1]) in KeysOf(s[..|s| - 1], f) then FirstsBy(s[..|s| - 1], f)
    else FirstsBy(s[..|s| - 1], f) + [s[|s| - 1]]
  }

  /** One more element is kept exactly when its key is new. */
  lemma FirstsByAppend<T, K>(s: seq<T>, x: T, f: T -> K)
    ensures FirstsBy(s + [x], f) == if f(x) in KeysOf(s, f) then FirstsBy(s, f) else FirstsBy(s, f) + [x]
    ensures KeysOf(s + [x], f) == KeysOf(s, f) + {f(x)}
  {
    assert (s + [x])[..|s|] == s;
  }

  /** An element's key is among the keys of its list. */
  lemma {:induction false} KeysOfMember<T, K>(s: seq<T>, f: T -> K, i: nat)
    requires i < |s|
    ensures f(s[i]) in KeysOf(s, f)
    decreases |s|
  {
    if i < |s| - 1 {
      KeysOfMember(s[..|s| - 1], f, i);
    }
  }

  /**
   * What de-duplication promises: every kept element comes from the list, the kept elements
   * cover every key of the list, and no two of them share a key.
   */
  lemma {:induction false} FirstsBySound<T, K>(s: seq<T>, f: T -> K)
    ensures forall x :: x in FirstsBy(s, f) ==> x in s
    ensures KeysOf(FirstsBy(s, f), f) == KeysOf(s, f)
    ensures DistinctKeys(FirstsBy(s, f), f)
    decreases |s|
  {
    if |s| > 0 {
      var init := s[..|s| - 1];
      var last := s[|s| - 1];
      assert s == init + [last];
      FirstsBySound(init, f);
      var rest := FirstsBy(init, f);
      FirstsByAppend(init, last, f);
      if f(last) !in KeysOf(init, f) {
        FirstsByAppend(rest, last, f);
        forall i | 0 <= i < |rest| ensures f(rest[i]) != f(last) {
          KeysOfMember(rest, f, i);
        }
      }
    }
  }
}
