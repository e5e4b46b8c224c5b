/** The JavaScript array operations the core relies on: `sort` with a comparator
    `(a, b) => key(b) - key(a)` (a stable sort since ECMAScript 2019, so the order is
    fixed for every input), `slice(0, k)` and `map`. */
module ArrayOps {

  function Min(a: nat, b: nat): nat { if a <= b then a else b }

  /** `s.slice(0, k)` for a non-negative `k`. */
  function Take<T>(s: seq<T>, k: nat): (r: seq<T>)
    ensures |r| == Min(k, |s|)
  {
    s[..Min(k, |s|)]
  }

  /** Every element's key is at most that of every element before it. */
  predicate NonIncreasing<T>(s: seq<T>, key: T -> real) {
    forall i, j :: 0 <= i < j < |s| ==> key(s[j]) <= key(s[i])
  }

  /** The elements of `s` whose key is `v`, in their order in `s`. */
  function WithKey<T>(s: seq<T>, key: T -> real, v: real): seq<T> {
    if s == [] then []
    else (if key(s[0]) == v then [s[0]] else []) + WithKey(s[1..], key, v)
  }

  /** `s` lists the elements with each key in the order `xs` lists them. */
  ghost predicate KeepsOrderPerKey<T>(s: seq<T>, xs: seq<T>, key: T -> real) {
    forall v :: WithKey(s, key, v) == WithKey(xs, key, v)
  }

  /** Puts `x` in front of the first element whose key is not above its own. */
  function Insert<T>(x: T, s: seq<T>, key: T -> real): (r: seq<T>)
    ensures multiset(r) == multiset(s) + multiset{x}
  {
    if s == [] || key(s[0]) <= key(x) then [x] + s
    else
      assert s == [s[0]] + s[1..];
      [s[0]] + Insert(x, s[1..], key)
  }

  /** The stable sort by descending key: insertion sort from the back, each element
      going in front of the equal keys that follow it in `xs`. */
  function SortDesc<T>(xs: seq<T>, key: T -> real): (r: seq<T>)
    ensures multiset(r) == multiset(xs)
    ensures |r| == |xs|
  {
    if xs == [] then []
    else
      assert xs == [xs[0]] + xs[1..];
      Insert(xs[0], SortDesc(xs[1..], key), key)
  }

  lemma WithKeyMember<T>(s: seq<T>, key: T -> real, v: real, x: T)
    ensures x in WithKey(s, key, v) <==> x in s && key(x) == v
  {
    if s != [] {
      WithKeyMember(s[1..], key, v, x);
      assert s == [s[0]] + s[1..];
    }
  }

  /** A non-increasing sequence extended in front by a key at least all of its own. */
  lemma ConsNonIncreasing<T>(h: T, t: seq<T>, key: T -> real)
    requires NonIncreasing(t, key)
    requires forall y :: y in t ==> key(y) <= key(h)
    ensures NonIncreasing([h] + t, key)
  {
    var r := [h] + t;
    forall i, j | 0 <= i < j < |r| ensures key(r[j]) <= key(r[i]) {
      assert r[j] == t[j - 1];
      if i > 0 {
        assert r[i] == t[i - 1];
      }
    }
  }

  lemma InsertMember<T>(x: T, s: seq<T>, key: T -> real, y: T)
    requires y in Insert(x, s, key)
    ensures y == x || y in s
  {
    assert y in multiset(Insert(x, s, key));
  }

  lemma {:induction false} InsertNonIncreasing<T>(x: T, s: seq<T>, key: T -> real)
    requires NonIncreasing(s, key)
    ensures NonIncreasing(Insert(x, s, key), key)
  {
    if s == [] || key(s[0]) <= key(x) {
      forall y | y in s ensures key(y) <= key(x) {
        FirstIsLargest(s, key, y);
      }
      ConsNonIncreasing(x, s, key);
    } else {
      var tail := Insert(x, s[1..], key);
      TailNonIncreasing(s, key);
      InsertNonIncreasing(x, s[1..], key);
      forall y | y in tail ensures key(y) <= key(s[0]) {
        InsertMember(x, s[1..], key, y);
        if y != x {
          FirstIsLargest(s, key, y);
        }
      }
      ConsNonIncreasing(s[0], tail, key);
    }
  }

  lemma WithKeyCons<T>(h: T, t: seq<T>, key: T -> real, v: real)
    ensures WithKey([h] + t, key, v) == (if key(h) == v then [h] else []) + WithKey(t, key, v)
  {
    assert ([h] + t)[1..] == t;
  }

  lemma {:induction false} InsertWithKey<T>(x: T, s: seq<T>, key: T -> real, v: real)
    ensures WithKey(Insert(x, s, key), key, v)
         == (if key(x) == v then [x] else []) + WithKey(s, key, v)
  {
    if s == [] || key(s[0]) <= key(x) {
      WithKeyCons(x, s, key, v);
    } else {
      var h, t := s[0], s[1..];
      assert Insert(x, s, key) == [h] + Insert(x, t, key);
      assert s == [h] + t;
      InsertWithKey(x, t, key, v);
      WithKeyCons(h, Insert(x, t, key), key, v);
      WithKeyCons(h, t, key, v);
      var wt := WithKey(t, key, v);
      if key(x) == v {
        assert key(h) != v;
        assert WithKey(Insert(x, s, key), key, v) == [x] + wt;
        assert WithKey(s, key, v) == wt;
      } else if key(h) == v {
        assert WithKey(Insert(x, s, key), key, v) == [h] + wt;
        assert WithKey(s, key, v) == [h] + wt;
      } else {
        assert WithKey(Insert(x, s, key), key, v) == wt;
        assert WithKey(s, key, v) == wt;
      }
    }
  }

  /** The sort leaves every key's elements in their input order. */
  lemma {:induction false} SortDescKeepsOrder<T>(xs: seq<T>, key: T -> real)
    ensures KeepsOrderPerKey(SortDesc(xs, key), xs, key)
  {
    if xs != [] {
      SortDescKeepsOrder(xs[1..], key);
      forall v ensures WithKey(SortDesc(xs, key), key, v) == WithKey(xs, key, v) {
        InsertWithKey(xs[0], SortDesc(xs[1..], key), key, v);
      }
    }
  }

  lemma {:induction false} SortDescNonIncreasing<T>(xs: seq<T>, key: T -> real)
    ensures NonIncreasing(SortDesc(xs, key), key)
  {
    if xs != [] {
      SortDescNonIncreasing(xs[1..], key);
      InsertNonIncreasing(xs[0], SortDesc(xs[1..], key), key);
    }
  }

  lemma FirstIsLargest<T>(s: seq<T>, key: T -> real, y: T)
    requires NonIncreasing(s, key) && y in s
    ensures key(y) <= key(s[0])
  {
    var j :| 0 <= j < |s| && s[j] == y;
    if j > 0 {
      assert key(s[j]) <= key(s[0]);
    }
  }

  lemma TailNonIncreasing<T>(s: seq<T>, key: T -> real)
    requires s != [] && NonIncreasing(s, key)
    ensures NonIncreasing(s[1..], key)
  {
    forall i, j | 0 <= i < j < |s| - 1 ensures key(s[1..][j]) <= key(s[1..][i]) {
      assert s[1..][i] == s[i + 1] && s[1..][j] == s[j + 1];
    }
  }

  /** Sequences that list each key's elements alike are empty together. */
  lemma KeepsOrderNonEmpty<T>(r1: seq<T>, r2: seq<T>, key: T -> real)
    requires KeepsOrderPerKey(r1, r2, key) && r1 != []
    ensures r2 != []
  {
    WithKeyMember(r1, key, key(r1[0]), r1[0]);
    assert WithKey(r2, key, key(r1[0])) != [];
  }

  /** ... and, when both are non-increasing, start with the same element. */
  lemma KeepsOrderSameHead<T>(r1: seq<T>, r2: seq<T>, key: T -> real)
    requires r1 != [] && r2 != []
    requires NonIncreasing(r1, key) && NonIncreasing(r2, key)
    requires KeepsOrderPerKey(r1, r2, key)
    ensures r1[0] == r2[0]
  {
    var k1, k2 := key(r1[0]), key(r2[0]);
    WithKeyMember(r1, key, k1, r1[0]);
    assert WithKey(r2, key, k1) == WithKey(r1, key, k1);
    WithKeyMember(r2, key, k1, r1[0]);
    FirstIsLargest(r2, key, r1[0]);
    WithKeyMember(r2, key, k2, r2[0]);
    assert WithKey(r1, key, k2) == WithKey(r2, key, k2);
    WithKeyMember(r1, key, k2, r2[0]);
    FirstIsLargest(r1, key, r2[0]);
    assert k1 == k2;
    assert WithKey(r1, key, k1) == [r1[0]] + WithKey(r1[1..], key, k1);
    assert WithKey(r2, key, k1) == [r2[0]] + WithKey(r2[1..], key, k1);
    assert WithKey(r1, key, k1)[0] == r1[0];
    assert WithKey(r2, key, k1)[0] == r2[0];
  }

  /** Dropping a common head keeps the per-key order. */
  lemma KeepsOrderTails<T>(r1: seq<T>, r2: seq<T>, key: T -> real)
    requires r1 != [] && r2 != [] && r1[0] == r2[0]
    requires KeepsOrderPerKey(r1, r2, key)
    ensures KeepsOrderPerKey(r1[1..], r2[1..], key)
  {
    forall v ensures WithKey(r1[1..], key, v) == WithKey(r2[1..], key, v) {
      var p := if key(r1[0]) == v then [r1[0]] else [];
      assert WithKey(r1, key, v) == p + WithKey(r1[1..], key, v);
      assert WithKey(r2, key, v) == p + WithKey(r2[1..], key, v);
      assert (p + WithKey(r1[1..], key, v))[|p|..] == WithKey(r1[1..], key, v);
      assert (p + WithKey(r2[1..], key, v))[|p|..] == WithKey(r2[1..], key, v);
    }
  }

  /** Two non-increasing sequences that list each key's elements in the same order
      are equal: the stable sort has exactly one possible result. */
  lemma {:induction false} StableSortUnique<T>(r1: seq<T>, r2: seq<T>, key: T -> real)
    requires NonIncreasing(r1, key) && NonIncreasing(r2, key)
    requires KeepsOrderPerKey(r1, r2, key)
    ensures r1 == r2
    decreases |r1|
  {
    if r1 == [] {
      if r2 != [] {
        assert KeepsOrderPerKey(r2, r1, key);
        KeepsOrderNonEmpty(r2, r1, key);
      }
    } else {
      KeepsOrderNonEmpty(r1, r2, key);
      KeepsOrderSameHead(r1, r2, key);
      KeepsOrderTails(r1, r2, key);
      TailNonIncreasing(r1, key);
      TailNonIncreasing(r2, key);
      StableSortUnique(r1[1..], r2[1..], key);
      assert r1 == [r1[0]] + r1[1..] && r2 == [r2[0]] + r2[1..];
    }
  }

  /** `SortDesc` is the stable descending sort: a sequence is its result exactly when
      it is non-increasing and keeps each key's elements in their input order. */
  lemma SortDescCharacterized<T>(xs: seq<T>, key: T -> real, r: seq<T>)
    ensures r == SortDesc(xs, key) <==> NonIncreasing(r, key) && KeepsOrderPerKey(r, xs, key)
  {
    SortDescNonIncreasing(xs, key);
    SortDescKeepsOrder(xs, key);
    if NonIncreasing(r, key) && KeepsOrderPerKey(r, xs, key) {
      forall v ensures WithKey(r, key, v) == WithKey(SortDesc(xs, key), key, v) {
        assert WithKey(r, key, v) == WithKey(xs, key, v);
      }
      StableSortUnique(r, SortDesc(xs, key), key);
    }
  }

  /** Sorting a sequence whose keys are all equal leaves it unchanged. */
  lemma SortDescAllEqual<T>(xs: seq<T>, key: T -> real, v: real)
    requires forall x :: x in xs ==> key(x) == v
    ensures SortDesc(xs, key) == xs
  {
    SortDescCharacterized(xs, key, xs);
  }

  /** `r` holds the `k` largest keys of `all`, largest first. */
  ghost predicate IsTopK<T>(r: seq<T>, all: seq<T>, key: T -> real, k: nat) {
    && |r| == Min(k, |all|)
    && multiset(r) <= multiset(all)
    && NonIncreasing(r, key)
    && forall x, y :: x in r && y in multiset(all) - multiset(r) ==> key(y) <= key(x)
  }

  lemma {:induction false} WithKeyTake<T>(s: seq<T>, key: T -> real, v: real, k: nat)
    ensures WithKey(Take(s, k), key, v) <= WithKey(s, key, v)
  {
    if s != [] && k > 0 {
      WithKeyTake(s[1..], key, v, k - 1);
      assert Take(s, k)[0] == s[0] && Take(s, k)[1..] == Take(s[1..], k - 1);
    }
  }

  lemma PrefixMultiset<T>(s: seq<T>, n: nat)
    requires n <= |s|
    ensures multiset(s[..n]) <= multiset(s)
    ensures multiset(s) - multiset(s[..n]) == multiset(s[n..])
  {
    assert s == s[..n] + s[n..];
  }

  lemma PrefixDominates<T>(s: seq<T>, key: T -> real, n: nat)
    requires NonIncreasing(s, key) && n <= |s|
    ensures forall x, y :: x in s[..n] && y in s[n..] ==> key(y) <= key(x)
  {
    forall x, y | x in s[..n] && y in s[n..] ensures key(y) <= key(x) {
      var i :| 0 <= i < n && s[..n][i] == x;
      var j :| 0 <= j < |s| - n && s[n..][j] == y;
      assert s[i] == x && s[n + j] == y;
    }
  }

  lemma PrefixNonIncreasing<T>(s: seq<T>, key: T -> real, n: nat)
    requires NonIncreasing(s, key) && n <= |s|
    ensures NonIncreasing(s[..n], key)
  {
    forall i, j | 0 <= i < j < n ensures key(s[..n][j]) <= key(s[..n][i]) {
      assert s[..n][i] == s[i] && s[..n][j] == s[j];
    }
  }

  /** A prefix of a non-increasing sequence holds its largest keys. */
  lemma TakeOfNonIncreasing<T>(s: seq<T>, key: T -> real, k: nat)
    requires NonIncreasing(s, key)
    ensures IsTopK(Take(s, k), s, key, k)
  {
    var n := Min(k, |s|);
    PrefixMultiset(s, n);
    PrefixDominates(s, key, n);
    PrefixNonIncreasing(s, key, n);
    var r := s[..n];
    forall x, y | x in r && y in multiset(s) - multiset(r) ensures key(y) <= key(x) {
      assert y in s[n..];
    }
  }

  /** `sort` then `slice(0, k)`: the `k` largest keys, and among equal keys a prefix of
      their input order. */
  lemma SortThenTake<T>(xs: seq<T>, key: T -> real, k: nat)
    ensures IsTopK(Take(SortDesc(xs, key), k), xs, key, k)
    ensures forall v :: WithKey(Take(SortDesc(xs, key), k), key, v) <= WithKey(xs, key, v)
  {
    var s := SortDesc(xs, key);
    SortDescNonIncreasing(xs, key);
    SortDescKeepsOrder(xs, key);
    TakeOfNonIncreasing(s, key, k);
    forall v ensures WithKey(Take(s, k), key, v) <= WithKey(xs, key, v) {
      WithKeyTake(s, key, v, k);
      assert WithKey(s, key, v) == WithKey(xs, key, v);
    }
  }

  /** `xs.map(f)`. */
  function Map<T, U>(xs: seq<T>, f: T -> U): (r: seq<U>)
    ensures |r| == |xs|
    ensures forall i :: 0 <= i < |xs| ==> r[i] == f(xs[i])
  {
    seq(|xs|, i requires 0 <= i < |xs| => f(xs[i]))
  }

  lemma MapConcat<T, U>(a: seq<T>, b: seq<T>, f: T -> U)
    ensures Map(a + b, f) == Map(a, f) + Map(b, f)
  {
  }

  lemma MapTake<T, U>(xs: seq<T>, f: T -> U, k: nat)
    ensures Map(Take(xs, k), f) == Take(Map(xs, f), k)
  {
  }

  /** Taking out the element at `j` takes it out of the multiset. */
  lemma RemoveAt<T>(ys: seq<T>, j: nat)
    requires j < |ys|
    ensures multiset(ys) == multiset(ys[..j] + ys[j + 1..]) + multiset{ys[j]}
  {
    assert ys == ys[..j] + [ys[j]] + ys[j + 1..];
  }

  /** The same after mapping: the image of the element at `j` leaves the image. */
  lemma MapRemoveAt<T, U>(ys: seq<T>, j: nat, f: T -> U)
    requires j < |ys|
    ensures multiset(Map(ys, f)) == multiset(Map(ys[..j] + ys[j + 1..], f)) + multiset{f(ys[j])}
  {
    var m := Map(ys, f);
    assert Map(ys[..j] + ys[j + 1..], f) == m[..j] + m[j + 1..];
    RemoveAt(m, j);
  }

  lemma MultisetAddBoth<U>(a: multiset<U>, b: multiset<U>, u: U)
    requires a <= b
    ensures a + multiset{u} <= b + multiset{u}
  {
    forall z ensures (a + multiset{u})[z] <= (b + multiset{u})[z] {
      assert a[z] <= b[z];
    }
  }

  lemma MultisetRemoveBoth<U>(a: multiset<U>, b: multiset<U>, u: U)
    requires a + multiset{u} <= b + multiset{u}
    ensures a <= b
  {
    forall z ensures a[z] <= b[z] {
      assert (a + multiset{u})[z] <= (b + multiset{u})[z];
    }
  }

  /** Taking one copy of the same element out of two permutations of each other
      leaves permutations of each other. */
  lemma RemoveBoth<T>(xs: seq<T>, i: nat, ys: seq<T>, j: nat)
    requires i < |xs| && j < |ys| && xs[i] == ys[j]
    requires multiset(xs) == multiset(ys)
    ensures multiset(xs[..i] + xs[i + 1..]) == multiset(ys[..j] + ys[j + 1..])
  {
    RemoveAt(xs, i);
    RemoveAt(ys, j);
    var a, b := multiset(xs[..i] + xs[i + 1..]), multiset(ys[..j] + ys[j + 1..]);
    MultisetRemoveBoth(a, b, xs[i]);
    MultisetRemoveBoth(b, a, xs[i]);
  }

  lemma IndexOf<T>(ys: seq<T>, x: T) returns (j: nat)
    requires x in multiset(ys)
    ensures j < |ys| && ys[j] == x
  {
    j :| 0 <= j < |ys| && ys[j] == x;
  }

  lemma HeadInMultiset<T>(xs: seq<T>, ys: seq<T>)
    requires xs != [] && multiset(xs) <= multiset(ys)
    ensures xs[0] in multiset(ys)
  {
    assert xs[0] in multiset(xs);
  }

  /** Matching the head of `xs` with `ys[j]` leaves the tails in inclusion. */
  lemma TailSubMultiset<T>(xs: seq<T>, ys: seq<T>, j: nat)
    requires xs != [] && j < |ys| && ys[j] == xs[0]
    requires multiset(xs) <= multiset(ys)
    ensures multiset(xs[1..]) <= multiset(ys[..j] + ys[j + 1..])
  {
    RemoveAt(ys, j);
    assert xs == [xs[0]] + xs[1..];
    MultisetRemoveBoth(multiset(xs[1..]), multiset(ys[..j] + ys[j + 1..]), xs[0]);
  }

  lemma MapHead<T, U>(xs: seq<T>, f: T -> U)
    requires xs != []
    ensures multiset(Map(xs, f)) == multiset(Map(xs[1..], f)) + multiset{f(xs[0])}
  {
    assert Map(xs, f) == [f(xs[0])] + Map(xs[1..], f);
  }

  /** Putting the matched pair back after mapping keeps the inclusion. */
  lemma MapSubMultisetStep<T, U>(xs: seq<T>, ys: seq<T>, j: nat, f: T -> U)
    requires xs != [] && j < |ys| && ys[j] == xs[0]
    requires multiset(Map(xs[1..], f)) <= multiset(Map(ys[..j] + ys[j + 1..], f))
    ensures multiset(Map(xs, f)) <= multiset(Map(ys, f))
  {
    MapRemoveAt(ys, j, f);
    MapHead(xs, f);
    MultisetAddBoth(multiset(Map(xs[1..], f)), multiset(Map(ys[..j] + ys[j + 1..], f)), f(xs[0]));
  }

  /** Mapping keeps multiset inclusion: no element of the image is used twice. */
  lemma {:induction false} MapSubMultiset<T, U>(xs: seq<T>, ys: seq<T>, f: T -> U)
    requires multiset(xs) <= multiset(ys)
    ensures multiset(Map(xs, f)) <= multiset(Map(ys, f))
  {
    if xs != [] {
      HeadInMultiset(xs, ys);
      var j := IndexOf(ys, xs[0]);
      TailSubMultiset(xs, ys, j);
      MapSubMultiset(xs[1..], ys[..j] + ys[j + 1..], f);
      MapSubMultisetStep(xs, ys, j, f);
    }
  }
}
