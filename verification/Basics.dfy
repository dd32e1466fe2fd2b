/** Vocabulary shared by every part of the model: machine integers, sequences without
    repetition, and sums over finite maps. */
module Basics {
  /** The request to unfold a definition. A definition written as `forall k :: Unfolding(k) ==> D`
      stays folded in a proof until the proof says `assert Unfolding(0)`. This keeps large
      definitions out of proofs that only pass them on. */
  predicate Unfolding(k: int) { true }

  datatype Option<+T> = None | Some(value: T)

  const TWO64: int := 0x1_0000_0000_0000_0000
  const TWO32: int := 0x1_0000_0000

  /** Go's uint64 and uint32. */
  type u64 = x: int | 0 <= x < 0x1_0000_0000_0000_0000
  type u32 = x: int | 0 <= x < 0x1_0000_0000

  /** Reduction to 64 bits: what Go's `+`, `-`, `*` on uint64 leave of the exact result. */
  function Wrap(x: int): u64 { x % 0x1_0000_0000_0000_0000 }

  lemma WrapAdd(x: int, y: int)
    ensures Wrap(Wrap(x) + y) == Wrap(x + y)
  {
  }

  lemma WrapSmall(x: int)
    requires 0 <= x < TWO64
    ensures Wrap(x) == x
  {
  }

  /** Congruence modulo 2^64. */
  predicate Congruent(x: int, y: int) { Wrap(x) == Wrap(y) }

  /** A wrapped total keeps up with an exact sum that moves by the same amount. */
  lemma CongruentStep(total: int, sum: int, delta: int, sum': int)
    requires Congruent(total, sum) && Congruent(sum', sum + delta)
    ensures Congruent(Wrap(total + delta), sum')
  {
  }

  lemma CongruentAdd(x: int, y: int, z: int, d: int)
    requires Congruent(x, y) && Congruent(z, x + d)
    ensures Congruent(z, y + d)
  {
  }

  lemma CongruentExact(total: u64, sum: int)
    requires Congruent(total, sum) && sum >= 0
    ensures total == sum <==> sum < TWO64
  {
  }

  predicate NoDup<T(==)>(s: seq<T>) { forall i, j :: 0 <= i < j < |s| ==> s[i] != s[j] }

  function Elems<T(==)>(s: seq<T>): set<T> { set x | x in s }

  lemma NoDupSnoc<T>(s: seq<T>, x: T)
    ensures NoDup(s + [x]) <==> NoDup(s) && x !in s
  {
    var t := s + [x];
    assert forall i :: 0 <= i < |s| ==> t[i] == s[i];
    assert t[|s|] == x;
    if NoDup(t) {
      forall i | 0 <= i < |s| ensures s[i] != x {
        assert t[i] != t[|s|];
      }
    }
  }

  lemma NoDupConcat<T>(s: seq<T>, t: seq<T>)
    ensures NoDup(s + t) <==> NoDup(s) && NoDup(t) && (forall x :: x in s ==> x !in t)
  {
    var u := s + t;
    assert forall i :: 0 <= i < |s| ==> u[i] == s[i];
    assert forall j :: 0 <= j < |t| ==> u[|s| + j] == t[j];
    if NoDup(u) {
      forall i, j | 0 <= i < |s| && 0 <= j < |t| ensures s[i] != t[j] {
        assert u[i] != u[|s| + j];
      }
    }
    if NoDup(s) && NoDup(t) && (forall x :: x in s ==> x !in t) {
      forall i, j | 0 <= i < j < |u| ensures u[i] != u[j] {
        if i < |s| <= j {
          assert u[i] in s && u[j] in t;
        } else if |s| <= i {
          assert u[i] == t[i - |s|] && u[j] == t[j - |s|];
        }
      }
    }
  }

  lemma ElemsConcat<T>(s: seq<T>, t: seq<T>)
    ensures Elems(s + t) == Elems(s) + Elems(t)
  {
  }

  lemma NoDupCard<T>(s: seq<T>)
    requires NoDup(s)
    ensures |Elems(s)| == |s|
  {
    if s != [] {
      var init, x := s[..|s| - 1], s[|s| - 1];
      assert s == init + [x];
      NoDupSnoc(init, x);
      NoDupCard(init);
      assert Elems(s) == Elems(init) + {x};
    }
  }

  lemma Inserted<T>(s: seq<T>, x: T, i: nat)
    requires i <= |s| && NoDup(s) && x !in s
    ensures NoDup(s[..i] + [x] + s[i..]) && Elems(s[..i] + [x] + s[i..]) == Elems(s) + {x}
  {
    var a, b := s[..i], s[i..];
    assert s == a + b;
    NoDupConcat(a, b);
    NoDupSnoc(a, x);
    NoDupConcat(a + [x], b);
    ElemsConcat(a, b);
    ElemsConcat(a, [x]);
    ElemsConcat(a + [x], b);
  }

  lemma SameSizeSubset<T>(a: set<T>, b: set<T>)
    requires a <= b && |a| == |b|
    ensures a == b
  {
    assert b == a + (b - a);
  }

  ghost function Any<T>(s: set<T>): (x: T)
    requires s != {}
    ensures x in s
  {
    var x :| x in s; x
  }

  /** The next key of a Go map iteration: any one of those not yet visited. */
  method Pick<T(==)>(s: set<T>) returns (x: T)
    requires s != {}
    ensures x in s
  {
    x :| x in s;
  }

  /** The sum of a finite map's values. */
  ghost function MapSum<K>(m: map<K, int>): int
    decreases |m|
  {
    if m == map[] then 0 else
      var k :| k in m;
      assert (m - {k}).Keys == m.Keys - {k};
      m[k] + MapSum(m - {k})
  }

  lemma {:induction false} MapSumRemove<K>(m: map<K, int>, k: K)
    requires k in m
    ensures MapSum(m) == m[k] + MapSum(m - {k})
    decreases |m|
  {
    var c :| c in m && MapSum(m) == m[c] + MapSum(m - {c});
    if c != k {
      assert (m - {c}).Keys == m.Keys - {c};
      assert (m - {k}).Keys == m.Keys - {k};
      MapSumRemove(m - {c}, k);
      MapSumRemove(m - {k}, c);
      assert m - {c} - {k} == m - {k} - {c};
    }
  }

  lemma MapSumInsert<K>(m: map<K, int>, k: K, v: int)
    requires k !in m
    ensures MapSum(m[k := v]) == MapSum(m) + v
  {
    MapSumRemove(m[k := v], k);
    assert m[k := v] - {k} == m;
  }

  lemma MapSumUpdate<K>(m: map<K, int>, k: K, v: int)
    requires k in m
    ensures MapSum(m[k := v]) == MapSum(m) - m[k] + v
  {
    MapSumRemove(m[k := v], k);
    MapSumRemove(m, k);
    assert m[k := v] - {k} == m - {k};
  }

  lemma WithoutIn<K, V>(m: map<K, V>, s: set<K>, k: K)
    requires k in m && k in s
    ensures Restrict(m, s) - {k} == Restrict(m - {k}, s) && m - s == (m - {k}) - s
  {
  }

  lemma WithoutOut<K, V>(m: map<K, V>, s: set<K>, k: K)
    requires k in m && k !in s
    ensures (m - s) - {k} == (m - {k}) - s && Restrict(m, s) == Restrict(m - {k}, s)
  {
  }

  /** Splitting the keys splits the sum. */
  lemma {:induction false} MapSumSplit<K>(m: map<K, int>, s: set<K>)
    ensures MapSum(m) == MapSum(m - s) + MapSum(Restrict(m, s))
    decreases |m|
  {
    if m == map[] {
      assert m - s == map[] && Restrict(m, s) == map[];
    } else {
      var k := Any(m.Keys);
      assert (m - {k}).Keys == m.Keys - {k};
      MapSumRemove(m, k);
      MapSumSplit(m - {k}, s);
      if k in s {
        WithoutIn(m, s, k);
        MapSumRemove(Restrict(m, s), k);
      } else {
        WithoutOut(m, s, k);
        MapSumRemove(m - s, k);
      }
    }
  }

  lemma MapSumUnion<K>(m: map<K, int>, n: map<K, int>)
    requires m.Keys !! n.Keys
    ensures MapSum(m + n) == MapSum(m) + MapSum(n)
  {
    MapSumSplit(m + n, n.Keys);
    assert m + n - n.Keys == m;
    assert Restrict(m + n, n.Keys) == n;
  }

  lemma {:induction false} MapSumNonNegative<K>(m: map<K, int>)
    requires forall k :: k in m ==> m[k] >= 0
    ensures MapSum(m) >= 0
    decreases |m|
  {
    if m != map[] {
      var k :| k in m;
      assert (m - {k}).Keys == m.Keys - {k};
      MapSumRemove(m, k);
      MapSumNonNegative(m - {k});
    }
  }

  /** `m` with only the keys in `s`. */
  function Restrict<K, V>(m: map<K, V>, s: set<K>): map<K, V> { map k | k in m && k in s :: m[k] }

  lemma MapSumSubset<K>(m: map<K, int>, s: set<K>)
    requires forall k :: k in m ==> m[k] >= 0
    ensures 0 <= MapSum(Restrict(m, s)) <= MapSum(m)
  {
    MapSumSplit(m, s);
    MapSumNonNegative(m - s);
    MapSumNonNegative(Restrict(m, s));
  }
}
