/** Choosing the proposer: consensus/selection.go. */
module Selection {
  import opened Basics
  import opened Types
  import opened ValidatorSets
  import opened Quorum

  predicate Ascending(q: seq<Address>) { forall i, j :: 0 <= i < j < |q| ==> q[i] < q[j] }

  lemma AscendingNoDup(q: seq<Address>)
    requires Ascending(q)
    ensures NoDup(q)
  {
  }

  ghost function Least(s: set<Address>): (m: Address)
    requires s != {}
    ensures m in s && forall x :: x in s ==> m <= x
  {
    var x := Any(s);
    if s == {x} then x else
      assert s - {x} != {};
      var m := Least(s - {x});
      assert forall y :: y in s ==> y == x || y in s - {x};
      if x < m then x else m
  }

  lemma AscendingCons(m: Address, q: seq<Address>)
    requires Ascending(q) && forall x :: x in Elems(q) ==> m < x
    ensures Ascending([m] + q) && Elems([m] + q) == {m} + Elems(q)
  {
    assert forall i :: 0 <= i < |q| ==> q[i] in Elems(q);
    ElemsConcat([m], q);
    assert Elems([m]) == {m};
  }

  /** The active addresses in the order of their strings. */
  ghost function SortedSet(s: set<Address>): (q: seq<Address>)
    ensures Ascending(q) && Elems(q) == s
    decreases |s|
  {
    if s == {} then [] else
      var m := Least(s);
      var rest := SortedSet(s - {m});
      AscendingCons(m, rest);
      [m] + rest
  }

  ghost function Roster(vs: Validators): seq<Address> { SortedSet(ActiveSet(vs)) }

  /** Sorting any listing of a set gives the same sequence, so map iteration order does not matter. */
  lemma {:induction false} AscendingUnique(p: seq<Address>, q: seq<Address>)
    requires Ascending(p) && Ascending(q) && Elems(p) == Elems(q)
    ensures p == q
  {
    if p == [] {
      assert forall i :: 0 <= i < |q| ==> q[i] in Elems(q);
      assert q == [];
    } else {
      assert p[0] in Elems(q);
      assert q != [];
      assert q[0] in Elems(p);
      assert p[0] == q[0];
      assert forall x :: x in Elems(p[1..]) <==> x in Elems(p) && x != p[0] by {
        assert p == [p[0]] + p[1..];
      }
      assert forall x :: x in Elems(q[1..]) <==> x in Elems(q) && x != q[0] by {
        assert q == [q[0]] + q[1..];
      }
      AscendingUnique(p[1..], q[1..]);
      assert p == [p[0]] + p[1..] && q == [q[0]] + q[1..];
    }
  }

  method GetActiveValidators(vs: Validators) returns (q: seq<Address>)
    ensures NoDup(q) && Elems(q) == ActiveSet(vs)
  {
    q := [];
    var todo: set<Address> := vs.members.Keys;
    while todo != {}
      invariant todo <= vs.members.Keys
      invariant NoDup(q) && Elems(q) == ActiveSet(vs) - todo
      decreases todo
    {
      var a := Pick(todo);
      if vs.members[a].active {
        NoDupSnoc(q, a);
        ElemsConcat(q, [a]);
        q := q + [a];
      }
      todo := todo - {a};
    }
  }

  method Insert(q: seq<Address>, x: Address) returns (r: seq<Address>)
    requires Ascending(q) && x !in q
    ensures Ascending(r) && Elems(r) == Elems(q) + {x}
  {
    var i := 0;
    while i < |q| && q[i] < x
      invariant 0 <= i <= |q|
      invariant forall k :: 0 <= k < i ==> q[k] < x
    {
      i := i + 1;
    }
    r := q[..i] + [x] + q[i..];
    InsertedAt(q, x, i);
  }

  lemma InsertedAt(q: seq<Address>, x: Address, i: nat)
    requires Ascending(q) && x !in q && i <= |q|
    requires (forall k :: 0 <= k < i ==> q[k] < x) && (i < |q| ==> x <= q[i])
    ensures Ascending(q[..i] + [x] + q[i..]) && Elems(q[..i] + [x] + q[i..]) == Elems(q) + {x}
  {
    AscendingNoDup(q);
    Inserted(q, x, i);
    InsertedAscending(q, x, i);
  }

  lemma InsertedAscending(q: seq<Address>, x: Address, i: nat)
    requires Ascending(q) && x !in q && i <= |q|
    requires (forall k :: 0 <= k < i ==> q[k] < x) && (i < |q| ==> x <= q[i])
    ensures Ascending(q[..i] + [x] + q[i..])
  {
    var r := q[..i] + [x] + q[i..];
    assert forall k :: 0 <= k < i ==> r[k] == q[k];
    assert r[i] == x;
    assert forall k :: i < k < |r| ==> r[k] == q[k - 1];
    assert forall k :: i <= k < |q| ==> x < q[k];
  }

  /** `sort.Slice` by address. */
  method SortByAddress(q: seq<Address>) returns (r: seq<Address>)
    requires NoDup(q)
    ensures r == SortedSet(Elems(q))
  {
    r := [];
    for i := 0 to |q|
      invariant Ascending(r) && Elems(r) == Elems(q[..i])
    {
      assert q[..i + 1] == q[..i] + [q[i]];
      ElemsConcat(q[..i], [q[i]]);
      assert q[i] !in Elems(r);
      r := Insert(r, q[i]);
    }
    assert q[..|q|] == q;
    AscendingUnique(r, SortedSet(Elems(q)));
  }

  method SortedActive(vs: Validators) returns (q: seq<Address>)
    ensures q == Roster(vs)
  {
    var any := GetActiveValidators(vs);
    q := SortByAddress(any);
  }

  // ------------------------------------------------------------------ the three modes

  ghost function RoundRobin(vs: Validators, height: u64, round: u32): Option<Address> {
    var q := Roster(vs);
    if q == [] then None else Some(q[Wrap(height + round) % |q|])
  }

  method SelectProposer(vs: Validators, height: u64, round: u32) returns (p: Option<Address>)
    ensures p == RoundRobin(vs, height, round)
  {
    var q := SortedActive(vs);
    if |q| == 0 {
      return None;
    }
    p := Some(q[Wrap(height + round) % |q|]);
  }

  /** The position at which the running sum of powers first exceeds the target. */
  function PickFrom(vs: Validators, q: seq<Address>, i: nat, cumulative: u64, target: u64): Option<Address>
    requires i <= |q| && forall k :: 0 <= k < |q| ==> q[k] in vs.members
    decreases |q| - i
  {
    if i == |q| then None else
    var c := Wrap(cumulative + vs.members[q[i]].power);
    if target < c then Some(q[i]) else PickFrom(vs, q, i + 1, c, target)
  }

  /** The weighted choice on a given target; when no running sum exceeds it, the first validator. */
  function Weighted(vs: Validators, q: seq<Address>, target: u64): Address
    requires q != [] && forall k :: 0 <= k < |q| ==> q[k] in vs.members
  {
    match PickFrom(vs, q, 0, 0, target) case Some(a) => a case None => q[0]
  }

  lemma RosterMembers(vs: Validators)
    ensures forall k :: 0 <= k < |Roster(vs)| ==> Roster(vs)[k] in vs.members
  {
    var q := Roster(vs);
    assert forall k :: 0 <= k < |q| ==> q[k] in Elems(q);
  }

  /** `hash` is the first eight bytes of the seed's SHA-256: any number. */
  function VrfOn(vs: Validators, q: seq<Address>, hash: u64): Option<Address>
    requires forall k :: 0 <= k < |q| ==> q[k] in vs.members
  {
    if q == [] then None
    else if vs.total == 0 then Some(q[hash % |q|])
    else Some(Weighted(vs, q, hash % vs.total))
  }

  ghost function Vrf(vs: Validators, hash: u64): Option<Address> {
    RosterMembers(vs);
    VrfOn(vs, Roster(vs), hash)
  }

  method SelectProposerVrf(vs: Validators, hash: u64) returns (p: Option<Address>)
    ensures p == Vrf(vs, hash)
  {
    var q := SortedActive(vs);
    RosterMembers(vs);
    if |q| == 0 {
      return None;
    }
    if vs.total == 0 {
      return Some(q[hash % |q|]);
    }
    var target := hash % vs.total;
    var cumulative: u64 := 0;
    for i := 0 to |q|
      invariant PickFrom(vs, q, 0, 0, target) == PickFrom(vs, q, i, cumulative, target)
    {
      cumulative := Wrap(cumulative + vs.members[q[i]].power);
      if target < cumulative {
        return Some(q[i]);
      }
    }
    p := Some(q[0]);
  }

  /** `base` is the hash of the seed without the round. */
  ghost function Hybrid(vs: Validators, round: u32, hash: u64, base: u64): Option<Address> {
    var q := Roster(vs);
    if q == [] then None
    else if round == 0 then Vrf(vs, hash)
    else Some(q[Wrap(base % |q| + round) % |q|])
  }

  method SelectProposerHybrid(vs: Validators, round: u32, hash: u64, base: u64) returns (p: Option<Address>)
    ensures p == Hybrid(vs, round, hash, base)
  {
    var q := SortedActive(vs);
    if |q| == 0 {
      return None;
    }
    if round == 0 {
      p := SelectProposerVrf(vs, hash);
      return;
    }
    var baseIndex := base % |q|;
    p := Some(q[Wrap(baseIndex + round) % |q|]);
  }

  // ------------------------------------------------------------------ weighted selection is exact

  function PrefixPower(vs: Validators, q: seq<Address>, i: nat): nat
    requires i <= |q| && forall k :: 0 <= k < |q| ==> q[k] in vs.members
  {
    if i == 0 then 0 else PrefixPower(vs, q, i - 1) + vs.members[q[i - 1]].power
  }

  lemma {:induction false} PrefixMonotone(vs: Validators, q: seq<Address>, i: nat, j: nat)
    requires i <= j <= |q| && forall k :: 0 <= k < |q| ==> q[k] in vs.members
    ensures PrefixPower(vs, q, i) <= PrefixPower(vs, q, j)
  {
    if i < j {
      PrefixMonotone(vs, q, i, j - 1);
    }
  }

  lemma {:induction false} PrefixIsPower(vs: Validators, q: seq<Address>, i: nat)
    requires i <= |q| && NoDup(q) && forall k :: 0 <= k < |q| ==> q[k] in vs.members
    ensures PrefixPower(vs, q, i) == PowerOf(vs, Elems(q[..i]))
  {
    if i == 0 {
      PowerOfNone(vs);
      assert Elems(q[..0]) == {};
    } else {
      PrefixIsPower(vs, q, i - 1);
      assert q[..i] == q[..i - 1] + [q[i - 1]];
      ElemsConcat(q[..i - 1], [q[i - 1]]);
      NoDupSnoc(q[..i - 1], q[i - 1]);
      PowerInsert(vs, Elems(q[..i - 1]), q[i - 1]);
      assert Elems([q[i - 1]]) == {q[i - 1]};
    }
  }

  /** One step of the running sum, without wrapping. */
  lemma PickStep(vs: Validators, q: seq<Address>, i: nat, sum: u64, target: u64)
    requires i < |q| && (forall k :: 0 <= k < |q| ==> q[k] in vs.members) && sum + vs.members[q[i]].power < TWO64
    ensures var next := sum + vs.members[q[i]].power;
      PickFrom(vs, q, i, sum, target) == if target < next then Some(q[i]) else PickFrom(vs, q, i + 1, next, target)
  {
  }

  /** A target between two running sums picks the validator between them. */
  lemma {:induction false} PickInInterval(vs: Validators, q: seq<Address>, i: nat, j: nat, target: u64)
    requires i <= j < |q| && forall k :: 0 <= k < |q| ==> q[k] in vs.members
    requires PrefixPower(vs, q, |q|) < TWO64
    requires PrefixPower(vs, q, j) <= target < PrefixPower(vs, q, j + 1)
    ensures PrefixPower(vs, q, i) < TWO64 && PickFrom(vs, q, i, PrefixPower(vs, q, i), target) == Some(q[j])
    decreases j - i
  {
    PrefixMonotone(vs, q, i, |q|);
    PrefixMonotone(vs, q, i + 1, |q|);
    PrefixMonotone(vs, q, i, j);
    PickStep(vs, q, i, PrefixPower(vs, q, i), target);
    if i < j {
      PrefixMonotone(vs, q, i + 1, j);
      PickInInterval(vs, q, i + 1, j, target);
    }
  }

  lemma {:induction false} FindInterval(vs: Validators, q: seq<Address>, n: nat, target: u64) returns (j: nat)
    requires n <= |q| && forall k :: 0 <= k < |q| ==> q[k] in vs.members
    requires target < PrefixPower(vs, q, n)
    ensures j < n && PrefixPower(vs, q, j) <= target < PrefixPower(vs, q, j + 1)
  {
    if target < PrefixPower(vs, q, n - 1) {
      j := FindInterval(vs, q, n - 1, target);
    } else {
      j := n - 1;
    }
  }

  /** The integers from `lo` up to but not including `hi`. */
  ghost function Interval(lo: int, hi: int): (s: set<int>)
    requires lo <= hi
    ensures |s| == hi - lo
    ensures forall t :: t in s <==> lo <= t < hi
    decreases hi - lo
  {
    if lo == hi then {} else Interval(lo, hi - 1) + {hi - 1}
  }

  ghost predicate ExactTotal(vs: Validators) { vs.total == PowerOf(vs, ActiveSet(vs)) && vs.total > 0 }

  lemma RosterTotal(vs: Validators)
    requires ExactTotal(vs)
    ensures Roster(vs) != [] && (forall k :: 0 <= k < |Roster(vs)| ==> Roster(vs)[k] in vs.members)
    ensures PrefixPower(vs, Roster(vs), |Roster(vs)|) == vs.total
  {
    var q := Roster(vs);
    RosterMembers(vs);
    AscendingNoDup(q);
    PrefixIsPower(vs, q, |q|);
    assert q[..|q|] == q;
  }

  /** Every residue below the total is won through a running sum: the fallback is unreachable. */
  lemma FallbackUnreachable(vs: Validators, target: u64)
    requires ExactTotal(vs) && target < vs.total
    ensures (forall k :: 0 <= k < |Roster(vs)| ==> Roster(vs)[k] in vs.members)
      && PickFrom(vs, Roster(vs), 0, 0, target).Some?
  {
    RosterTotal(vs);
    var q := Roster(vs);
    var j := FindInterval(vs, q, |q|, target);
    PickInInterval(vs, q, 0, j, target);
  }

  /** Intervals of running sums do not overlap. */
  lemma IntervalsApart(vs: Validators, q: seq<Address>, i: nat, j: nat, t: nat)
    requires i < |q| && j < |q| && forall k :: 0 <= k < |q| ==> q[k] in vs.members
    requires PrefixPower(vs, q, j) <= t < PrefixPower(vs, q, j + 1)
    ensures PrefixPower(vs, q, i) <= t < PrefixPower(vs, q, i + 1) <==> i == j
  {
    if j < i {
      PrefixMonotone(vs, q, j + 1, i);
    } else if j > i {
      PrefixMonotone(vs, q, i + 1, j);
    }
  }

  lemma SmallMod(t: nat, n: nat)
    requires t < n
    ensures t % n == t
  {
  }

  lemma WeightedPicks(vs: Validators, q: seq<Address>, t: u64) returns (j: nat)
    requires forall k :: 0 <= k < |q| ==> q[k] in vs.members
    requires t < PrefixPower(vs, q, |q|) < TWO64
    ensures j < |q| && Weighted(vs, q, t) == q[j]
    ensures PrefixPower(vs, q, j) <= t < PrefixPower(vs, q, j + 1)
  {
    j := FindInterval(vs, q, |q|, t);
    PickInInterval(vs, q, 0, j, t);
  }

  lemma VrfPicks(vs: Validators, q: seq<Address>, t: u64) returns (j: nat)
    requires forall k :: 0 <= k < |q| ==> q[k] in vs.members
    requires PrefixPower(vs, q, |q|) == vs.total && t < vs.total
    ensures j < |q| && VrfOn(vs, q, t) == Some(q[j])
    ensures PrefixPower(vs, q, j) <= t < PrefixPower(vs, q, j + 1)
  {
    j := WeightedPicks(vs, q, t);
    SmallMod(t, vs.total);
  }

  /** A residue is won by the validator whose interval of running sums contains it. */
  lemma WonByInterval(vs: Validators, q: seq<Address>, i: nat, t: u64)
    requires NoDup(q) && i < |q| && forall k :: 0 <= k < |q| ==> q[k] in vs.members
    requires PrefixPower(vs, q, |q|) == vs.total && t < vs.total
    ensures VrfOn(vs, q, t) == Some(q[i]) <==> PrefixPower(vs, q, i) <= t < PrefixPower(vs, q, i + 1)
  {
    var j := VrfPicks(vs, q, t);
    IntervalsApart(vs, q, i, j, t);
    assert q[i] == q[j] <==> i == j;
  }

  /** The residues below the total that select `a`. */
  ghost function Winning(vs: Validators, a: Address): set<u64> {
    set t: u64 | 0 <= t < vs.total && Vrf(vs, t) == Some(a)
  }

  lemma IntervalWins(vs: Validators, q: seq<Address>, i: nat, s: set<u64>)
    requires NoDup(q) && i < |q| && forall k :: 0 <= k < |q| ==> q[k] in vs.members
    requires PrefixPower(vs, q, |q|) == vs.total
    requires forall t: u64 :: t in s <==> t < vs.total && VrfOn(vs, q, t) == Some(q[i])
    ensures |s| == vs.members[q[i]].power
  {
    var lo, hi := PrefixPower(vs, q, i), PrefixPower(vs, q, i + 1);
    PrefixMonotone(vs, q, i + 1, |q|);
    forall t: u64 ensures t in s <==> lo <= t < hi {
      if t < vs.total {
        WonByInterval(vs, q, i, t);
      }
    }
    SameSize(s, lo, hi);
  }

  /** Exactly as many residues select a validator as it has power. */
  lemma WeightedIsExact(vs: Validators, a: Address)
    requires ExactTotal(vs) && a in ActiveSet(vs)
    ensures |Winning(vs, a)| == vs.members[a].power
  {
    RosterTotal(vs);
    var q := Roster(vs);
    assert a in Elems(q);
    var i :| 0 <= i < |q| && q[i] == a;
    AscendingNoDup(q);
    IntervalWins(vs, q, i, Winning(vs, a));
  }

  lemma SameSize(s: set<u64>, lo: int, hi: int)
    requires 0 <= lo <= hi < TWO64 && forall t: u64 :: t in s <==> lo <= t < hi
    ensures |s| == hi - lo
  {
    var r: set<int> := s;
    assert r == Interval(lo, hi);
  }

  // ------------------------------------------------------------------ rotation reaches everybody

  lemma ModOf(n: nat, k: int, r: nat)
    requires r < n
    ensures (n * k + r) % n == r
  {
    var a := n * k + r;
    var d := a / n - k;
    assert a == n * (a / n) + a % n;
    assert n * d == n * (a / n) - n * k == r - a % n;
    SmallMultiple(n, d);
  }

  lemma SmallMultiple(n: nat, d: int)
    requires -(n as int) < n * d < n
    ensures d == 0
  {
  }

  /** The slot of the `k`-th number after `x` on a wheel of `n`. */
  function Slot(n: nat, x: nat, k: nat): nat
    requires n > 0
  {
    (x + k) % n
  }

  lemma SlotAt(n: nat, x: nat, k: nat)
    requires k < n
    ensures Slot(n, x, k) == if x % n + k < n then x % n + k else x % n + k - n
  {
    var r, d := x % n, x / n;
    assert x == n * d + r;
    if r + k < n {
      ModOf(n, d, r + k);
    } else {
      assert n * (d + 1) == n * d + n;
      ModOf(n, d + 1, r + k - n);
    }
  }

  /** Of any `n` consecutive numbers exactly one has a given residue. */
  lemma OneOfConsecutive(n: nat, x: nat, i: nat) returns (k: nat)
    requires i < n
    ensures k < n && Slot(n, x, k) == i
    ensures forall m: nat :: m < n && Slot(n, x, m) == i ==> m == k
  {
    var r := x % n;
    k := if i >= r then i - r else i - r + n;
    SlotAt(n, x, k);
    forall m: nat | m < n && Slot(n, x, m) == i ensures m == k {
      SlotAt(n, x, m);
    }
  }

  // ------------------------------------------------------------------ consecutive hashes

  predicate Hit(choose: int -> Option<Address>, x: nat, k: nat, a: Address) { choose(x + k) == Some(a) }

  /** Which of the `n` hashes from `x` on choose `a`. */
  ghost function Hits(choose: int -> Option<Address>, x: nat, n: nat, a: Address): set<nat> {
    set k: nat | k < n && Hit(choose, x, k, a)
  }

  /** The positions after `x` whose residue is in `s`. */
  ghost function Landing(n: nat, x: nat, s: set<nat>): set<nat>
    requires n > 0
  {
    set k: nat | k < n && Slot(n, x, k) in s
  }

  /** Among `n` consecutive numbers, as many have a residue in `s` as `s` has elements. */
  lemma {:induction false} LandingSize(n: nat, x: nat, s: set<nat>)
    requires n > 0 && forall i :: i in s ==> i < n
    ensures |Landing(n, x, s)| == |s|
    decreases |s|
  {
    if s == {} {
      assert Landing(n, x, s) == {};
    } else {
      var i := Any(s);
      LandingSize(n, x, s - {i});
      var k := OneOfConsecutive(n, x, i);
      assert Landing(n, x, s) == Landing(n, x, s - {i}) + {k};
    }
  }

  /** The choice depends on the residue only. */
  lemma VrfPeriodic(vs: Validators, hash: u64)
    requires vs.total > 0
    ensures Vrf(vs, hash) == Vrf(vs, hash % vs.total)
  {
    SmallMod(hash % vs.total, vs.total);
  }

  lemma HitsAreLanding(vs: Validators, choose: int -> Option<Address>, x: nat, a: Address)
    requires vs.total > 0 && x + vs.total <= TWO64 && forall h: u64 :: choose(h) == Vrf(vs, h)
    ensures Hits(choose, x, vs.total, a) == Landing(vs.total, x, Winning(vs, a))
  {
    forall k: nat | k < vs.total
      ensures Hit(choose, x, k, a) <==> Slot(vs.total, x, k) in Winning(vs, a)
    {
      VrfPeriodic(vs, x + k);
    }
  }

  /** Of any `total` consecutive hashes, exactly as many select a validator as it has power: in the
      weighted mode, and in round 0 of the hybrid mode. */
  lemma ConsecutiveHashesExact(vs: Validators, choose: int -> Option<Address>, x: nat, a: Address, base: u64)
    requires ExactTotal(vs) && a in ActiveSet(vs) && x + vs.total <= TWO64
    requires (forall h: u64 :: choose(h) == Vrf(vs, h)) || (forall h: u64 :: choose(h) == Hybrid(vs, 0, h, base))
    ensures |Hits(choose, x, vs.total, a)| == vs.members[a].power
  {
    RosterTotal(vs);
    HitsAreLanding(vs, choose, x, a);
    LandingSize(vs.total, x, Winning(vs, a));
    WeightedIsExact(vs, a);
  }

  lemma UniformHits(q: seq<Address>, choose: int -> Option<Address>, x: nat, i: nat)
    requires NoDup(q) && i < |q| && x + |q| <= TWO64
    requires forall h: u64 :: choose(h) == Some(q[h % |q|])
    ensures Hits(choose, x, |q|, q[i]) == Landing(|q|, x, {i})
  {
    forall k: nat | k < |q| ensures Hit(choose, x, k, q[i]) <==> Slot(|q|, x, k) == i {
      var h: u64 := x + k;
      assert choose(h) == Some(q[Slot(|q|, x, k)]);
    }
  }

  /** Without any power the choice is uniform: of as many consecutive hashes as there are active
      validators, exactly one selects each of them. */
  lemma UniformWithoutPower(vs: Validators, choose: int -> Option<Address>, x: nat, a: Address)
    requires vs.total == 0 && a in ActiveSet(vs) && x + |Roster(vs)| <= TWO64
    requires forall h: u64 :: choose(h) == Vrf(vs, h)
    ensures |Hits(choose, x, |Roster(vs)|, a)| == 1
  {
    var q := Roster(vs);
    assert a in Elems(q);
    var i :| 0 <= i < |q| && q[i] == a;
    AscendingNoDup(q);
    UniformHits(q, choose, x, i);
    LandingSize(|q|, x, {i});
  }
}
