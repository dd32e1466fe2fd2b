/** The Merkle root of a block's transaction ids: core/transaction.go. */
module Merkle {
  import opened Basics
  import opened Types

  /** One level up: neighbours are paired, and the last hash of an odd level with itself. */
  function NextLevel(hs: seq<Hash>): seq<Hash>
    requires hs != []
  {
    seq((|hs| + 1) / 2, i requires 0 <= i < (|hs| + 1) / 2 =>
      Pair(hs[2 * i], if 2 * i + 1 < |hs| then hs[2 * i + 1] else hs[2 * i]))
  }

  function Root(hs: seq<Hash>): Hash
    requires hs != []
    decreases |hs|
  {
    if |hs| == 1 then hs[0] else Root(NextLevel(hs))
  }

  function MerkleRoot(txs: seq<Transaction>): Hash {
    if txs == [] then ZeroHash else Root(Ids(txs))
  }

  method BuildMerkleTree(hashes: seq<Hash>) returns (root: Hash)
    requires hashes != []
    ensures root == Root(hashes)
    decreases |hashes|
  {
    if |hashes| == 1 {
      return hashes[0];
    }
    var level := hashes;
    if |level| % 2 != 0 {
      level := level + [level[|level| - 1]];
    }
    var next := new Hash[|level| / 2];
    var i := 0;
    while i < |level|
      invariant 0 <= i <= |level| && i % 2 == 0
      invariant forall k :: 0 <= k < i / 2 ==> next[k] == NextLevel(hashes)[k]
    {
      next[i / 2] := Pair(level[i], level[i + 1]);
      i := i + 2;
    }
    assert next[..] == NextLevel(hashes);
    root := BuildMerkleTree(next[..]);
  }

  /** A perfect binary tree of the given height over leaves that are not pairs. */
  predicate Perfect(h: Hash, height: nat) {
    if height == 0 then !h.Pair? else h.Pair? && Perfect(h.left, height - 1) && Perfect(h.right, height - 1)
  }

  predicate AllPerfect(hs: seq<Hash>, height: nat) { forall i :: 0 <= i < |hs| ==> Perfect(hs[i], height) }

  lemma {:induction false} PerfectHeightUnique(h: Hash, m: nat, n: nat)
    requires Perfect(h, m) && Perfect(h, n)
    ensures m == n
  {
    if m > 0 && n > 0 {
      PerfectHeightUnique(h.left, m - 1, n - 1);
    }
  }

  lemma {:induction false} RootIsTall(hs: seq<Hash>, height: nat) returns (top: nat)
    requires hs != [] && AllPerfect(hs, height)
    ensures Perfect(Root(hs), top) && top >= height && (|hs| > 1 ==> top > height)
    decreases |hs|
  {
    if |hs| == 1 {
      top := height;
    } else {
      top := RootIsTall(NextLevel(hs), height + 1);
    }
  }

  lemma NextLevelNoDup(hs: seq<Hash>)
    requires hs != [] && NoDup(hs)
    ensures NoDup(NextLevel(hs))
  {
    var up := NextLevel(hs);
    forall i, j | 0 <= i < j < |up| ensures up[i] != up[j] {
      assert up[i].left == hs[2 * i] && up[j].left == hs[2 * j];
    }
  }

  /** The level below is recovered, because a repeated hash marks an odd level. */
  lemma NextLevelInjective(a: seq<Hash>, b: seq<Hash>)
    requires a != [] && b != [] && NoDup(a) && NoDup(b) && NextLevel(a) == NextLevel(b)
    ensures a == b
  {
    var up := NextLevel(a);
    var last := |up| - 1;
    assert up[last].left == a[2 * last] == b[2 * last];
    assert |a| == |b|;
    forall i | 0 <= i < |a| ensures a[i] == b[i] {
      assert up[i / 2] == NextLevel(b)[i / 2];
    }
  }

  lemma {:induction false} RootBindsLevel(a: seq<Hash>, b: seq<Hash>, height: nat)
    requires a != [] && b != [] && NoDup(a) && NoDup(b)
    requires AllPerfect(a, height) && AllPerfect(b, height)
    requires Root(a) == Root(b)
    ensures a == b
    decreases |a|
  {
    var s := RootIsTall(a, height);
    var t := RootIsTall(b, height);
    PerfectHeightUnique(Root(a), s, t);
    if |a| == 1 {
      PerfectHeightUnique(Root(a), s, height);
      assert |b| == 1;
    } else {
      if |b| == 1 {
        PerfectHeightUnique(Root(b), t, height);
      }
      NextLevelNoDup(a);
      NextLevelNoDup(b);
      RootBindsLevel(NextLevel(a), NextLevel(b), height + 1);
      NextLevelInjective(a, b);
    }
  }

  lemma RootNotZero(hs: seq<Hash>)
    requires hs != [] && forall i :: 0 <= i < |hs| ==> !hs[i].Pair? && hs[i] != ZeroHash
    ensures Root(hs) != ZeroHash
  {
    if |hs| > 1 {
      var top := RootIsTall(hs, 0);
    }
  }

  /** Two lists of transactions whose ids are not inner nodes, that pass the duplicate check and
      have the same root, carry the same ids in the same order, whatever their lengths. */
  lemma RootBinds(s: seq<Transaction>, t: seq<Transaction>)
    requires NoDup(Ids(s)) && NoDup(Ids(t))
    requires forall tx :: tx in s || tx in t ==> !tx.id.Pair? && tx.id != ZeroHash
    requires MerkleRoot(s) == MerkleRoot(t)
    ensures Ids(s) == Ids(t)
  {
    if s != [] && t != [] {
      RootBindsLevel(Ids(s), Ids(t), 0);
    } else if s != [] {
      RootNotZero(Ids(s));
    } else if t != [] {
      RootNotZero(Ids(t));
    }
  }

  /** Without the duplicate check the root does not bind: an odd list of at least three and the
      same list with its last id repeated share a root. */
  lemma OddListCollides(hs: seq<Hash>)
    requires |hs| % 2 == 1 && |hs| > 1
    ensures Root(hs + [hs[|hs| - 1]]) == Root(hs)
  {
    assert NextLevel(hs + [hs[|hs| - 1]]) == NextLevel(hs);
  }

  // ------------------------------------------------------------------ the order of the leaves

  /** The leaves of a tree from left to right. */
  function Leaves(h: Hash): seq<Hash> { if h.Pair? then Leaves(h.left) + Leaves(h.right) else [h] }

  function LeavesOf(hs: seq<Hash>): seq<Hash> {
    if hs == [] then [] else LeavesOf(hs[..|hs| - 1]) + Leaves(hs[|hs| - 1])
  }

  lemma {:induction false} LeavesOfNone(hs: seq<Hash>)
    requires forall i :: 0 <= i < |hs| ==> !hs[i].Pair?
    ensures LeavesOf(hs) == hs
  {
    if hs != [] {
      LeavesOfNone(hs[..|hs| - 1]);
      assert hs == hs[..|hs| - 1] + [hs[|hs| - 1]];
    }
  }

  lemma LeavesOfNext(hs: seq<Hash>, k: nat)
    requires k < |hs|
    ensures LeavesOf(hs[..k + 1]) == LeavesOf(hs[..k]) + Leaves(hs[k])
  {
    assert hs[..k + 1][..k] == hs[..k];
  }

  lemma {:induction false} PairsKeepLeaves(hs: seq<Hash>, k: nat)
    requires hs != [] && 2 * k <= |hs|
    ensures LeavesOf(NextLevel(hs)[..k]) == LeavesOf(hs[..2 * k])
  {
    if k > 0 {
      PairsKeepLeaves(hs, k - 1);
      LeavesOfNext(NextLevel(hs), k - 1);
      LeavesOfNext(hs, 2 * k - 2);
      LeavesOfNext(hs, 2 * k - 1);
      var a, b := hs[2 * k - 2], hs[2 * k - 1];
      assert NextLevel(hs)[k - 1] == Pair(a, b);
      assert LeavesOf(hs[..2 * k - 2]) + Leaves(a) + Leaves(b) == LeavesOf(hs[..2 * k - 2]) + (Leaves(a) + Leaves(b));
    }
  }

  /** The last hash of an odd level is doubled. */
  lemma OddLevelLeaves(hs: seq<Hash>, k: nat)
    requires |hs| == 2 * k + 1
    ensures LeavesOf(NextLevel(hs)) == LeavesOf(hs) + Leaves(hs[2 * k])
  {
    var up, x, l := NextLevel(hs), LeavesOf(hs[..2 * k]), Leaves(hs[2 * k]);
    PairsKeepLeaves(hs, k);
    assert up[..|up| - 1] == up[..k] && hs[..|hs| - 1] == hs[..2 * k];
    assert Leaves(up[k]) == l + l;
    assert x + (l + l) == x + l + l;
  }

  /** A level up the leaves are the same, but for those of a doubled hash at the end. */
  lemma NextLevelLeaves(hs: seq<Hash>)
    requires hs != []
    ensures LeavesOf(hs) <= LeavesOf(NextLevel(hs))
  {
    var k := |hs| / 2;
    if |hs| % 2 == 0 {
      PairsKeepLeaves(hs, k);
      assert NextLevel(hs)[..k] == NextLevel(hs) && hs[..2 * k] == hs;
    } else {
      OddLevelLeaves(hs, k);
    }
  }

  lemma {:induction false} RootStartsWith(hs: seq<Hash>)
    requires hs != []
    ensures LeavesOf(hs) <= Leaves(Root(hs))
    decreases |hs|
  {
    if |hs| == 1 {
      assert hs[..0] == [] && LeavesOf(hs) == [] + Leaves(hs[0]);
    } else {
      NextLevelLeaves(hs);
      RootStartsWith(NextLevel(hs));
    }
  }

  /** The root is a perfect tree whose leaves start with the transaction ids, in their order. */
  lemma RootListsIds(txs: seq<Transaction>) returns (top: nat)
    requires txs != [] && forall i :: 0 <= i < |txs| ==> !txs[i].id.Pair?
    ensures Ids(txs) <= Leaves(MerkleRoot(txs)) && Perfect(MerkleRoot(txs), top)
  {
    RootStartsWith(Ids(txs));
    LeavesOfNone(Ids(txs));
    top := RootIsTall(Ids(txs), 0);
  }
}
