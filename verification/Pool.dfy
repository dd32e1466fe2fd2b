/** Waiting transactions: core/mempool.go. */
module Pool {
  import opened Basics
  import opened Types
  import opened Validation

  /** A waiting transaction with its cached fee. */
  datatype Waiting = Waiting(tx: Transaction, fee: u64)

  /** The outputs that waiting transactions claim. */
  function Reserved(m: map<Hash, Waiting>): set<OutPoint> {
    set id, i | id in m && 0 <= i < |m[id].tx.inputs| :: m[id].tx.inputs[i].Point()
  }

  /** Every transaction waits under its own id. */
  ghost predicate Keyed(m: map<Hash, Waiting>) { forall id :: id in m ==> m[id].tx.id == id }

  predicate ByFee(m: map<Hash, Waiting>, ids: seq<Hash>)
    requires forall i :: 0 <= i < |ids| ==> ids[i] in m
  {
    forall i, j :: 0 <= i < j < |ids| ==> m[ids[i]].fee >= m[ids[j]].fee
  }

  /** `txs` may be handed out for the next block: distinct waiting transactions in order of falling
      fee, as many as fit, and none left behind that pays more. */
  ghost predicate Candidates(m: map<Hash, Waiting>, txs: seq<Transaction>) {
    && NoDup(Ids(txs))
    && |txs| == (if |m| <= MAX_TXS_PER_BLOCK then |m| else MAX_TXS_PER_BLOCK)
    && (forall i :: 0 <= i < |txs| ==> txs[i].id in m && m[txs[i].id].tx == txs[i])
    && (forall i, j :: 0 <= i < j < |txs| ==> m[txs[i].id].fee >= m[txs[j].id].fee)
    && (forall i, id :: 0 <= i < |txs| && id in m && id !in Ids(txs) ==> m[txs[i].id].fee >= m[id].fee)
  }

  /** When everything fits, everything is handed out. */
  lemma AllHandedOut(m: map<Hash, Waiting>, txs: seq<Transaction>)
    requires Candidates(m, txs) && |m| <= MAX_TXS_PER_BLOCK
    ensures Elems(Ids(txs)) == m.Keys
  {
    NoDupCard(Ids(txs));
    assert forall i :: 0 <= i < |txs| ==> Ids(txs)[i] == txs[i].id;
    SameSizeSubset(Elems(Ids(txs)), m.Keys);
  }

  method InsertByFee(m: map<Hash, Waiting>, ids: seq<Hash>, id: Hash) returns (r: seq<Hash>)
    requires id in m && id !in ids && NoDup(ids) && (forall i :: 0 <= i < |ids| ==> ids[i] in m) && ByFee(m, ids)
    ensures NoDup(r) && Elems(r) == Elems(ids) + {id} && (forall i :: 0 <= i < |r| ==> r[i] in m) && ByFee(m, r)
  {
    var i := 0;
    while i < |ids| && m[ids[i]].fee >= m[id].fee
      invariant 0 <= i <= |ids|
      invariant forall k :: 0 <= k < i ==> m[ids[k]].fee >= m[id].fee
    {
      i := i + 1;
    }
    r := ids[..i] + [id] + ids[i..];
    Inserted(ids, id, i);
    InsertedByFee(m, ids, id, i);
  }

  lemma InsertedByFee(m: map<Hash, Waiting>, ids: seq<Hash>, id: Hash, i: nat)
    requires i <= |ids| && id in m && (forall k :: 0 <= k < |ids| ==> ids[k] in m) && ByFee(m, ids)
    requires (forall k :: 0 <= k < i ==> m[ids[k]].fee >= m[id].fee) && (i < |ids| ==> m[ids[i]].fee <= m[id].fee)
    ensures var r := ids[..i] + [id] + ids[i..]; (forall k :: 0 <= k < |r| ==> r[k] in m) && ByFee(m, r)
  {
    var r := ids[..i] + [id] + ids[i..];
    assert forall k :: 0 <= k < i ==> r[k] == ids[k];
    assert r[i] == id;
    assert forall k :: i < k < |r| ==> r[k] == ids[k - 1];
    assert forall k :: i <= k < |ids| ==> m[ids[k]].fee <= m[id].fee;
  }

  class Mempool {
    var transactions: map<Hash, Waiting>

    constructor ()
      ensures transactions == map[]
    {
      transactions := map[];
    }

    method NewTransaction(tx: Transaction) returns (ok: bool)
      modifies this
      ensures ok == (tx.id !in old(transactions))
      ensures transactions == if ok then old(transactions)[tx.id := Waiting(tx, 0)] else old(transactions)
      ensures old(Keyed(transactions)) ==> Keyed(transactions)
    {
      ok := NewTransactionWithFee(tx, 0);
    }

    method NewTransactionWithFee(tx: Transaction, fee: u64) returns (ok: bool)
      modifies this
      ensures ok == (tx.id !in old(transactions))
      ensures transactions == if ok then old(transactions)[tx.id := Waiting(tx, fee)] else old(transactions)
      ensures old(Keyed(transactions)) ==> Keyed(transactions)
    {
      if tx.id in transactions {
        return false;
      }
      transactions := transactions[tx.id := Waiting(tx, fee)];
      ok := true;
    }

    method DelTx(id: Hash)
      modifies this
      ensures transactions == old(transactions) - {id}
      ensures old(Keyed(transactions)) ==> Keyed(transactions)
    {
      transactions := transactions - {id};
    }

    method GetTxs() returns (txs: seq<Transaction>)
      requires Keyed(transactions)
      ensures Candidates(transactions, txs)
    {
      var ids: seq<Hash> := [];
      var todo := transactions.Keys;
      while todo != {}
        invariant todo <= transactions.Keys
        invariant NoDup(ids) && Elems(ids) == transactions.Keys - todo
        invariant (forall i :: 0 <= i < |ids| ==> ids[i] in transactions) && ByFee(transactions, ids)
        decreases todo
      {
        var id := Pick(todo);
        assert id !in Elems(ids);
        ids := InsertByFee(transactions, ids, id);
        todo := todo - {id};
      }
      NoDupCard(ids);
      txs := [];
      for i := 0 to |ids|
        invariant |txs| == i && forall k :: 0 <= k < i ==> txs[k] == transactions[ids[k]].tx
      {
        txs := txs + [transactions[ids[i]].tx];
      }
      FirstAreCandidates(transactions, ids, txs);
      if |txs| > MAX_TXS_PER_BLOCK {
        txs := txs[..MAX_TXS_PER_BLOCK];
      }
    }
  }

  /** The transactions are those of the first ids. */
  predicate TxsOf(m: map<Hash, Waiting>, ids: seq<Hash>, txs: seq<Transaction>) {
    |txs| <= |ids| && forall k :: 0 <= k < |txs| ==> ids[k] in m && txs[k] == m[ids[k]].tx && txs[k].id == ids[k]
  }

  lemma CutTxs(m: map<Hash, Waiting>, ids: seq<Hash>, txs: seq<Transaction>, n: nat)
    requires TxsOf(m, ids, txs) && n <= |txs|
    ensures TxsOf(m, ids, txs[..n]) && Ids(txs[..n]) == ids[..n]
  {
  }

  lemma NoneLeftPaysMore(m: map<Hash, Waiting>, ids: seq<Hash>, n: nat, i: nat, id: Hash)
    requires Elems(ids) == m.Keys && (forall k :: 0 <= k < |ids| ==> ids[k] in m) && ByFee(m, ids)
    requires i < n <= |ids| && id in m && id !in ids[..n]
    ensures m[ids[i]].fee >= m[id].fee
  {
    assert forall k :: 0 <= k < n ==> ids[..n][k] == ids[k];
    assert id in Elems(ids);
    var k :| 0 <= k < |ids| && ids[k] == id;
  }

  lemma CutAreCandidates(m: map<Hash, Waiting>, ids: seq<Hash>, cut: seq<Transaction>)
    requires NoDup(ids) && Elems(ids) == m.Keys && |ids| == |m|
    requires (forall k :: 0 <= k < |ids| ==> ids[k] in m) && ByFee(m, ids)
    requires TxsOf(m, ids, cut) && Ids(cut) == ids[..|cut|]
    requires |cut| == if |m| <= MAX_TXS_PER_BLOCK then |m| else MAX_TXS_PER_BLOCK
    ensures Candidates(m, cut)
  {
    forall i, id | 0 <= i < |cut| && id in m && id !in Ids(cut)
      ensures m[cut[i].id].fee >= m[id].fee
    {
      NoneLeftPaysMore(m, ids, |cut|, i, id);
    }
  }

  lemma FirstAreCandidates(m: map<Hash, Waiting>, ids: seq<Hash>, txs: seq<Transaction>)
    requires Keyed(m) && NoDup(ids) && Elems(ids) == m.Keys && |ids| == |m| == |txs|
    requires (forall i :: 0 <= i < |ids| ==> ids[i] in m) && ByFee(m, ids)
    requires forall k :: 0 <= k < |ids| ==> txs[k] == m[ids[k]].tx
    ensures Candidates(m, if |txs| > MAX_TXS_PER_BLOCK then txs[..MAX_TXS_PER_BLOCK] else txs)
  {
    var n := if |txs| > MAX_TXS_PER_BLOCK then MAX_TXS_PER_BLOCK else |txs|;
    CutTxs(m, ids, txs, n);
    CutAreCandidates(m, ids, txs[..n]);
    assert txs[..|txs|] == txs;
  }
}
