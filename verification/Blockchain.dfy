/** The chain object: core/utxo.go, core/validate.go and core/block.go over one database and one
    mempool. Every method is proved against the functions that the theorems are about. */
module Blockchain {
  import opened Basics
  import opened Types
  import opened Merkle
  import opened Quorum
  import opened Ledger
  import opened Validation
  import opened Replay
  import opened Assembly
  import opened Pool

  // ------------------------------------------------------------------ batches against the block update

  ghost predicate AllSpendable(st: Store, ps: seq<OutPoint>) { forall i :: 0 <= i < |ps| ==> Spendable(st, ps[i]) }

  /** The batch after spending `done`. */
  ghost predicate Consuming(st: Store, batch: Batch, base: Store, height: u64, done: seq<OutPoint>) {
    && AllSpendable(st, done)
    && Write(st, batch) == base.(utxos := MarkSpent(st.utxos, height, done), lists := DropSpent(st, done))
  }

  lemma NoneYet<T>(s: seq<T>, t: seq<T>)
    ensures s + t[..0] == s && t[..|t|] == t
  {
  }

  lemma OneMore<T>(s: seq<T>, t: seq<T>, j: nat)
    requires j < |t|
    ensures s + t[..j] + [t[j]] == s + t[..j + 1]
  {
  }

  lemma LastPart(st: Store, s: seq<OutPoint>, t: seq<OutPoint>)
    requires AllSpendable(st, s + t)
    ensures AllSpendable(st, t)
  {
    assert forall j :: 0 <= j < |t| ==> (s + t)[|s| + j] == t[j];
  }

  lemma SpendOne(st: Store, height: u64, done: seq<OutPoint>, p: OutPoint)
    requires AllSpendable(st, done) && Spendable(st, p)
    ensures MarkSpent(st.utxos, height, done + [p])
         == MarkSpent(st.utxos, height, done)[p := st.utxos[p].(spent := true, spentHeight := height)]
    ensures AllSpendable(st, done + [p])
    ensures DropSpent(st, done + [p])
         == DropSpent(st, done)[st.utxos[p].txOut.address := st.lists[st.utxos[p].txOut.address] - {p}]
  {
    assert (done + [p])[..|done|] == done;
    assert forall q :: q in done + [p] <==> q in done || q == p;
  }

  lemma SpendNext(st: Store, batch: Batch, base: Store, height: u64, done: seq<OutPoint>, p: OutPoint)
    requires Consuming(st, batch, base, height, done) && Spendable(st, p)
    ensures var u := st.utxos[p];
      Consuming(st, Then(Then(batch, PutUtxo(p, u.(spent := true, spentHeight := height))),
                        PutList(u.txOut.address, st.lists[u.txOut.address] - {p})), base, height, done + [p])
  {
    SpendOne(st, height, done, p);
  }

  function Held(m: map<Address, set<OutPoint>>, st: Store, a: Address): set<OutPoint> {
    if a in m then m[a] else ListOf(st, a)
  }

  lemma PlaceRecord(height: u64, ps: seq<Placed>, q: Placed)
    ensures NewUtxos(ps + [q], height) == NewUtxos(ps, height)[q.point := Unspent(q.point, q.out, height)]
  {
    assert (ps + [q])[..|ps|] == ps;
    assert OutMap(ps + [q]) == OutMap(ps)[q.point := q.out];
  }

  lemma PaidSnoc(ps: seq<Placed>, q: Placed, a: Address)
    ensures PaidTo(ps + [q], a) == if a == q.out.address then PaidTo(ps, a) + {q.point} else PaidTo(ps, a)
    ensures a in Payees(ps + [q]) <==> a in Payees(ps) || a == q.out.address
    ensures a !in Payees(ps) ==> PaidTo(ps, a) == {}
  {
    assert forall x :: x in ps + [q] <==> x in ps || x == q;
  }

  lemma PlaceListed(st: Store, ps: seq<Placed>, q: Placed)
    ensures ListPaid(st, ps + [q])
      == ListPaid(st, ps)[q.out.address := Held(ListPaid(st, ps), st, q.out.address) + {q.point}]
  {
    var lhs := ListPaid(st, ps + [q]);
    var rhs := ListPaid(st, ps)[q.out.address := Held(ListPaid(st, ps), st, q.out.address) + {q.point}];
    forall a ensures (a in lhs <==> a in rhs) && (a in lhs ==> lhs[a] == rhs[a]) {
      PaidSnoc(ps, q, a);
    }
  }

  /** The batch and the lists in memory after placing `ps`. */
  ghost predicate Placing(st: Store, batch: Batch, m: map<Address, set<OutPoint>>, base: Store,
                          marked: map<OutPoint, Utxo>, height: u64, ps: seq<Placed>)
  {
    Write(st, batch) == base.(utxos := marked + NewUtxos(ps, height)) && m == ListPaid(st, ps)
  }

  lemma PlaceNext(st: Store, batch: Batch, m: map<Address, set<OutPoint>>, base: Store,
                  marked: map<OutPoint, Utxo>, height: u64, ps: seq<Placed>, q: Placed)
    requires Placing(st, batch, m, base, marked, height, ps)
    ensures Placing(st, Then(batch, PutUtxo(q.point, Unspent(q.point, q.out, height))),
                    m[q.out.address := Held(m, st, q.out.address) + {q.point}], base, marked, height, ps + [q])
  {
    PlaceRecord(height, ps, q);
    PlaceListed(st, ps, q);
    InsertLast(marked, NewUtxos(ps, height), q.point, Unspent(q.point, q.out, height));
  }

  lemma InsertLast<K, V>(m: map<K, V>, n: map<K, V>, k: K, v: V)
    ensures (m + n)[k := v] == m + n[k := v]
  {
  }

  /** The amounts of the unspent entries of a listing. */
  function SumUnspent(list: seq<Utxo>): nat {
    if list == [] then 0 else
    SumUnspent(list[..|list| - 1]) + (if list[|list| - 1].spent then 0 else list[|list| - 1].txOut.amount)
  }

  method CalBalanceUtxo(utxos: seq<Utxo>) returns (amount: u64)
    ensures amount == Wrap(SumUnspent(utxos))
  {
    amount := 0;
    for i := 0 to |utxos|
      invariant amount == Wrap(SumUnspent(utxos[..i]))
    {
      assert utxos[..i + 1][..i] == utxos[..i];
      if !utxos[i].spent {
        WrapAdd(SumUnspent(utxos[..i]), utxos[i].txOut.amount);
        amount := Wrap(amount + utxos[i].txOut.amount);
      }
    }
    assert utxos[..|utxos|] == utxos;
  }

  lemma AmountsWithout(m: map<OutPoint, TxOutput>, p: OutPoint)
    requires p in m
    ensures MapSum(AmountsOf(m)) == m[p].amount + MapSum(AmountsOf(m - {p}))
  {
    MapSumRemove(AmountsOf(m), p);
    assert AmountsOf(m) - {p} == AmountsOf(m - {p});
  }

  /** The exact value of a listing is the value of the outputs it lists. */
  lemma {:induction false} ListedValue(m: map<OutPoint, TxOutput>, keys: seq<OutPoint>, list: seq<Utxo>)
    requires NoDup(keys) && Elems(keys) == m.Keys && |list| == |keys|
    requires forall i :: 0 <= i < |keys| ==> keys[i] in m && list[i].txOut == m[keys[i]] && !list[i].spent
    ensures SumUnspent(list) == MapSum(AmountsOf(m))
  {
    if keys == [] {
      assert AmountsOf(m) == map[];
    } else {
      var n := |keys| - 1;
      var init, p := keys[..n], keys[n];
      assert keys == init + [p];
      NoDupSnoc(init, p);
      ElemsConcat(init, [p]);
      assert (m - {p}).Keys == Elems(init);
      ListedValue(m - {p}, init, list[..n]);
      AmountsWithout(m, p);
    }
  }

  /** The balance of an address, read through the index after any run of accepted blocks, is the
      value of the outputs that the replay leaves it, modulo 2^64. */
  lemma BalanceIsReplay(cfg: Config, genesis: Block, steps: seq<Step>, c: Chain, a: Address,
                        keys: seq<OutPoint>, list: seq<Utxo>)
    requires GenesisShape(genesis) && NewIds(genesis, steps) && Play(cfg, genesis, steps) == Some(c)
    requires Listing(c.store, {}, a, keys, list)
    ensures SumUnspent(list) == MapSum(AmountsOf(LiveTo(History(genesis, steps), a)))
  {
    IndexAgreesWithReplay(cfg, genesis, steps, c, a, keys, list);
    ListedValue(LiveTo(History(genesis, steps), a), keys, list);
  }

  // ------------------------------------------------------------------ the object

  class BlockChain {
    const cfg: Config
    const mempool: Mempool
    var db: Store
    var latestHeight: u64
    var latestHash: Option<Hash>

    function Value(): Chain reads this { Chain(db, latestHeight, latestHash) }

    constructor (cfg: Config)
      ensures this.cfg == cfg && Value() == NO_CHAIN && fresh(mempool) && mempool.transactions == map[]
    {
      this.cfg := cfg;
      mempool := new Mempool();
      db, latestHeight, latestHash := EMPTY, 0, None;
    }

    // -------------------------------------------------------------- UpdateUtxo

    method SpendInput(batch: Batch, height: u64, key: OutPoint, ghost base: Store, ghost done: seq<OutPoint>)
      returns (ok: bool, out: Batch)
      requires Consuming(db, batch, base, height, done)
      ensures ok == Spendable(db, key)
      ensures ok ==> Consuming(db, out, base, height, done + [key])
    {
      if key !in db.utxos {
        return false, batch;
      }
      var utxo := db.utxos[key];
      if utxo.spent {
        return false, batch;
      }
      out := Then(batch, PutUtxo(key, utxo.(spent := true, spentHeight := height)));
      if utxo.txOut.address !in db.lists {
        return false, out;
      }
      var utxoList := db.lists[utxo.txOut.address] - {key};
      out := Then(out, PutList(utxo.txOut.address, utxoList));
      SpendNext(db, batch, base, height, done, key);
      ok := true;
    }

    method SpendInputs(batch: Batch, height: u64, tx: Transaction, ghost base: Store, ghost done: seq<OutPoint>)
      returns (ok: bool, out: Batch)
      requires Consuming(db, batch, base, height, done)
      ensures ok == AllSpendable(db, tx.Points())
      ensures ok ==> Consuming(db, out, base, height, done + tx.Points())
    {
      out := batch;
      ghost var ps := tx.Points();
      NoneYet(done, ps);
      for j := 0 to |tx.inputs|
        invariant Consuming(db, out, base, height, done + ps[..j])
      {
        OneMore(done, ps, j);
        assert tx.inputs[j].Point() == ps[j];
        ok, out := SpendInput(out, height, tx.inputs[j].Point(), base, done + ps[..j]);
        if !ok {
          return;
        }
      }
      LastPart(db, done, ps);
      ok := true;
    }

    method SpendAll(batch: Batch, height: u64, txs: seq<Transaction>)
      returns (ok: bool, out: Batch)
      requires Write(db, batch).utxos == db.utxos && Write(db, batch).lists == db.lists
      ensures ok == Applicable(db, height, txs)
      ensures ok ==> Write(db, out) == Write(db, batch).(utxos := MarkSpent(db.utxos, height, SpentIn(height, txs)),
                                                         lists := DropSpent(db, SpentIn(height, txs)))
    {
      out := batch;
      ghost var base := Write(db, batch);
      assert MarkSpent(db.utxos, height, []) == db.utxos;
      for i := 0 to |txs|
        invariant Consuming(db, out, base, height, SpentIn(height, txs[..i]))
      {
        assert txs[..i + 1][..i] == txs[..i];
        if height > 0 {
          ok, out := SpendInputs(out, height, txs[i], base, Spends(txs[..i]));
          if !ok {
            StillUnspendable(db, height, txs, i);
            return;
          }
        }
      }
      assert txs[..|txs|] == txs;
      ok := true;
    }

    method PlaceOutput(batch: Batch, height: u64, q: Placed, m: map<Address, set<OutPoint>>,
                       ghost base: Store, ghost marked: map<OutPoint, Utxo>, ghost ps: seq<Placed>)
      returns (out: Batch, m': map<Address, set<OutPoint>>)
      requires Placing(db, batch, m, base, marked, height, ps)
      ensures Placing(db, out, m', base, marked, height, ps + [q])
    {
      var utxoList;
      if q.out.address in m {
        utxoList := m[q.out.address];
      } else if q.out.address in db.lists {
        utxoList := db.lists[q.out.address];
      } else {
        utxoList := {};
      }
      PlaceNext(db, batch, m, base, marked, height, ps, q);
      out := Then(batch, PutUtxo(q.point, Utxo(q.point.txId, q.point.index, q.out, height, false, 0)));
      m' := m[q.out.address := utxoList + {q.point}];
    }

    method PlaceOutputs(batch: Batch, height: u64, tx: Transaction, m: map<Address, set<OutPoint>>,
                        ghost base: Store, ghost marked: map<OutPoint, Utxo>, ghost ps: seq<Placed>)
      returns (out: Batch, m': map<Address, set<OutPoint>>)
      requires Placing(db, batch, m, base, marked, height, ps)
      ensures Placing(db, out, m', base, marked, height, ps + PlacedBy(tx))
    {
      out, m' := batch, m;
      ghost var qs := PlacedBy(tx);
      NoneYet(ps, qs);
      for j := 0 to |tx.outputs|
        invariant Placing(db, out, m', base, marked, height, ps + qs[..j])
      {
        OneMore(ps, qs, j);
        out, m' := PlaceOutput(out, height, Placed(OutPoint(tx.id, j), tx.outputs[j]), m', base, marked, ps + qs[..j]);
      }
    }

    method PlaceAll(batch: Batch, height: u64, txs: seq<Transaction>)
      returns (out: Batch, m: map<Address, set<OutPoint>>)
      ensures Placing(db, out, m, Write(db, batch), Write(db, batch).utxos, height, Places(txs))
    {
      out, m := batch, map[];
      ghost var base := Write(db, batch);
      assert base.utxos + NewUtxos([], height) == base.utxos;
      for i := 0 to |txs|
        invariant Placing(db, out, m, base, base.utxos, height, Places(txs[..i]))
      {
        assert txs[..i + 1][..i] == txs[..i];
        out, m := PlaceOutputs(out, height, txs[i], m, base, base.utxos, Places(txs[..i]));
      }
      assert txs[..|txs|] == txs;
    }

    /** The lists go into the batch in whatever order the map iteration visits them. */
    method SaveLists(batch: Batch, m: map<Address, set<OutPoint>>) returns (out: Batch)
      ensures Write(db, out) == Write(db, batch).(lists := Write(db, batch).lists + m)
    {
      out := batch;
      ghost var lists := Write(db, batch).lists;
      var todo := m.Keys;
      assert lists + (m - todo) == lists;
      while todo != {}
        invariant todo <= m.Keys
        invariant Write(db, out) == Write(db, batch).(lists := lists + (m - todo))
        decreases todo
      {
        var a := Pick(todo);
        out := Then(out, PutList(a, m[a]));
        assert (lists + (m - todo))[a := m[a]] == lists + (m - (todo - {a}));
        todo := todo - {a};
      }
      assert m - todo == m;
    }

    method UpdateUtxo(batch: Batch, blk: Block) returns (ok: bool, out: Batch)
      requires Write(db, batch).utxos == db.utxos && Write(db, batch).lists == db.lists
      ensures ok == Applicable(db, blk.header.height, blk.txs)
      ensures ok ==> var after := Applied(db, blk.header.height, blk.txs);
                     Write(db, out) == Write(db, batch).(utxos := after.utxos, lists := after.lists)
    {
      ok, out := SpendAll(batch, blk.header.height, blk.txs);
      if !ok {
        return;
      }
      var m;
      out, m := PlaceAll(out, blk.header.height, blk.txs);
      out := SaveLists(out, m);
    }

    // -------------------------------------------------------------- reading

    method IsOnMempool(txId: Hash, index: nat) returns (b: bool)
      ensures b == (OutPoint(txId, index) in Reserved(mempool.transactions))
    {
      var m := mempool.transactions;
      var todo := m.Keys;
      while todo != {}
        invariant todo <= m.Keys
        invariant forall id, i :: id in m && id !in todo && 0 <= i < |m[id].tx.inputs| ==>
          m[id].tx.inputs[i].Point() != OutPoint(txId, index)
        decreases todo
      {
        var id := Pick(todo);
        var inputs := m[id].tx.inputs;
        for i := 0 to |inputs|
          invariant forall k :: 0 <= k < i ==> inputs[k].Point() != OutPoint(txId, index)
        {
          if inputs[i].index == index && inputs[i].txId == txId {
            assert m[id].tx.inputs[i].Point() == OutPoint(txId, index);
            return true;
          }
        }
        todo := todo - {id};
      }
      b := false;
    }

    /** Fails when the address has no list or its list names a record that is not stored. */
    method GetUtxoList(a: Address, mempoolCheck: bool) returns (list: Option<seq<Utxo>>, ghost keys: seq<OutPoint>)
      ensures list.Some? <==> Readable(db, a)
      ensures list.Some? ==>
        Listing(db, if mempoolCheck then Reserved(mempool.transactions) else {}, a, keys, list.value)
    {
      keys := [];
      if a !in db.lists {
        return None, keys;
      }
      ghost var reserved := if mempoolCheck then Reserved(mempool.transactions) else {};
      var result: seq<Utxo> := [];
      var todo := db.lists[a];
      while todo != {}
        invariant todo <= db.lists[a] && forall p :: p in db.lists[a] - todo ==> p in db.utxos
        invariant Listing(db.(lists := db.lists[a := db.lists[a] - todo]), reserved, a, keys, result)
        decreases todo
      {
        var key := Pick(todo);
        if key !in db.utxos {
          return None, keys;
        }
        var utxo := db.utxos[key];
        todo := todo - {key};
        if utxo.spent {
          continue;
        }
        if mempoolCheck {
          var claimed := IsOnMempool(utxo.txId, utxo.index);
          if claimed {
            continue;
          }
        }
        NoDupSnoc(keys, key);
        keys := keys + [key];
        result := result + [utxo];
      }
      assert db.lists[a] - todo == db.lists[a];
      list := Some(result);
    }

    // -------------------------------------------------------------- validation

    method SumInputs(tx: Transaction) returns (ok: bool, sum: u64)
      ensures ok == forall i :: 0 <= i < |tx.inputs| ==> InputUnspent(db, tx.inputs[i].Point())
      ensures ok ==> sum == Wrap(SumIn(db, tx.Points()))
    {
      sum := 0;
      ghost var ps := tx.Points();
      for i := 0 to |tx.inputs|
        invariant forall k :: 0 <= k < i ==> InputUnspent(db, tx.inputs[k].Point())
        invariant sum == Wrap(SumIn(db, ps[..i]))
      {
        var key := tx.inputs[i].Point();
        if key !in db.utxos {
          return false, sum;
        }
        if db.utxos[key].spent {
          return false, sum;
        }
        assert ps[..i + 1][..i] == ps[..i];
        WrapAdd(SumIn(db, ps[..i]), db.utxos[key].txOut.amount);
        sum := Wrap(sum + db.utxos[key].txOut.amount);
      }
      assert ps[..|ps|] == ps;
      ok := true;
    }

    method ValidateAllTxSignatures(tx: Transaction) returns (ok: bool)
      ensures ok == forall i :: 0 <= i < |tx.inputs| ==> InputOwned(cfg, db, tx.id, tx.inputs[i])
    {
      for i := 0 to |tx.inputs|
        invariant forall k :: 0 <= k < i ==> InputOwned(cfg, db, tx.id, tx.inputs[k])
      {
        var input := tx.inputs[i];
        if input.Point() !in db.utxos {
          return false;
        }
        if |input.publicKey| == 0 {
          return false;
        }
        if cfg.addressOf(input.publicKey) != Some(db.utxos[input.Point()].txOut.address) {
          return false;
        }
        if !cfg.verify(input.publicKey, tx.id, input.signature) {
          return false;
        }
      }
      ok := true;
    }

    method ValidateTransaction(tx: Transaction) returns (ok: bool)
      ensures ok == TxOk(cfg, db, tx)
    {
      if tx.id != tx.ContentHash() || tx.networkId != cfg.networkId {
        return false;
      }
      if cfg.maxMemo > 0 && |tx.memo| > cfg.maxMemo {
        return false;
      }
      if cfg.maxData > 0 && |tx.data| > cfg.maxData {
        return false;
      }
      var outputSum := SumOutputs(tx.outputs);
      if |tx.inputs| == 0 {
        return |tx.outputs| != 0 && outputSum != 0;
      }
      var found, inputSum := SumInputs(tx);
      if !found || inputSum < outputSum || inputSum - outputSum < cfg.minFee {
        return false;
      }
      ok := ValidateAllTxSignatures(tx);
    }

    method CalculateTxFee(tx: Transaction) returns (fee: Option<u64>)
      ensures fee == FeeOf(db, tx)
    {
      if |tx.inputs| == 0 {
        return Some(0);
      }
      var inputSum: u64 := 0;
      ghost var ps := tx.Points();
      for i := 0 to |tx.inputs|
        invariant forall k :: 0 <= k < i ==> tx.inputs[k].Point() in db.utxos
        invariant inputSum == Wrap(SumIn(db, ps[..i]))
      {
        var key := tx.inputs[i].Point();
        if key !in db.utxos {
          return None;
        }
        assert ps[..i + 1][..i] == ps[..i];
        WrapAdd(SumIn(db, ps[..i]), db.utxos[key].txOut.amount);
        inputSum := Wrap(inputSum + db.utxos[key].txOut.amount);
      }
      assert ps[..|ps|] == ps;
      var outputSum := SumOutputs(tx.outputs);
      if inputSum < outputSum {
        return None;
      }
      fee := Some(inputSum - outputSum);
    }

    method ValidateHeader(blk: Block, now: int) returns (ok: bool)
      requires blk.header.height > 0
      ensures ok == HeaderOk(db, blk, now)
    {
      var root := CalculateMerkleRoot(blk.txs);
      match BlockAt(db, blk.header.height - 1)
      case None => return false;
      case Some(prev) =>
        if blk.header.prevHash != prev.header.hash || blk.header.merkleRoot != root
           || blk.header.hash != blk.header.ContentHash() || blk.header.height != Wrap(prev.header.height + 1) {
          return false;
        }
        ok := prev.header.timestamp <= blk.header.timestamp <= now + MAX_FUTURE_BLOCK_TIME;
    }

    method ValidateSigners(blk: Block, ctx: Context) returns (ok: bool)
      ensures ok == SignersOk(cfg, blk, ctx)
    {
      if blk.proposer == NO_ADDRESS {
        return false;
      }
      if ctx.validators.None? {
        return true;
      }
      if !ProposerOk(cfg, blk, ctx.validators.value) {
        return false;
      }
      if !ctx.checkCommit {
        return true;
      }
      ok := ValidateCommitSignatures(cfg.verify, ctx.validators.value, blk.header.hash, blk.commits);
    }

    method ValidateGenesis(blk: Block) returns (ok: bool)
      ensures ok == GenesisOk(blk)
    {
      var root := CalculateMerkleRoot(blk.txs);
      ok := blk.header.prevHash == ZeroHash && blk.header.merkleRoot == root
        && blk.header.hash == blk.header.ContentHash();
    }

    method ValidateBlock(blk: Block, ctx: Context) returns (ok: bool)
      ensures ok == BlockOk(cfg, db, blk, ctx)
    {
      if blk.header.height == 0 {
        ok := ValidateGenesis(blk);
        return;
      }
      ok := ValidateHeader(blk, ctx.now);
      if ok {
        ok := ValidateSigners(blk, ctx);
      }
      if ok {
        ok := ValidateTxs(blk.txs);
      }
    }

    method ValidateTxs(txs: seq<Transaction>) returns (ok: bool)
      ensures ok == TxsOk(cfg, db, txs)
    {
      if |txs| > MAX_TXS_PER_BLOCK {
        return false;
      }
      ok := ValidateDuplicateTx(txs);
      if !ok {
        return;
      }
      ok := ValidateDuplicateUtxo(txs);
      if !ok {
        return;
      }
      for i := 0 to |txs|
        invariant forall k :: 0 <= k < i ==> TxOk(cfg, db, txs[k])
      {
        ok := ValidateTransaction(txs[i]);
        if !ok {
          return;
        }
      }
      ok := true;
    }

    // -------------------------------------------------------------- blocks

    /** Adds the block whether or not it was validated. Nothing is written when the UTXO update fails. */
    method AddBlock(blk: Block) returns (ok: bool)
      modifies this, mempool
      ensures ok == Replay.AddBlock(old(Value()), blk).Some?
      ensures ok ==> Replay.AddBlock(old(Value()), blk) == Some(Value())
      ensures ok ==> mempool.transactions == old(mempool.transactions) - Elems(Ids(blk.txs))
      ensures !ok ==> Value() == old(Value()) && mempool.transactions == old(mempool.transactions)
    {
      var batch := Then(Then(NoPuts, PutBlock(blk)), PutHeight(blk.header.height, blk.header.hash));
      assert Write(db, Then(NoPuts, PutBlock(blk))) == WriteOne(db, PutBlock(blk));
      ok, batch := UpdateUtxo(batch, blk);
      if !ok {
        return;
      }
      db := Write(db, batch);
      DropTxs(Ids(blk.txs));
      if blk.header.height > latestHeight || blk.header.height == 0 {
        latestHeight, latestHash := blk.header.height, Some(blk.header.hash);
      }
    }

    method PickTxs(cands: seq<Transaction>) returns (k: Picked)
      ensures k == PickAll(cfg, db, cands)
    {
      k := Picked([], {}, 0, []);
      for i := 0 to |cands|
        invariant k == PickAll(cfg, db, cands[..i])
      {
        assert cands[..i + 1][..i] == cands[..i];
        k := ConsiderTx(k, cands[i]);
      }
      assert cands[..|cands|] == cands;
    }

    method DropTxs(ids: seq<Hash>)
      modifies mempool
      ensures mempool.transactions == old(mempool.transactions) - Elems(ids)
    {
      for i := 0 to |ids|
        invariant mempool.transactions == old(mempool.transactions) - Elems(ids[..i])
      {
        assert ids[..i + 1] == ids[..i] + [ids[i]];
        ElemsConcat(ids[..i], [ids[i]]);
        mempool.DelTx(ids[i]);
      }
      assert ids[..|ids|] == ids;
    }

    /** Chooses among `cands`; what does not survive is dropped from the mempool. */
    method SelectTxs(cands: seq<Transaction>) returns (k: Picked)
      modifies mempool
      ensures k == PickAll(cfg, db, cands)
      ensures mempool.transactions == old(mempool.transactions) - Elems(k.dropped)
    {
      k := PickTxs(cands);
      DropTxs(k.dropped);
    }

    method ConsiderTx(k: Picked, tx: Transaction) returns (k': Picked)
      ensures k' == PickNext(cfg, db, k, tx)
    {
      k' := k.(dropped := k.dropped + [tx.id]);
      var valid := ValidateTransaction(tx);
      if !valid {
        return;
      }
      var used := k.used;
      ghost var ps := tx.Points();
      for i := 0 to |tx.inputs|
        invariant used == k.used + Elems(ps[..i])
        invariant forall j :: 0 <= j < i ==> tx.inputs[j].Point() !in k.used
      {
        if tx.inputs[i].Point() in k.used {
          return;
        }
        assert ps[..i + 1] == ps[..i] + [tx.inputs[i].Point()];
        ElemsConcat(ps[..i], [tx.inputs[i].Point()]);
        used := used + {tx.inputs[i].Point()};
      }
      assert ps[..|ps|] == ps;
      var fee := CalculateTxFee(tx);
      if fee.None? {
        return;
      }
      k' := Picked(k.txs + [tx], used, Wrap(k.fees + fee.value), k.dropped);
    }

    method SetBlock(prevHash: Hash, height: u64, proposer: Address, timestamp: int)
      returns (blk: Block, ghost cands: seq<Transaction>)
      requires Keyed(mempool.transactions)
      modifies mempool
      ensures Candidates(old(mempool.transactions), cands)
      ensures blk == Assembly.SetBlock(cfg, db, cands, prevHash, height, proposer, timestamp)
      ensures mempool.transactions == old(mempool.transactions) - Elems(PickAll(cfg, db, cands).dropped)
    {
      var candidateTxs := mempool.GetTxs();
      cands := candidateTxs;
      var k := SelectTxs(candidateTxs);
      var txs := k.txs;
      if proposer != NO_ADDRESS {
        txs := [CoinbaseAt(cfg, proposer, height, k.fees, timestamp)] + txs;
      }
      var root := CalculateMerkleRoot(txs);
      var header := Header(ZeroHash, prevHash, cfg.protocol, height, root, timestamp);
      blk := Block(header.(hash := header.ContentHash()), txs, proposer, NO_SIGNATURE, []);
    }
  }

  lemma StillUnspendable(st: Store, height: u64, txs: seq<Transaction>, i: nat)
    requires height > 0 && i < |txs| && !AllSpendable(st, txs[i].Points())
    ensures !Applicable(st, height, txs)
  {
    var j :| 0 <= j < |txs[i].Points()| && !Spendable(st, txs[i].Points()[j]);
    var p := txs[i].Points()[j];
    SpendsContain(txs, i, j);
    var k :| 0 <= k < |Spends(txs)| && Spends(txs)[k] == p;
    assert SpentIn(height, txs)[k] == p;
  }

  method SumOutputs(outs: seq<TxOutput>) returns (sum: u64)
    ensures sum == Wrap(SumOut(outs))
  {
    sum := 0;
    for i := 0 to |outs|
      invariant sum == Wrap(SumOut(outs[..i]))
    {
      assert outs[..i + 1][..i] == outs[..i];
      WrapAdd(SumOut(outs[..i]), outs[i].amount);
      sum := Wrap(sum + outs[i].amount);
    }
    assert outs[..|outs|] == outs;
  }

  method CalculateMerkleRoot(txs: seq<Transaction>) returns (root: Hash)
    ensures root == MerkleRoot(txs)
  {
    if |txs| == 0 {
      return ZeroHash;
    }
    var hashes: seq<Hash> := [];
    for i := 0 to |txs|
      invariant |hashes| == i && forall k :: 0 <= k < i ==> hashes[k] == txs[k].id
    {
      hashes := hashes + [txs[i].id];
    }
    assert hashes == Ids(txs);
    root := BuildMerkleTree(hashes);
  }
}
