/** Who may spend: over whole runs, every input consumes an output under its owner's key and
    signature, and every transaction keeps the rules of core/validate.go as the replay sees them. */
module Spending {
  import opened Basics
  import opened Types
  import opened Ledger
  import opened Validation
  import opened Replay

  /** The input consumes an output that `before` has placed, under a key from which the owner's address
      derives, with a signature by that key on the transaction id. */
  predicate Authorised(cfg: Config, before: seq<Transaction>, id: Hash, input: TxInput) {
    var p := OutPoint(input.txId, input.index);
    && p in OutMap(Places(before)) && |input.publicKey| != 0
    && cfg.addressOf(input.publicKey) == Some(OutMap(Places(before))[p].address)
    && cfg.verify(input.publicKey, id, input.signature)
  }

  /** The value that the replay has at the given keys. */
  function Worth(made: map<OutPoint, TxOutput>, ps: seq<OutPoint>): nat {
    if ps == [] then 0 else
    Worth(made, ps[..|ps| - 1]) + if ps[|ps| - 1] in made then made[ps[|ps| - 1]].amount else 0
  }

  /** What a transaction after genesis satisfies, in terms of the transactions before its block. */
  predicate Lawful(cfg: Config, before: seq<Transaction>, tx: Transaction) {
    && tx.id == TxHash(tx.version, tx.networkId, tx.timestamp,
                       seq(|tx.inputs|, i requires 0 <= i < |tx.inputs| => tx.inputs[i].Unsigned()),
                       tx.outputs, tx.memo, tx.data)
    && tx.networkId == cfg.networkId
    && (cfg.maxMemo > 0 ==> |tx.memo| <= cfg.maxMemo) && (cfg.maxData > 0 ==> |tx.data| <= cfg.maxData)
    && (forall i :: 0 <= i < |tx.inputs| ==> Authorised(cfg, before, tx.id, tx.inputs[i]))
    && (forall i :: 0 <= i < |tx.inputs| ==> tx.inputs[i].Point() !in Spends(before))
    && (tx.inputs == [] ==> tx.outputs != [] && Wrap(SumOut(tx.outputs)) > 0)
    && (tx.inputs != [] ==>
          Wrap(Worth(OutMap(Places(before)), tx.Points())) >= Wrap(SumOut(tx.outputs)) + cfg.minFee)
  }

  ghost predicate AllLawful(cfg: Config, before: seq<Transaction>, bt: seq<Transaction>) {
    forall i :: 0 <= i < |bt| ==> Lawful(cfg, before, bt[i])
  }

  lemma {:induction false} WorthIsSum(st: Store, made: map<OutPoint, TxOutput>, gone: set<OutPoint>, ps: seq<OutPoint>)
    requires RecordsAre(st.utxos, made, gone)
    ensures Worth(made, ps) == SumIn(st, ps)
  {
    if ps != [] {
      WorthIsSum(st, made, gone, ps[..|ps| - 1]);
    }
  }

  lemma AcceptedAuthorised(cfg: Config, st: Store, before: seq<Transaction>, tx: Transaction, i: nat)
    requires RecordsAre(st.utxos, OutMap(Places(before)), Elems(Spends(before)))
    requires i < |tx.inputs| && InputUnspent(st, tx.inputs[i].Point()) && InputOwned(cfg, st, tx.id, tx.inputs[i])
    ensures Authorised(cfg, before, tx.id, tx.inputs[i]) && tx.inputs[i].Point() !in Spends(before)
  {
    assert tx.inputs[i].Point() !in Elems(Spends(before));
  }

  /** In a store that agrees with the replay, an accepted transaction is lawful. */
  lemma AcceptedIsLawful(cfg: Config, st: Store, before: seq<Transaction>, tx: Transaction)
    requires RecordsAre(st.utxos, OutMap(Places(before)), Elems(Spends(before))) && TxOk(cfg, st, tx)
    ensures Lawful(cfg, before, tx)
  {
    WorthIsSum(st, OutMap(Places(before)), Elems(Spends(before)), tx.Points());
    forall i | 0 <= i < |tx.inputs|
      ensures Authorised(cfg, before, tx.id, tx.inputs[i]) && tx.inputs[i].Point() !in Spends(before)
    {
      AcceptedAuthorised(cfg, st, before, tx, i);
    }
  }

  // ------------------------------------------------------------------ over runs

  /** Every block of the run is lawful on what came before it. */
  ghost predicate LawfulRun(cfg: Config, genesis: Block, steps: seq<Step>) {
    steps == [] ||
    (var n := |steps| - 1;
     LawfulRun(cfg, genesis, steps[..n]) && AllLawful(cfg, History(genesis, steps[..n]), steps[n].block.txs))
  }

  lemma AcceptedBlockLawful(cfg: Config, st: Store, before: seq<Transaction>, blk: Block, ctx: Context)
    requires RunInv(st, before) && blk.header.height > 0 && BlockOk(cfg, st, blk, ctx)
    ensures AllLawful(cfg, before, blk.txs)
  {
    forall i | 0 <= i < |blk.txs| ensures Lawful(cfg, before, blk.txs[i]) {
      assert TxOk(cfg, st, blk.txs[i]);
      AcceptedIsLawful(cfg, st, before, blk.txs[i]);
    }
  }

  /** Over any run of accepted blocks every transaction after genesis is lawful: its inputs consume
      outputs placed before its block and not consumed since, each under its owner's signature. */
  lemma {:induction false} RunsAreLawful(cfg: Config, genesis: Block, steps: seq<Step>, c: Chain)
    requires GenesisShape(genesis) && NewIds(genesis, steps) && Play(cfg, genesis, steps) == Some(c)
    ensures LawfulRun(cfg, genesis, steps)
    decreases |steps|
  {
    if steps != [] {
      var n := |steps| - 1;
      var before := Play(cfg, genesis, steps[..n]).value;
      RunsAreLawful(cfg, genesis, steps[..n], before);
      RunsAgree(cfg, genesis, steps[..n], before);
      AcceptedBlockLawful(cfg, before.store, History(genesis, steps[..n]), steps[n].block, steps[n].ctx);
    }
  }

  /** An output leaves the live outputs of an address only with a block that consumes it under a key
      of that address and a signature by that key. */
  lemma LeavesUnderOwnersKey(cfg: Config, genesis: Block, steps: seq<Step>, c: Chain, a: Address, p: OutPoint)
    returns (tx: Transaction, i: nat)
    requires steps != [] && GenesisShape(genesis) && NewIds(genesis, steps) && Play(cfg, genesis, steps) == Some(c)
    requires p in LiveTo(History(genesis, steps[..|steps| - 1]), a) && p !in LiveTo(History(genesis, steps), a)
    ensures tx in steps[|steps| - 1].block.txs && i < |tx.inputs| && tx.inputs[i].Point() == p
    ensures cfg.addressOf(tx.inputs[i].publicKey) == Some(a)
    ensures cfg.verify(tx.inputs[i].publicKey, tx.id, tx.inputs[i].signature)
  {
    var n := |steps| - 1;
    var txs, bt := History(genesis, steps[..n]), steps[n].block.txs;
    RunsAreLawful(cfg, genesis, steps, c);
    RunsAgree(cfg, genesis, steps, c);
    ConsumedByBlock(txs, bt, a, p);
    var k, j := SpendsCome(bt, p);
    assert Lawful(cfg, txs, bt[k]);
    tx, i := bt[k], j;
  }

  lemma LiveAt(txs: seq<Transaction>, a: Address, p: OutPoint)
    ensures p in LiveTo(txs, a) <==>
      p in OutMap(Places(txs)) && p !in Spends(txs) && OutMap(Places(txs))[p].address == a
    ensures p in LiveTo(txs, a) ==> LiveTo(txs, a)[p] == OutMap(Places(txs))[p]
  {
    assert p in Elems(Spends(txs)) <==> p in Spends(txs);
  }

  /** New ids place no output over an old one. */
  lemma {:induction false} NotPlacedAgain(txs: seq<Transaction>, bt: seq<Transaction>, p: OutPoint)
    requires NoDup(Ids(txs + bt)) && p in OutMap(Places(txs))
    ensures p !in OutMap(Places(bt))
  {
    KeysHaveIds(txs, p);
    assert Ids(txs + bt) == Ids(txs) + Ids(bt);
    NoDupConcat(Ids(txs), Ids(bt));
    if p in OutMap(Places(bt)) {
      KeysHaveIds(bt, p);
    }
  }

  /** What was live and is no longer was spent by the new transactions. */
  lemma {:induction false} ConsumedByBlock(txs: seq<Transaction>, bt: seq<Transaction>, a: Address, p: OutPoint)
    requires NoDup(Ids(txs + bt)) && p in LiveTo(txs, a) && p !in LiveTo(txs + bt, a)
    ensures p in Spends(bt) && p in OutMap(Places(txs)) && OutMap(Places(txs))[p].address == a
  {
    LiveAt(txs, a, p);
    LiveAt(txs + bt, a, p);
    NotPlacedAgain(txs, bt, p);
    PlacesConcat(txs, bt);
    OutMapConcat(Places(txs), Places(bt));
    SpendsConcat(txs, bt);
  }

  /** A block with a transaction one of whose signatures does not verify is never added by a run. */
  lemma BadSignatureRefused(cfg: Config, genesis: Block, steps: seq<Step>, k: nat, i: nat)
    requires steps != [] && k < |steps[|steps| - 1].block.txs| && i < |steps[|steps| - 1].block.txs[k].inputs|
    requires var tx := steps[|steps| - 1].block.txs[k];
      !cfg.verify(tx.inputs[i].publicKey, tx.id, tx.inputs[i].signature)
    ensures Play(cfg, genesis, steps) == None
  {
    var blk := steps[|steps| - 1].block;
    var before := Play(cfg, genesis, steps[..|steps| - 1]);
    if before.Some? {
      BadSignatureNotOk(cfg, before.value.store, blk.txs, k, i);
    }
  }

  lemma BadSignatureNotOk(cfg: Config, st: Store, txs: seq<Transaction>, k: nat, i: nat)
    requires k < |txs| && i < |txs[k].inputs|
    requires !cfg.verify(txs[k].inputs[i].publicKey, txs[k].id, txs[k].inputs[i].signature)
    ensures !TxsOk(cfg, st, txs)
  {
    assert !InputOwned(cfg, st, txs[k].id, txs[k].inputs[i]);
    assert !TxOk(cfg, st, txs[k]);
  }
}
