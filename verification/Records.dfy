/** The heights that UTXO records carry: core/utxo.go over whole runs. */
module Records {
  import opened Basics
  import opened Types
  import opened Ledger
  import opened Validation
  import opened Replay

  function AllAt(keys: set<OutPoint>, height: u64): map<OutPoint, u64> { map p | p in keys :: height }

  /** The height of the block that placed each output. */
  function MadeAt(genesis: Block, steps: seq<Step>): map<OutPoint, u64> {
    if steps == [] then AllAt(OutMap(Places(genesis.txs)).Keys, genesis.header.height) else
    var blk := steps[|steps| - 1].block;
    MadeAt(genesis, steps[..|steps| - 1]) + AllAt(OutMap(Places(blk.txs)).Keys, blk.header.height)
  }

  /** The height of the block that consumed each output that was. */
  function SpentAt(steps: seq<Step>): map<OutPoint, u64> {
    if steps == [] then map[] else
    var blk := steps[|steps| - 1].block;
    SpentAt(steps[..|steps| - 1]) + AllAt(Elems(Spends(blk.txs)), blk.header.height)
  }

  /** Each record carries the two heights, and 0 for the second while it is unspent. */
  ghost predicate Dated(utxos: map<OutPoint, Utxo>, made: map<OutPoint, u64>, spent: map<OutPoint, u64>) {
    && utxos.Keys == made.Keys && spent.Keys <= made.Keys
    && forall p :: p in utxos ==>
         utxos[p].height == made[p] && utxos[p].spentHeight == (if p in spent then spent[p] else 0)
  }

  lemma DatedStep(utxos: map<OutPoint, Utxo>, made: map<OutPoint, u64>, spent: map<OutPoint, u64>, height: u64,
                  gone: seq<OutPoint>, ps: seq<Placed>)
    requires Dated(utxos, made, spent) && Elems(gone) <= utxos.Keys && OutMap(ps).Keys !! utxos.Keys
    ensures Dated(MarkSpent(utxos, height, gone) + NewUtxos(ps, height), made + AllAt(OutMap(ps).Keys, height),
                  spent + AllAt(Elems(gone), height))
  {
    var marked, new' := MarkSpent(utxos, height, gone), NewUtxos(ps, height);
    assert marked.Keys == utxos.Keys && new'.Keys == OutMap(ps).Keys;
    assert forall p :: p in gone <==> p in Elems(gone);
  }

  lemma BlockDated(cfg: Config, c: Chain, txs: seq<Transaction>, s: Step, c': Chain, made: map<OutPoint, u64>,
                   spent: map<OutPoint, u64>)
    requires RunInv(c.store, txs) && FreshPayouts(txs, s.block.txs) && Dated(c.store.utxos, made, spent)
    requires s.block.header.height > 0 && BlockOk(cfg, c.store, s.block, s.ctx) && AddBlock(c, s.block) == Some(c')
    ensures var h, bt := s.block.header.height, s.block.txs;
      Dated(c'.store.utxos, made + AllAt(OutMap(Places(bt)).Keys, h), spent + AllAt(Elems(Spends(bt)), h))
  {
    AddedRecords(c, s.block, c');
    AcceptedAreNew(cfg, c.store, txs, s.block.txs);
    SpendablesStored(c.store, Spends(s.block.txs));
    DatedStep(c.store.utxos, made, spent, s.block.header.height, Spends(s.block.txs), Places(s.block.txs));
  }

  lemma GenesisDated(genesis: Block, c: Chain)
    requires GenesisShape(genesis) && AddBlock(NO_CHAIN, genesis) == Some(c)
    ensures Dated(c.store.utxos, MadeAt(genesis, []), SpentAt([]))
  {
    AddedRecords(NO_CHAIN, genesis, c);
    DatedStep(map[], map[], map[], 0, [], Places(genesis.txs));
    assert AllAt(Elems([]), 0) == map[];
  }

  /** After any run every record carries the height of the block that placed it and, once spent, of
      the block that spent it. */
  lemma {:induction false} HeightsRecorded(cfg: Config, genesis: Block, steps: seq<Step>, c: Chain)
    requires GenesisShape(genesis) && NewIds(genesis, steps) && Play(cfg, genesis, steps) == Some(c)
    ensures Dated(c.store.utxos, MadeAt(genesis, steps), SpentAt(steps))
    decreases |steps|
  {
    if steps == [] {
      GenesisDated(genesis, c);
    } else {
      var init, s := steps[..|steps| - 1], steps[|steps| - 1];
      var before := Play(cfg, genesis, init).value;
      HeightsRecorded(cfg, genesis, init, before);
      RunsAgree(cfg, genesis, init, before);
      BlockDated(cfg, before, History(genesis, init), s, c, MadeAt(genesis, init), SpentAt(init));
    }
  }
}
