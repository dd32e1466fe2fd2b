/** Whole runs of accepted blocks: `AddBlock` in core/block.go over validated blocks, against a
    replay of the transactions. */
module Replay {
  import opened Basics
  import opened Types
  import opened Ledger
  import opened Validation

  /** The chain as stored: the database and the tip. */
  datatype Chain = Chain(store: Store, tipHeight: u64, tipHash: Option<Hash>)

  const NO_CHAIN: Chain := Chain(EMPTY, 0, None)

  /** Adding a block without looking at its validity; `None` when the UTXO update fails. */
  function AddBlock(c: Chain, blk: Block): Option<Chain> {
    var h := blk.header;
    if !Applicable(c.store, h.height, blk.txs) then None else
    var st := Applied(c.store, h.height, blk.txs).(
                blocks := c.store.blocks[h.hash := blk], heights := c.store.heights[h.height := h.hash]);
    if h.height > c.tipHeight || h.height == 0 then Some(Chain(st, h.height, Some(h.hash)))
    else Some(c.(store := st))
  }

  datatype Step = Step(block: Block, ctx: Context)

  /** The genesis block, then blocks that were each accepted in the state they were added to. */
  function Play(cfg: Config, genesis: Block, steps: seq<Step>): Option<Chain> {
    if steps == [] then AddBlock(NO_CHAIN, genesis) else
    var s := steps[|steps| - 1];
    match Play(cfg, genesis, steps[..|steps| - 1])
    case None => None
    case Some(c) =>
      if s.block.header.height > 0 && BlockOk(cfg, c.store, s.block, s.ctx) then AddBlock(c, s.block) else None
  }

  /** All transactions of a run in order. */
  function History(genesis: Block, steps: seq<Step>): seq<Transaction> {
    if steps == [] then genesis.txs
    else History(genesis, steps[..|steps| - 1]) + steps[|steps| - 1].block.txs
  }

  /** The id is the hash of the content. That of a genesis transaction is not: it is computed from
      a nil data field, which validation would hash as an empty one. It is the id of no other
      content either. */
  predicate WellHashed(tx: Transaction) { tx.id == tx.ContentHash() || (tx.inputs == [] && !tx.id.TxHash?) }

  /** Genesis transactions only pay out, and are distinct. */
  predicate GenesisShape(genesis: Block) {
    && genesis.header.height == 0 && NoDup(Ids(genesis.txs))
    && (forall i :: 0 <= i < |genesis.txs| ==> genesis.txs[i].inputs == [] && WellHashed(genesis.txs[i]))
  }

  /** Transactions without inputs do not reuse the id of an earlier transaction. */
  predicate FreshPayouts(txs: seq<Transaction>, bt: seq<Transaction>) {
    forall i :: 0 <= i < |bt| && bt[i].inputs == [] ==> bt[i].id !in Ids(txs)
  }

  predicate NewIds(genesis: Block, steps: seq<Step>) {
    steps == [] ||
    (NewIds(genesis, steps[..|steps| - 1])
     && FreshPayouts(History(genesis, steps[..|steps| - 1]), steps[|steps| - 1].block.txs))
  }

  predicate Hashed(txs: seq<Transaction>) { forall i :: 0 <= i < |txs| ==> WellHashed(txs[i]) }

  /** What every run keeps. */
  ghost predicate RunInv(st: Store, txs: seq<Transaction>) {
    Agrees(st, txs) && NoDup(Spends(txs)) && NoDup(Ids(txs)) && Hashed(txs)
  }

  // ------------------------------------------------------------------ ids and keys

  lemma {:induction false} SpendsContain(txs: seq<Transaction>, i: nat, j: nat)
    requires i < |txs| && j < |txs[i].inputs|
    ensures txs[i].inputs[j].Point() in Spends(txs)
  {
    if i < |txs| - 1 {
      SpendsContain(txs[..|txs| - 1], i, j);
    } else {
      assert txs[i].Points()[j] == txs[i].inputs[j].Point();
    }
  }

  lemma {:induction false} SpendsCome(txs: seq<Transaction>, p: OutPoint) returns (i: nat, j: nat)
    requires p in Spends(txs)
    ensures i < |txs| && j < |txs[i].inputs| && txs[i].inputs[j].Point() == p
  {
    var last := txs[|txs| - 1];
    if p in last.Points() {
      i := |txs| - 1;
      j :| 0 <= j < |last.Points()| && last.Points()[j] == p;
    } else {
      i, j := SpendsCome(txs[..|txs| - 1], p);
    }
  }

  lemma {:induction false} PlacesCome(txs: seq<Transaction>, k: nat)
    requires k < |Places(txs)|
    ensures Places(txs)[k].point.txId in Ids(txs)
  {
    var init, last := txs[..|txs| - 1], txs[|txs| - 1];
    assert Ids(txs) == Ids(init) + [last.id];
    if k < |Places(init)| {
      PlacesCome(init, k);
    }
  }

  lemma KeysHaveIds(txs: seq<Transaction>, p: OutPoint)
    requires p in OutMap(Places(txs))
    ensures p.txId in Ids(txs)
  {
    OutMapKeys(Places(txs), p);
    var k :| 0 <= k < |Places(txs)| && Places(txs)[k].point == p;
    PlacesCome(txs, k);
  }

  lemma {:induction false} DistinctPlaces(txs: seq<Transaction>)
    requires NoDup(Ids(txs))
    ensures NoDup(Points(Places(txs)))
  {
    if txs != [] {
      var init, last := txs[..|txs| - 1], txs[|txs| - 1];
      assert Ids(txs) == Ids(init) + [last.id];
      NoDupSnoc(Ids(init), last.id);
      DistinctPlaces(init);
      var a, b := Points(Places(init)), Points(PlacedBy(last));
      assert Points(Places(txs)) == a + b;
      forall p | p in a ensures p !in b {
        var k :| 0 <= k < |a| && a[k] == p;
        PlacesCome(init, k);
      }
      NoDupConcat(a, b);
    }
  }

  lemma SharedIdSharesInput(txs: seq<Transaction>, i: nat, tx: Transaction)
    requires i < |txs| && Hashed(txs) && txs[i].id == tx.id == tx.ContentHash() && tx.inputs != []
    ensures tx.inputs[0].Point() in Spends(txs)
  {
    SameIdSamePoints(txs[i], tx);
    assert |txs[i].Points()| == |tx.Points()|;
    assert txs[i].Points()[0] == tx.Points()[0];
    SpendsContain(txs, i, 0);
  }

  /** A transaction that spends cannot carry an id of the history: its inputs would be spent. */
  lemma SpendersAreNew(cfg: Config, st: Store, txs: seq<Transaction>, tx: Transaction)
    requires RunInv(st, txs) && TxOk(cfg, st, tx) && tx.inputs != []
    ensures tx.id !in Ids(txs)
  {
    assert InputUnspent(st, tx.inputs[0].Point());
    assert tx.inputs[0].Point() !in Elems(Spends(txs));
    forall i | 0 <= i < |txs| ensures txs[i].id != tx.id {
      if txs[i].id == tx.id {
        SharedIdSharesInput(txs, i, tx);
      }
    }
  }

  lemma NewIdsConcat(txs: seq<Transaction>, bt: seq<Transaction>)
    requires NoDup(Ids(txs)) && NoDup(Ids(bt)) && forall i :: 0 <= i < |bt| ==> bt[i].id !in Ids(txs)
    ensures NoDup(Ids(txs + bt))
  {
    assert Ids(txs + bt) == Ids(txs) + Ids(bt);
    NoDupConcat(Ids(txs), Ids(bt));
  }

  lemma NewIdsNewKeys(txs: seq<Transaction>, bt: seq<Transaction>, p: OutPoint)
    requires (forall i :: 0 <= i < |bt| ==> bt[i].id !in Ids(txs)) && p in OutMap(Places(bt))
    ensures p !in OutMap(Places(txs))
  {
    KeysHaveIds(bt, p);
    if p in OutMap(Places(txs)) {
      KeysHaveIds(txs, p);
    }
  }

  lemma AcceptedAreNew(cfg: Config, st: Store, txs: seq<Transaction>, bt: seq<Transaction>)
    requires RunInv(st, txs) && TxsOk(cfg, st, bt) && FreshPayouts(txs, bt)
    ensures NoDup(Ids(txs + bt)) && OutMap(Places(bt)).Keys !! st.utxos.Keys && NoDup(Points(Places(bt)))
  {
    forall i | 0 <= i < |bt| ensures bt[i].id !in Ids(txs) {
      if bt[i].inputs != [] {
        SpendersAreNew(cfg, st, txs, bt[i]);
      }
    }
    NewIdsConcat(txs, bt);
    DistinctPlaces(bt);
    forall p | p in OutMap(Places(bt)) ensures p !in st.utxos {
      NewIdsNewKeys(txs, bt, p);
    }
  }

  // ------------------------------------------------------------------ validation suffices

  /** In a store with a list for the address of each record, an accepted block never makes the UTXO
      update fail. */
  lemma ValidationSuffices(cfg: Config, st: Store, height: u64, bt: seq<Transaction>)
    requires Addressed(st) && TxsOk(cfg, st, bt)
    ensures Applicable(st, height, bt)
  {
    forall p | p in Spends(bt) ensures Spendable(st, p) {
      var i, j := SpendsCome(bt, p);
      assert TxOk(cfg, st, bt[i]);
      assert InputUnspent(st, bt[i].inputs[j].Point());
    }
  }

  lemma AgreesAddressed(st: Store, txs: seq<Transaction>)
    requires Agrees(st, txs)
    ensures Addressed(st)
  {
    forall p | p in st.utxos ensures st.utxos[p].txOut.address in st.lists {
      assert Listed(st.utxos[p], st.lists, p);
    }
  }

  /** Accepted inputs are none of those spent before. */
  lemma AcceptedSpendsAreNew(cfg: Config, st: Store, txs: seq<Transaction>, bt: seq<Transaction>)
    requires RecordsAre(st.utxos, OutMap(Places(txs)), Elems(Spends(txs))) && TxsOk(cfg, st, bt)
    requires NoDup(Spends(txs))
    ensures NoDup(Spends(txs + bt))
  {
    forall p | p in Spends(bt) ensures p !in Spends(txs) {
      var i, j := SpendsCome(bt, p);
      assert TxOk(cfg, st, bt[i]);
      assert InputUnspent(st, bt[i].inputs[j].Point());
      assert p !in Elems(Spends(txs));
    }
    SpendsConcat(txs, bt);
    NoDupConcat(Spends(txs), Spends(bt));
  }

  lemma HashedConcat(cfg: Config, st: Store, txs: seq<Transaction>, bt: seq<Transaction>)
    requires Hashed(txs) && TxsOk(cfg, st, bt)
    ensures Hashed(txs + bt)
  {
  }

  lemma AcceptedKeepsInv(cfg: Config, st: Store, txs: seq<Transaction>, height: u64, bt: seq<Transaction>)
    requires RunInv(st, txs) && TxsOk(cfg, st, bt) && FreshPayouts(txs, bt) && height > 0
    ensures Applicable(st, height, bt) && RunInv(Applied(st, height, bt), txs + bt)
  {
    AgreesAddressed(st, txs);
    ValidationSuffices(cfg, st, height, bt);
    AcceptedAreNew(cfg, st, txs, bt);
    AcceptedSpendsAreNew(cfg, st, txs, bt);
    HashedConcat(cfg, st, txs, bt);
    AppliedAgrees(st, txs, height, bt);
  }

  lemma {:induction false} NoInputsNoSpends(txs: seq<Transaction>)
    requires forall i :: 0 <= i < |txs| ==> txs[i].inputs == []
    ensures Spends(txs) == []
  {
    if txs != [] {
      NoInputsNoSpends(txs[..|txs| - 1]);
    }
  }

  lemma EmptyAgrees()
    ensures RunInv(EMPTY, [])
  {
  }

  lemma GenesisKeepsInv(genesis: Block)
    requires GenesisShape(genesis)
    ensures Applicable(EMPTY, 0, genesis.txs) && RunInv(Applied(EMPTY, 0, genesis.txs), genesis.txs)
  {
    NoInputsNoSpends(genesis.txs);
    DistinctPlaces(genesis.txs);
    EmptyAgrees();
    AppliedAgrees(EMPTY, [], 0, genesis.txs);
    assert [] + genesis.txs == genesis.txs;
  }

  lemma AddedRecords(c: Chain, blk: Block, c': Chain)
    requires AddBlock(c, blk) == Some(c')
    ensures Applicable(c.store, blk.header.height, blk.txs)
    ensures c'.store.utxos == Applied(c.store, blk.header.height, blk.txs).utxos
    ensures c'.store.lists == Applied(c.store, blk.header.height, blk.txs).lists
  {
  }

  lemma StepKeepsInv(cfg: Config, c: Chain, txs: seq<Transaction>, s: Step, c': Chain)
    requires RunInv(c.store, txs) && FreshPayouts(txs, s.block.txs)
    requires s.block.header.height > 0 && BlockOk(cfg, c.store, s.block, s.ctx) && AddBlock(c, s.block) == Some(c')
    ensures RunInv(c'.store, txs + s.block.txs)
  {
    AddedRecords(c, s.block, c');
    AcceptedKeepsInv(cfg, c.store, txs, s.block.header.height, s.block.txs);
    SameRecords(Applied(c.store, s.block.header.height, s.block.txs), c'.store, txs + s.block.txs);
  }

  lemma StartKeepsInv(genesis: Block, c: Chain)
    requires GenesisShape(genesis) && AddBlock(NO_CHAIN, genesis) == Some(c)
    ensures RunInv(c.store, genesis.txs)
  {
    GenesisKeepsInv(genesis);
    SameRecords(Applied(EMPTY, 0, genesis.txs), c.store, genesis.txs);
  }

  /** After any run of accepted blocks the store agrees with the replay of its transactions, no
      output was spent twice and no transaction occurs twice. */
  lemma {:induction false} RunsAgree(cfg: Config, genesis: Block, steps: seq<Step>, c: Chain)
    requires GenesisShape(genesis) && NewIds(genesis, steps) && Play(cfg, genesis, steps) == Some(c)
    ensures RunInv(c.store, History(genesis, steps))
    decreases |steps|
  {
    if steps == [] {
      StartKeepsInv(genesis, c);
    } else {
      var init, s := steps[..|steps| - 1], steps[|steps| - 1];
      var before := Play(cfg, genesis, init).value;
      RunsAgree(cfg, genesis, init, before);
      StepKeepsInv(cfg, before, History(genesis, init), s, c);
    }
  }

  lemma SameRecords(s: Store, t: Store, txs: seq<Transaction>)
    requires RunInv(s, txs) && s.utxos == t.utxos && s.lists == t.lists
    ensures RunInv(t, txs)
  {
  }

  /** Reading the index after a run gives exactly the live outputs, each once. */
  lemma IndexAgreesWithReplay(cfg: Config, genesis: Block, steps: seq<Step>, c: Chain, a: Address,
                              keys: seq<OutPoint>, list: seq<Utxo>)
    requires GenesisShape(genesis) && NewIds(genesis, steps) && Play(cfg, genesis, steps) == Some(c)
    requires Listing(c.store, {}, a, keys, list)
    ensures var live := LiveTo(History(genesis, steps), a);
      && NoDup(keys) && |list| == |keys| && Elems(keys) == live.Keys
      && forall i :: 0 <= i < |keys| ==> keys[i] in live && list[i].Point() == keys[i] && list[i].txOut == live[keys[i]]
  {
    RunsAgree(cfg, genesis, steps, c);
    ListingIsReplay(c.store, History(genesis, steps), a, keys, list);
  }

  /** After a run the read of an address succeeds exactly when some transaction of the run paid it. */
  lemma ReadableIffPaid(cfg: Config, genesis: Block, steps: seq<Step>, c: Chain, a: Address)
    requires GenesisShape(genesis) && NewIds(genesis, steps) && Play(cfg, genesis, steps) == Some(c)
    ensures Readable(c.store, a) <==> EverPaid(Places(History(genesis, steps)), a)
  {
    RunsAgree(cfg, genesis, steps, c);
    ReadableWhenPaid(c.store, History(genesis, steps), a);
  }

  /** Over a whole run no output is consumed by two inputs and no transaction is included twice. */
  lemma NothingTwice(cfg: Config, genesis: Block, steps: seq<Step>, c: Chain)
    requires GenesisShape(genesis) && NewIds(genesis, steps) && Play(cfg, genesis, steps) == Some(c)
    ensures NoDup(Spends(History(genesis, steps))) && NoDup(Ids(History(genesis, steps)))
  {
    RunsAgree(cfg, genesis, steps, c);
  }

  /** A block accepted after a run is always added. */
  lemma AcceptedIsAdded(cfg: Config, genesis: Block, steps: seq<Step>, c: Chain, blk: Block, ctx: Context)
    requires GenesisShape(genesis) && NewIds(genesis, steps) && Play(cfg, genesis, steps) == Some(c)
    requires blk.header.height > 0 && BlockOk(cfg, c.store, blk, ctx)
    ensures AddBlock(c, blk).Some?
  {
    RunsAgree(cfg, genesis, steps, c);
    AgreesAddressed(c.store, History(genesis, steps));
    ValidationSuffices(cfg, c.store, blk.header.height, blk.txs);
  }
}
