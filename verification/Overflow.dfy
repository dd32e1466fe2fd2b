/** Output sums that wrap create value: a run of core/validate.go and core/block.go at one input. */
module Overflow {
  import opened Basics
  import opened Types
  import opened Merkle
  import opened ValidatorSets
  import opened Ledger
  import opened Validation
  import opened Replay
  import opened Assembly
  import opened Conservation

  const OWNER: Address := 7
  const MINER: Address := 9

  function Cfg(): Config { Config("net", "1", "1", 1, 50, 0, 0, (key, hash, sig) => true, key => Some(OWNER)) }

  function Payout(): Transaction { Transaction(Other(0), "1", "", 0, [], [TxOutput(OWNER, 2, 0)], GENESIS_MEMO, "") }

  function Genesis(): Block {
    var header := Header(ZeroHash, ZeroHash, "1", 0, MerkleRoot([Payout()]), 0);
    Block(header.(hash := header.ContentHash()), [Payout()], NO_ADDRESS, NO_SIGNATURE, [])
  }

  function Half(): TxOutput { TxOutput(OWNER, 0x8000_0000_0000_0000, 0) }

  /** Spends the two coins on outputs of 2^63, 2^63 and 1. */
  function Transfer(): Transaction {
    var tx := Transaction(ZeroHash, "1", "net", 1, [TxInput(Other(0), 0, "key", 1)],
                          [Half(), Half(), TxOutput(OWNER, 1, 0)], "", "");
    tx.(id := tx.ContentHash())
  }

  const MINERS: Validators := Validators(map[MINER := Validator("key", 1, true)], 1)

  const CHECKED: Context := Context(1, Some(MINERS), false)

  /** The block assembled from the transfer on the genesis block, signed. */
  function Next(st: Store): Block {
    SetBlock(Cfg(), st, [Transfer()], Genesis().header.hash, 1, MINER, 1).(signature := 1)
  }

  const RECIPE: Recipe := Recipe([Transfer()], MINER, 1)

  /** The store after the genesis block. */
  lemma TwoCoins(c: Chain)
    requires AddBlock(NO_CHAIN, Genesis()) == Some(c)
    ensures RunInv(c.store, [Payout()]) && TotalUnspent(c.store) == 2
    ensures var p := OutPoint(Other(0), 0);
      p in c.store.utxos && c.store.utxos[p] == Unspent(p, TxOutput(OWNER, 2, 0), 0)
  {
    var g := Genesis();
    assert GenesisShape(g);
    StartKeepsInv(g, c);
    GenesisTotal(g, c);
    PayoutTotals();
    PayoutStored();
  }

  lemma PayoutTotals()
    ensures OutTotal([Payout()]) == 2
  {
    var outs := Payout().outputs;
    assert outs[..0] == [] && SumOut(outs) == SumOut(outs[..0]) + 2;
    assert OutTotal([Payout()]) == OutTotal([Payout()][..0]) + SumOut(outs);
  }

  lemma OnePlaced(q: Placed)
    ensures OutMap([q]) == map[q.point := q.out]
  {
    assert [q][..0] == [];
  }

  lemma OneTransaction(tx: Transaction)
    ensures Places([tx]) == PlacedBy(tx)
  {
    assert [tx][..0] == [];
    assert Places([tx]) == Places([]) + PlacedBy(tx);
  }

  lemma PayoutStored()
    ensures OutMap(Places([Payout()])) == map[OutPoint(Other(0), 0) := TxOutput(OWNER, 2, 0)]
  {
    var q := Placed(OutPoint(Other(0), 0), TxOutput(OWNER, 2, 0));
    OneTransaction(Payout());
    OnePlaced(q);
    assert PlacedBy(Payout()) == [q];
  }

  lemma TransferSums(st: Store)
    requires var p := OutPoint(Other(0), 0); p in st.utxos && st.utxos[p] == Unspent(p, TxOutput(OWNER, 2, 0), 0)
    ensures SumIn(st, Transfer().Points()) == 2 && SumOut(Transfer().outputs) == TWO64 + 1
  {
    var p, outs := OutPoint(Other(0), 0), Transfer().outputs;
    assert Transfer().Points() == [p];
    assert SumIn(st, [p]) == SumIn(st, [p][..0]) + AmountAt(st, p);
    assert outs[..2] == [Half(), Half()] && outs[..2][..1] == [Half()] && [Half()][..0] == [];
    assert SumOut([Half()]) == SumOut([Half()][..0]) + 0x8000_0000_0000_0000;
    assert SumOut(outs[..2]) == SumOut([Half()]) + 0x8000_0000_0000_0000;
    assert SumOut(outs) == SumOut(outs[..2]) + 1;
  }

  /** The transfer is accepted although it pays out 2^64 + 1 for 2. */
  lemma TransferAccepted(st: Store)
    requires var p := OutPoint(Other(0), 0); p in st.utxos && st.utxos[p] == Unspent(p, TxOutput(OWNER, 2, 0), 0)
    ensures TxOk(Cfg(), st, Transfer()) && FeeOf(st, Transfer()) == Some(1) && !SumsFit([Transfer()])
  {
    TransferSums(st);
    var tx := Transfer();
    assert tx.ContentHash().inputs == [InputRef(Other(0), 0, "key")];
    assert tx.inputs[0].Point() == OutPoint(Other(0), 0);
    assert [tx][0] == tx;
  }

  lemma TransferPicked(st: Store)
    requires TxOk(Cfg(), st, Transfer()) && FeeOf(st, Transfer()) == Some(1)
    ensures PickAll(Cfg(), st, [Transfer()]).txs == [Transfer()] && PickAll(Cfg(), st, [Transfer()]).fees == 1
  {
    var cands := [Transfer()];
    assert cands[..0] == [];
    assert PickAll(Cfg(), st, cands) == PickNext(Cfg(), st, PickAll(Cfg(), st, []), cands[0]);
  }

  /** The coinbase of the block assembled from it fits beside it. */
  lemma CoinbaseHasRoom(st: Store, k: Picked, coinbase: Transaction)
    requires k == PickAll(Cfg(), st, [Transfer()]) && k.txs == [Transfer()] && k.fees == 1
    requires coinbase == Coinbase(Cfg(), MINER, 1, 1, CoinbaseMemo(1, 50, 1))
    ensures CoinbaseFits(Cfg(), k, coinbase)
  {
    SpendersAreNotCoinbase(Cfg(), st, [Transfer()], coinbase);
    assert NoDup(Transfer().Points());
  }

  lemma FreshHere(coinbase: Transaction)
    requires coinbase.id.TxHash?
    ensures FreshPayouts([Payout()], [coinbase, Transfer()])
  {
    assert Ids([Payout()]) == [Other(0)];
  }

  lemma NextTxs(st: Store, bt: seq<Transaction>)
    requires TxOk(Cfg(), st, Transfer()) && FeeOf(st, Transfer()) == Some(1)
    requires bt == BlockTxs(Cfg(), st, [Transfer()], 1, MINER, 1)
    ensures FreshPayouts([Payout()], bt) && |bt| == 2 && bt[1] == Transfer()
  {
    var coinbase := Coinbase(Cfg(), MINER, 1, 1, CoinbaseMemo(1, 50, 1));
    TransferPicked(st);
    FreshHere(coinbase);
    assert bt == [coinbase] + [Transfer()] == [coinbase, Transfer()];
  }

  lemma GenesisStored(c: Chain)
    requires AddBlock(NO_CHAIN, Genesis()) == Some(c)
    ensures GenesisOk(Genesis()) && BlockAt(c.store, 0) == Some(Genesis())
  {
  }

  /** It passes validation. */
  lemma NextAccepted(st: Store)
    requires BlockAt(st, 0) == Some(Genesis()) && TxOk(Cfg(), st, Transfer()) && FeeOf(st, Transfer()) == Some(1)
    ensures BlockOk(Cfg(), st, Next(st), CHECKED)
  {
    var k := PickAll(Cfg(), st, [Transfer()]);
    TransferPicked(st);
    CoinbaseHasRoom(st, k, Coinbase(Cfg(), MINER, 1, 1, CoinbaseMemo(1, 50, 1)));
    AssembledBlockAccepted(Cfg(), st, Genesis(), [Transfer()], 1, MINER, 1, 1, CHECKED);
  }

  lemma NextShape(st: Store)
    ensures Next(st).header.height == 1 && Next(st).txs == BlockTxs(Cfg(), st, [Transfer()], 1, MINER, 1)
  {
  }

  /** An accepted block is added, and moves the total by what it pays and spends. */
  lemma NextAdded(c: Chain) returns (c': Chain)
    requires RunInv(c.store, [Payout()]) && BlockOk(Cfg(), c.store, Next(c.store), CHECKED)
    requires FreshPayouts([Payout()], Next(c.store).txs)
    ensures AddBlock(c, Next(c.store)) == Some(c') && InTotal(c.store, Next(c.store).txs) <= TotalUnspent(c.store)
    ensures TotalUnspent(c'.store)
         == TotalUnspent(c.store) - InTotal(c.store, Next(c.store).txs) + OutTotal(Next(c.store).txs)
  {
    NextShape(c.store);
    AgreesAddressed(c.store, [Payout()]);
    ValidationSuffices(Cfg(), c.store, 1, Next(c.store).txs);
    c' := AddBlock(c, Next(c.store)).value;
    AddedTotal(Cfg(), c, [Payout()], Step(Next(c.store), CHECKED), c');
  }

  /** After a valid genesis block, the block assembled from that transfer is valid and added, and the
      total grows by more than the block reward. */
  lemma WrappingCreatesValue(c: Chain) returns (c': Chain)
    requires AddBlock(NO_CHAIN, Genesis()) == Some(c)
    ensures GenesisOk(Genesis()) && BlockOk(Cfg(), c.store, Next(c.store), CHECKED)
    ensures AddBlock(c, Next(c.store)) == Some(c')
    ensures TotalUnspent(c'.store) > TotalUnspent(c.store) + Cfg().blockReward
  {
    TwoCoins(c);
    TransferAccepted(c.store);
    GenesisStored(c);
    NextAccepted(c.store);
    NextShape(c.store);
    NextTxs(c.store, Next(c.store).txs);
    c' := NextAdded(c);
    BlockGrows(c.store, Next(c.store).txs, TotalUnspent(c.store), TotalUnspent(c'.store));
  }

  lemma BlockGrows(st: Store, bt: seq<Transaction>, total: int, total': int)
    requires bt == BlockTxs(Cfg(), st, [Transfer()], 1, MINER, 1) && |bt| == 2 && bt[1] == Transfer()
    requires !SumsFit([Transfer()]) && total == 2
    requires total' == total - InTotal(st, bt) + OutTotal(bt) && InTotal(st, bt) <= total
    ensures total' > total + Cfg().blockReward
  {
    assert AllSpend([Transfer()]);
    AssembledAdds(Cfg(), st, bt, RECIPE, 1, total, total');
    assert SumOut(bt[1].outputs) == SumOut([Transfer()][0].outputs);
  }
}
