/** Value is conserved: assembled and accepted blocks add exactly the block reward. */
module Conservation {
  import opened Basics
  import opened Types
  import opened Ledger
  import opened Validation
  import opened Replay
  import opened Assembly

  // ------------------------------------------------------------------ total unspent value

  function ValuesOf(utxos: map<OutPoint, Utxo>): (m: map<OutPoint, int>)
    ensures forall p :: p in m ==> m[p] >= 0
  {
    map p | p in utxos && !utxos[p].spent :: utxos[p].txOut.amount
  }

  function Values(st: Store): map<OutPoint, int> { ValuesOf(st.utxos) }

  ghost function TotalUnspent(st: Store): int { MapSum(Values(st)) }

  function SumPlaced(ps: seq<Placed>): nat {
    if ps == [] then 0 else SumPlaced(ps[..|ps| - 1]) + ps[|ps| - 1].out.amount
  }

  /** Value going in and coming out of a list of transactions. */
  function InTotal(st: Store, txs: seq<Transaction>): nat {
    if txs == [] then 0 else InTotal(st, txs[..|txs| - 1]) + SumIn(st, txs[|txs| - 1].Points())
  }

  function OutTotal(txs: seq<Transaction>): nat {
    if txs == [] then 0 else OutTotal(txs[..|txs| - 1]) + SumOut(txs[|txs| - 1].outputs)
  }

  lemma {:induction false} SumInConcat(st: Store, ps: seq<OutPoint>, qs: seq<OutPoint>)
    ensures SumIn(st, ps + qs) == SumIn(st, ps) + SumIn(st, qs)
  {
    if qs == [] {
      assert ps + qs == ps;
    } else {
      SumInConcat(st, ps, qs[..|qs| - 1]);
      assert (ps + qs)[..|ps + qs| - 1] == ps + qs[..|qs| - 1];
    }
  }

  lemma {:induction false} SumPlacedConcat(ps: seq<Placed>, qs: seq<Placed>)
    ensures SumPlaced(ps + qs) == SumPlaced(ps) + SumPlaced(qs)
  {
    if qs == [] {
      assert ps + qs == ps;
    } else {
      SumPlacedConcat(ps, qs[..|qs| - 1]);
      assert (ps + qs)[..|ps + qs| - 1] == ps + qs[..|qs| - 1];
    }
  }

  lemma {:induction false} SpendsTotal(st: Store, txs: seq<Transaction>)
    ensures SumIn(st, Spends(txs)) == InTotal(st, txs)
  {
    if txs != [] {
      SpendsTotal(st, txs[..|txs| - 1]);
      SumInConcat(st, Spends(txs[..|txs| - 1]), txs[|txs| - 1].Points());
    }
  }

  lemma {:induction false} PlacedByTotal(tx: Transaction, n: nat)
    requires n <= |tx.outputs|
    ensures SumPlaced(PlacedBy(tx)[..n]) == SumOut(tx.outputs[..n])
  {
    if n > 0 {
      PlacedByTotal(tx, n - 1);
      assert PlacedBy(tx)[..n][..n - 1] == PlacedBy(tx)[..n - 1];
      assert tx.outputs[..n][..n - 1] == tx.outputs[..n - 1];
    }
  }

  lemma {:induction false} PlacesTotal(txs: seq<Transaction>)
    ensures SumPlaced(Places(txs)) == OutTotal(txs)
  {
    if txs != [] {
      var last := txs[|txs| - 1];
      PlacesTotal(txs[..|txs| - 1]);
      SumPlacedConcat(Places(txs[..|txs| - 1]), PlacedBy(last));
      PlacedByTotal(last, |last.outputs|);
      assert PlacedBy(last)[..|last.outputs|] == PlacedBy(last) && last.outputs[..|last.outputs|] == last.outputs;
    }
  }

  /** Taking distinct unspent outputs away takes their amounts away. */
  lemma {:induction false} SpentValue(st: Store, ps: seq<OutPoint>)
    requires NoDup(ps) && forall i :: 0 <= i < |ps| ==> ps[i] in Values(st)
    ensures MapSum(Values(st) - Elems(ps)) == TotalUnspent(st) - SumIn(st, ps)
  {
    if ps == [] {
      assert Values(st) - Elems(ps) == Values(st);
    } else {
      var init, p := ps[..|ps| - 1], ps[|ps| - 1];
      assert ps == init + [p];
      NoDupSnoc(init, p);
      SpentValue(st, init);
      var rest := Values(st) - Elems(init);
      assert p in rest && rest[p] == AmountAt(st, p);
      MapSumRemove(rest, p);
      assert Values(st) - Elems(ps) == rest - {p};
    }
  }

  lemma {:induction false} PlacedValue(ps: seq<Placed>)
    requires NoDup(Points(ps))
    ensures MapSum(AmountsOf(OutMap(ps))) == SumPlaced(ps)
  {
    if ps == [] {
      assert AmountsOf(OutMap(ps)) == map[];
    } else {
      var init, q := ps[..|ps| - 1], ps[|ps| - 1];
      assert Points(ps) == Points(init) + [q.point];
      NoDupSnoc(Points(init), q.point);
      PlacedValue(init);
      PointNotPlaced(init, q.point);
      MapSumInsert(AmountsOf(OutMap(init)), q.point, q.out.amount);
      assert AmountsOf(OutMap(ps)) == AmountsOf(OutMap(init))[q.point := q.out.amount];
    }
  }

  lemma PointNotPlaced(ps: seq<Placed>, p: OutPoint)
    requires p !in Points(ps)
    ensures p !in OutMap(ps)
  {
    OutMapKeys(ps, p);
    assert forall i :: 0 <= i < |ps| ==> Points(ps)[i] == ps[i].point;
  }

  lemma ValuesStep(utxos: map<OutPoint, Utxo>, height: u64, spent: seq<OutPoint>, ps: seq<Placed>)
    requires OutMap(ps).Keys !! utxos.Keys
    ensures ValuesOf(MarkSpent(utxos, height, spent) + NewUtxos(ps, height))
         == (ValuesOf(utxos) - Elems(spent)) + AmountsOf(OutMap(ps))
  {
    var marked, new' := MarkSpent(utxos, height, spent), NewUtxos(ps, height);
    var lhs := ValuesOf(marked + new');
    var rhs := (ValuesOf(utxos) - Elems(spent)) + AmountsOf(OutMap(ps));
    forall p ensures (p in lhs <==> p in rhs) && (p in lhs ==> lhs[p] == rhs[p]) {
      assert p in spent <==> p in Elems(spent);
      if p in OutMap(ps) {
        assert (marked + new')[p] == new'[p];
      }
    }
  }

  /** The block applies, spends nothing twice and places only new outputs. */
  ghost predicate Lands(st: Store, height: u64, bt: seq<Transaction>) {
    && Applicable(st, height, bt) && SpentIn(height, bt) == Spends(bt) && NoDup(Spends(bt))
    && NoDup(Points(Places(bt))) && OutMap(Places(bt)).Keys !! st.utxos.Keys
  }

  /** A block moves the total by what it places less what it spends. */
  lemma AppliedTotal(st: Store, height: u64, bt: seq<Transaction>)
    requires Lands(st, height, bt)
    ensures TotalUnspent(Applied(st, height, bt)) == TotalUnspent(st) - InTotal(st, bt) + OutTotal(bt)
    ensures InTotal(st, bt) <= TotalUnspent(st)
  {
    var spent, ps := SpentIn(height, bt), Places(bt);
    var kept := Values(st) - Elems(spent);
    ValuesStep(st.utxos, height, spent, ps);
    UnspentInValues(st, spent);
    SpentValue(st, spent);
    PlacedValue(ps);
    MapSumUnion(kept, AmountsOf(OutMap(ps)));
    MapSumNonNegative(kept);
    SpendsTotal(st, bt);
    PlacesTotal(bt);
  }

  lemma UnspentInValues(st: Store, spent: seq<OutPoint>)
    requires forall i :: 0 <= i < |spent| ==> Spendable(st, spent[i])
    ensures forall i :: 0 <= i < |spent| ==> spent[i] in Values(st)
  {
  }

  // ------------------------------------------------------------------ fees

  predicate Transfers(st: Store, txs: seq<Transaction>) {
    forall i :: 0 <= i < |txs| ==> txs[i].inputs != [] && FeeOf(st, txs[i]).Some?
  }

  lemma FeeFormula(st: Store, tx: Transaction)
    requires tx.inputs != [] && FeeOf(st, tx).Some?
    ensures FeeOf(st, tx).value == Wrap(SumIn(st, tx.Points())) - Wrap(SumOut(tx.outputs))
  {
  }

  /** The fees are the value that the transactions leave over, modulo 2^64. */
  lemma {:induction false} FeesBalance(st: Store, txs: seq<Transaction>)
    requires Transfers(st, txs)
    ensures Congruent(FeeSum(st, txs), InTotal(st, txs) - OutTotal(txs))
  {
    if txs != [] {
      var init, tx := txs[..|txs| - 1], txs[|txs| - 1];
      FeesBalance(st, init);
      FeeFormula(st, tx);
      CongruentSums(FeeSum(st, init), InTotal(st, init) - OutTotal(init), SumIn(st, tx.Points()), SumOut(tx.outputs));
    }
  }

  lemma CongruentSums(x: int, y: int, a: int, b: int)
    requires Congruent(x, y)
    ensures Congruent(x + (Wrap(a) - Wrap(b)), y + a - b)
  {
  }

  /** How much the wrapped output sums understate the outputs. */
  function Excess(txs: seq<Transaction>): int {
    if txs == [] then 0 else
    Excess(txs[..|txs| - 1]) + SumOut(txs[|txs| - 1].outputs) - Wrap(SumOut(txs[|txs| - 1].outputs))
  }

  predicate SumsFit(txs: seq<Transaction>) { forall i :: 0 <= i < |txs| ==> SumOut(txs[i].outputs) < TWO64 }

  lemma {:induction false} ExcessIsWrap(txs: seq<Transaction>)
    ensures Excess(txs) >= 0 && (Excess(txs) == 0 <==> SumsFit(txs))
  {
    if txs != [] {
      var init, tx := txs[..|txs| - 1], txs[|txs| - 1];
      ExcessIsWrap(init);
      assert txs == init + [tx];
      assert SumsFit(txs) <==> SumsFit(init) && SumOut(tx.outputs) < TWO64;
    }
  }

  /** When the inputs do not wrap, the fees are exact up to the outputs' excess. */
  lemma {:induction false} FeesExact(st: Store, txs: seq<Transaction>)
    requires Transfers(st, txs) && InTotal(st, txs) < TWO64
    ensures FeeSum(st, txs) == InTotal(st, txs) - OutTotal(txs) + Excess(txs)
    ensures FeeSum(st, txs) <= InTotal(st, txs)
  {
    if txs != [] {
      var init, tx := txs[..|txs| - 1], txs[|txs| - 1];
      FeesExact(st, init);
      FeeFormula(st, tx);
    }
  }

  lemma {:induction false} FeeSumNonNegative(st: Store, txs: seq<Transaction>)
    ensures FeeSum(st, txs) >= 0
  {
    if txs != [] {
      FeeSumNonNegative(st, txs[..|txs| - 1]);
    }
  }

  // ------------------------------------------------------------------ one block

  predicate AllSpend(txs: seq<Transaction>) { forall i :: 0 <= i < |txs| ==> txs[i].inputs != [] }

  lemma PickedTransfer(cfg: Config, st: Store, cands: seq<Transaction>)
    requires AllSpend(cands)
    ensures Transfers(st, PickAll(cfg, st, cands).txs)
  {
    var k := PickAll(cfg, st, cands);
    PickAllValid(cfg, st, cands);
    PickAllIds(cfg, st, cands);
    forall i | 0 <= i < |k.txs| ensures k.txs[i].inputs != [] && FeeOf(st, k.txs[i]).Some? {
      assert k.txs[i] in cands && TxOk(cfg, st, k.txs[i]);
    }
  }

  lemma {:induction false} ConsTotals(st: Store, tx: Transaction, txs: seq<Transaction>)
    ensures InTotal(st, [tx] + txs) == SumIn(st, tx.Points()) + InTotal(st, txs)
    ensures OutTotal([tx] + txs) == SumOut(tx.outputs) + OutTotal(txs)
  {
    var all := [tx] + txs;
    if txs == [] {
      assert all[..0] == [] && all[0] == tx;
    } else {
      ConsTotals(st, tx, txs[..|txs| - 1]);
      assert all[..|all| - 1] == [tx] + txs[..|txs| - 1];
    }
  }

  lemma CoinbaseTotals(cfg: Config, st: Store, proposer: Address, fees: u64, timestamp: int, memo: string)
    ensures var tx := Coinbase(cfg, proposer, fees, timestamp, memo);
      SumIn(st, tx.Points()) == 0 && SumOut(tx.outputs) == Wrap(cfg.blockReward + fees)
  {
    var tx := Coinbase(cfg, proposer, fees, timestamp, memo);
    assert tx.Points() == [];
    assert SumOut(tx.outputs[..0]) == 0;
  }

  /** The transactions of `blk` are those `SetBlock` assembles in `st` from `cands`. */
  predicate AssembledFrom(cfg: Config, st: Store, bt: seq<Transaction>, cands: seq<Transaction>, height: u64,
                          proposer: Address, timestamp: int)
  {
    proposer != NO_ADDRESS && AllSpend(cands) && bt == BlockTxs(cfg, st, cands, height, proposer, timestamp)
  }

  /** Besides the transfers `txs` the block pays the reward and their fees. */
  ghost predicate PaysReward(cfg: Config, st: Store, bt: seq<Transaction>, txs: seq<Transaction>) {
    && Transfers(st, txs)
    && InTotal(st, bt) == InTotal(st, txs)
    && OutTotal(bt) == OutTotal(txs) + Wrap(cfg.blockReward + Wrap(FeeSum(st, txs)))
  }

  lemma PrefixedPays(cfg: Config, st: Store, k: Picked, proposer: Address, timestamp: int, memo: string)
    requires PickedOk(st, k) && Transfers(st, k.txs)
    ensures PaysReward(cfg, st, [Coinbase(cfg, proposer, k.fees, timestamp, memo)] + k.txs, k.txs)
  {
    ConsTotals(st, Coinbase(cfg, proposer, k.fees, timestamp, memo), k.txs);
    CoinbaseTotals(cfg, st, proposer, k.fees, timestamp, memo);
  }

  lemma AssembledPays(cfg: Config, st: Store, bt: seq<Transaction>, cands: seq<Transaction>, height: u64,
                      proposer: Address, timestamp: int)
    requires AssembledFrom(cfg, st, bt, cands, height, proposer, timestamp)
    ensures PaysReward(cfg, st, bt, PickAll(cfg, st, cands).txs)
  {
    var k := PickAll(cfg, st, cands);
    PickAllOk(cfg, st, cands);
    PickedTransfer(cfg, st, cands);
    PrefixedPays(cfg, st, k, proposer, timestamp, CoinbaseMemo(height, cfg.blockReward, k.fees));
  }

  lemma RewardModulo(reward: int, fees: int, total: int, ins: int, outs: int)
    requires Congruent(fees, ins - outs)
    ensures Congruent(total - ins + (outs + Wrap(reward + Wrap(fees))), total + reward)
  {
  }

  /** Modulo 2^64 an assembled block adds the reward, whatever wraps inside it. */
  lemma AddsReward(cfg: Config, st: Store, bt: seq<Transaction>, txs: seq<Transaction>, total: int, total': int)
    requires PaysReward(cfg, st, bt, txs) && total' == total - InTotal(st, bt) + OutTotal(bt)
    ensures Congruent(total', total + cfg.blockReward)
  {
    FeesBalance(st, txs);
    RewardModulo(cfg.blockReward, FeeSum(st, txs), total, InTotal(st, txs), OutTotal(txs));
  }

  lemma RewardExact(reward: u64, fees: int, total: int, ins: int)
    requires 0 <= fees <= ins <= total && total + reward < TWO64
    ensures Wrap(reward + Wrap(fees)) == reward + fees
  {
  }

  /** As long as the total fits in 64 bits, the block adds exactly the reward if and only if no
      transfer's output sum wraps; otherwise it creates value. */
  lemma AddsExactly(cfg: Config, st: Store, bt: seq<Transaction>, txs: seq<Transaction>, total: int, total': int)
    requires PaysReward(cfg, st, bt, txs) && total' == total - InTotal(st, bt) + OutTotal(bt)
    requires InTotal(st, bt) <= total && total + cfg.blockReward < TWO64
    ensures total' >= total + cfg.blockReward
    ensures total' == total + cfg.blockReward <==> SumsFit(txs)
  {
    FeesExact(st, txs);
    FeeSumNonNegative(st, txs);
    RewardExact(cfg.blockReward, FeeSum(st, txs), total, InTotal(st, txs));
    ExcessIsWrap(txs);
  }

  // ------------------------------------------------------------------ whole runs

  const GENESIS_MEMO := "ABCFE Chain Genesis Block"

  /** What each block of a run was assembled from. */
  datatype Recipe = Recipe(cands: seq<Transaction>, proposer: Address, timestamp: int)

  predicate AssembledOn(cfg: Config, c: Chain, blk: Block, r: Recipe) {
    && blk.header.height == c.tipHeight + 1
    && AssembledFrom(cfg, c.store, blk.txs, r.cands, blk.header.height, r.proposer, r.timestamp)
  }

  /** Block `i` of the run was assembled by recipe `i`. */
  predicate AssembledRun(cfg: Config, genesis: Block, steps: seq<Step>, rs: seq<Recipe>) {
    |steps| <= |rs| &&
    (steps == [] ||
     (var n := |steps| - 1;
      && AssembledRun(cfg, genesis, steps[..n], rs)
      && match Play(cfg, genesis, steps[..n])
         case None => false
         case Some(c) => AssembledOn(cfg, c, steps[n].block, rs[n])))
  }

  /** No payout so far carries the memo of a coinbase above height `h`. */
  predicate PayoutsUpTo(txs: seq<Transaction>, h: nat) {
    forall i :: 0 <= i < |txs| && txs[i].inputs == [] ==> MemoHeight(txs[i].memo) <= h
  }

  predicate GenesisMemos(genesis: Block) { forall i :: 0 <= i < |genesis.txs| ==> genesis.txs[i].memo == GENESIS_MEMO }

  lemma GenesisPayouts(genesis: Block)
    requires GenesisMemos(genesis)
    ensures PayoutsUpTo(genesis.txs, 0)
  {
    assert GENESIS_MEMO[..6][0] == 'A';
  }

  /** The coinbase is the only payout of an assembled block. */
  lemma OnlyPayout(cfg: Config, st: Store, bt: seq<Transaction>, r: Recipe, height: u64)
    returns (memo: string, k: Picked)
    requires AssembledFrom(cfg, st, bt, r.cands, height, r.proposer, r.timestamp)
    ensures MemoHeight(memo) == height
    ensures forall i :: 0 <= i < |bt| && bt[i].inputs == [] ==>
      bt[i] == Coinbase(cfg, r.proposer, k.fees, r.timestamp, memo)
  {
    k := PickAll(cfg, st, r.cands);
    memo := CoinbaseMemo(height, cfg.blockReward, k.fees);
    MemoNamesHeight(height, cfg.blockReward, k.fees);
    PickedTransfer(cfg, st, r.cands);
    var coinbase := Coinbase(cfg, r.proposer, k.fees, r.timestamp, memo);
    assert bt == [coinbase] + k.txs;
    forall i | 0 <= i < |bt| ensures bt[i].inputs == [] ==> bt[i] == coinbase {
      if i > 0 {
        assert bt[i] == k.txs[i - 1];
      }
    }
  }

  /** Its memo is new, so its id is. */
  lemma CoinbaseIsFresh(cfg: Config, st: Store, txs: seq<Transaction>, bt: seq<Transaction>, r: Recipe, height: u64,
                        h: nat)
    requires Hashed(txs) && PayoutsUpTo(txs, h) && height == h + 1
    requires AssembledFrom(cfg, st, bt, r.cands, height, r.proposer, r.timestamp)
    ensures FreshPayouts(txs, bt)
  {
    var memo, k := OnlyPayout(cfg, st, bt, r, height);
    var coinbase := Coinbase(cfg, r.proposer, k.fees, r.timestamp, memo);
    forall j | 0 <= j < |txs| ensures txs[j].id != coinbase.id {
      assert |coinbase.ContentHash().inputs| == 0 && |txs[j].ContentHash().inputs| == |txs[j].inputs|;
      assert txs[j].inputs == [] ==> txs[j].memo != memo;
    }
  }

  lemma PayoutsGrow(cfg: Config, st: Store, txs: seq<Transaction>, bt: seq<Transaction>, r: Recipe, height: u64, h: nat)
    requires PayoutsUpTo(txs, h) && height == h + 1
    requires AssembledFrom(cfg, st, bt, r.cands, height, r.proposer, r.timestamp)
    ensures PayoutsUpTo(txs + bt, h + 1)
  {
    var memo, k := OnlyPayout(cfg, st, bt, r, height);
    forall i | 0 <= i < |txs + bt| && (txs + bt)[i].inputs == []
      ensures MemoHeight((txs + bt)[i].memo) <= h + 1
    {
      if i >= |txs| {
        assert (txs + bt)[i] == bt[i - |txs|];
      }
    }
  }

  function Supply(genesis: Block): nat { OutTotal(genesis.txs) }

  /** What an assembled run keeps. */
  ghost predicate AssembledInv(c: Chain, txs: seq<Transaction>, n: nat) {
    RunInv(c.store, txs) && PayoutsUpTo(txs, n) && c.tipHeight == n
  }

  lemma AssembledKeepsInv(cfg: Config, c: Chain, txs: seq<Transaction>, n: nat, s: Step, r: Recipe, c': Chain)
    requires AssembledInv(c, txs, n) && AssembledOn(cfg, c, s.block, r)
    requires BlockOk(cfg, c.store, s.block, s.ctx) && AddBlock(c, s.block) == Some(c')
    ensures FreshPayouts(txs, s.block.txs) && AssembledInv(c', txs + s.block.txs, n + 1)
  {
    CoinbaseIsFresh(cfg, c.store, txs, s.block.txs, r, s.block.header.height, n);
    PayoutsGrow(cfg, c.store, txs, s.block.txs, r, s.block.header.height, n);
    StepKeepsInv(cfg, c, txs, s, c');
  }

  lemma AcceptedLands(cfg: Config, st: Store, txs: seq<Transaction>, height: u64, bt: seq<Transaction>)
    requires RunInv(st, txs) && TxsOk(cfg, st, bt) && FreshPayouts(txs, bt) && height > 0
    ensures Lands(st, height, bt)
  {
    AgreesAddressed(st, txs);
    ValidationSuffices(cfg, st, height, bt);
    AcceptedAreNew(cfg, st, txs, bt);
  }

  /** The total moved by the reward: modulo 2^64, and exactly or not at all otherwise. */
  ghost predicate Grew(cfg: Config, total: int, total': int, fits: bool) {
    && Congruent(total', total + cfg.blockReward)
    && (total + cfg.blockReward < TWO64 ==>
          total' >= total + cfg.blockReward && (total' == total + cfg.blockReward <==> fits))
  }

  /** What an assembled and accepted block does to the total. */
  lemma AssembledAdds(cfg: Config, st: Store, bt: seq<Transaction>, r: Recipe, height: u64, total: int, total': int)
    requires AssembledFrom(cfg, st, bt, r.cands, height, r.proposer, r.timestamp)
    requires total' == total - InTotal(st, bt) + OutTotal(bt) && InTotal(st, bt) <= total
    ensures Grew(cfg, total, total', SumsFit(bt))
  {
    var txs := PickAll(cfg, st, r.cands).txs;
    AssembledPays(cfg, st, bt, r.cands, height, r.proposer, r.timestamp);
    AddsReward(cfg, st, bt, txs, total, total');
    if total + cfg.blockReward < TWO64 {
      AddsExactly(cfg, st, bt, txs, total, total');
      SurvivorsFit(cfg, st, bt, r, height);
    }
  }

  lemma AddedTotal(cfg: Config, c: Chain, txs: seq<Transaction>, s: Step, c': Chain)
    requires RunInv(c.store, txs) && FreshPayouts(txs, s.block.txs) && s.block.header.height > 0
    requires BlockOk(cfg, c.store, s.block, s.ctx) && AddBlock(c, s.block) == Some(c')
    ensures TotalUnspent(c'.store) == TotalUnspent(c.store) - InTotal(c.store, s.block.txs) + OutTotal(s.block.txs)
    ensures InTotal(c.store, s.block.txs) <= TotalUnspent(c.store)
  {
    AddedRecords(c, s.block, c');
    AcceptedLands(cfg, c.store, txs, s.block.header.height, s.block.txs);
    AppliedTotal(c.store, s.block.header.height, s.block.txs);
  }

  /** The coinbase's single output always fits, so only the transfers matter. */
  lemma SurvivorsFit(cfg: Config, st: Store, bt: seq<Transaction>, r: Recipe, height: u64)
    requires AssembledFrom(cfg, st, bt, r.cands, height, r.proposer, r.timestamp)
    ensures SumsFit(PickAll(cfg, st, r.cands).txs) <==> SumsFit(bt)
  {
    var k := PickAll(cfg, st, r.cands);
    var memo := CoinbaseMemo(height, cfg.blockReward, k.fees);
    CoinbaseTotals(cfg, st, r.proposer, k.fees, r.timestamp, memo);
    assert bt == [Coinbase(cfg, r.proposer, k.fees, r.timestamp, memo)] + k.txs;
    assert forall i :: 0 <= i < |k.txs| ==> bt[i + 1] == k.txs[i];
    assert forall i :: 1 <= i < |bt| ==> bt[i] == k.txs[i - 1];
  }

  lemma GenesisTotal(genesis: Block, c: Chain)
    requires GenesisShape(genesis) && AddBlock(NO_CHAIN, genesis) == Some(c)
    ensures TotalUnspent(c.store) == Supply(genesis)
  {
    NoInputsNoSpends(genesis.txs);
    DistinctPlaces(genesis.txs);
    AppliedTotal(EMPTY, 0, genesis.txs);
    SpendsTotal(EMPTY, genesis.txs);
    assert Values(EMPTY) == map[];
    assert Values(c.store) == Values(Applied(EMPTY, 0, genesis.txs));
  }

  /** No transaction of the run has outputs that sum past 64 bits. */
  predicate RunSumsFit(steps: seq<Step>) { forall i :: 0 <= i < |steps| ==> SumsFit(steps[i].block.txs) }

  /** The total a run of `n` blocks should reach. */
  function Expected(cfg: Config, genesis: Block, n: nat): nat { Supply(genesis) + n * cfg.blockReward }

  ghost predicate OnTrack(cfg: Config, genesis: Block, n: nat, total: int, fits: bool) {
    && Congruent(total, Expected(cfg, genesis, n))
    && (fits && Expected(cfg, genesis, n) < TWO64 ==> total == Expected(cfg, genesis, n))
  }

  lemma ExpectedNext(cfg: Config, genesis: Block, n: nat)
    ensures Expected(cfg, genesis, n + 1) == Expected(cfg, genesis, n) + cfg.blockReward
  {
    assert (n + 1) * cfg.blockReward == n * cfg.blockReward + cfg.blockReward;
  }

  lemma TrackStep(cfg: Config, genesis: Block, n: nat, total: int, total': int, fits: bool, fits': bool)
    requires OnTrack(cfg, genesis, n, total, fits) && Grew(cfg, total, total', fits')
    ensures OnTrack(cfg, genesis, n + 1, total', fits && fits')
  {
    ExpectedNext(cfg, genesis, n);
    CongruentAdd(total, Expected(cfg, genesis, n), total', cfg.blockReward);
  }

  lemma FitsSnoc(steps: seq<Step>, s: Step)
    ensures RunSumsFit(steps + [s]) <==> RunSumsFit(steps) && SumsFit(s.block.txs)
  {
    var all := steps + [s];
    assert all[|steps|] == s && forall i :: 0 <= i < |steps| ==> all[i] == steps[i];
  }

  lemma RunTrackStep(cfg: Config, genesis: Block, init: seq<Step>, s: Step, total: int, total': int)
    requires OnTrack(cfg, genesis, |init|, total, RunSumsFit(init)) && Grew(cfg, total, total', SumsFit(s.block.txs))
    ensures OnTrack(cfg, genesis, |init + [s]|, total', RunSumsFit(init + [s]))
  {
    TrackStep(cfg, genesis, |init|, total, total', RunSumsFit(init), SumsFit(s.block.txs));
    FitsSnoc(init, s);
  }

  /** Along an assembled run the ids are new and the chain grows by one height per block. The ids
      of the coinbases need no hypothesis, because their memo names the height. */
  lemma {:induction false} AssembledRunInv(cfg: Config, genesis: Block, steps: seq<Step>, rs: seq<Recipe>, c: Chain)
    requires GenesisShape(genesis) && GenesisMemos(genesis)
    requires AssembledRun(cfg, genesis, steps, rs) && Play(cfg, genesis, steps) == Some(c)
    ensures NewIds(genesis, steps) && AssembledInv(c, History(genesis, steps), |steps|)
    decreases |steps|
  {
    if steps == [] {
      StartKeepsInv(genesis, c);
      GenesisPayouts(genesis);
    } else {
      var n := |steps| - 1;
      var before := Play(cfg, genesis, steps[..n]).value;
      AssembledRunInv(cfg, genesis, steps[..n], rs, before);
      AssembledKeepsInv(cfg, before, History(genesis, steps[..n]), n, steps[n], rs[n], c);
    }
  }

  lemma TrackStart(cfg: Config, genesis: Block, c: Chain)
    requires GenesisShape(genesis) && AddBlock(NO_CHAIN, genesis) == Some(c)
    ensures OnTrack(cfg, genesis, 0, TotalUnspent(c.store), RunSumsFit([]))
  {
    GenesisTotal(genesis, c);
  }

  /** A run of at least one block ends with a block that adds its reward. */
  lemma LastBlock(cfg: Config, genesis: Block, init: seq<Step>, s: Step, rs: seq<Recipe>, c: Chain)
    returns (before: Chain)
    requires GenesisShape(genesis) && GenesisMemos(genesis)
    requires AssembledRun(cfg, genesis, init + [s], rs) && Play(cfg, genesis, init + [s]) == Some(c)
    ensures AssembledRun(cfg, genesis, init, rs) && Play(cfg, genesis, init) == Some(before)
    ensures Grew(cfg, TotalUnspent(before.store), TotalUnspent(c.store), SumsFit(s.block.txs))
  {
    assert (init + [s])[..|init|] == init;
    before := Play(cfg, genesis, init).value;
    AssembledRunInv(cfg, genesis, init, rs, before);
    OneMoreBlock(cfg, before, History(genesis, init), |init|, s, rs[|init|], c);
  }

  /** The total after the steps, if they can be played. */
  ghost function TotalAfter(cfg: Config, genesis: Block, steps: seq<Step>): int {
    match Play(cfg, genesis, steps) case None => 0 case Some(c) => TotalUnspent(c.store)
  }

  ghost predicate PlaysFrom(cfg: Config, genesis: Block, rs: seq<Recipe>, steps: seq<Step>) {
    AssembledRun(cfg, genesis, steps, rs) && Play(cfg, genesis, steps).Some?
  }

  /** One step of the induction below. */
  ghost predicate GrowsAt(cfg: Config, total: seq<Step> -> int, plays: seq<Step> -> bool, init: seq<Step>, s: Step) {
    plays(init + [s]) ==> plays(init) && Grew(cfg, total(init), total(init + [s]), SumsFit(s.block.txs))
  }

  /** A total that starts at the supply and grows by the reward stays on track. */
  lemma {:induction false} StaysOnTrack(cfg: Config, genesis: Block, total: seq<Step> -> int,
                                        plays: seq<Step> -> bool, steps: seq<Step>)
    requires OnTrack(cfg, genesis, 0, total([]), true) && forall init, s :: GrowsAt(cfg, total, plays, init, s)
    requires plays(steps)
    ensures OnTrack(cfg, genesis, |steps|, total(steps), RunSumsFit(steps))
  {
    if steps != [] {
      var init, s := steps[..|steps| - 1], steps[|steps| - 1];
      assert steps == init + [s];
      assert GrowsAt(cfg, total, plays, init, s);
      StaysOnTrack(cfg, genesis, total, plays, init);
      RunTrackStep(cfg, genesis, init, s, total(init), total(steps));
    }
  }

  lemma LastGrows(cfg: Config, genesis: Block, rs: seq<Recipe>, init: seq<Step>, s: Step)
    requires GenesisShape(genesis) && GenesisMemos(genesis) && PlaysFrom(cfg, genesis, rs, init + [s])
    ensures PlaysFrom(cfg, genesis, rs, init)
    ensures Grew(cfg, TotalAfter(cfg, genesis, init), TotalAfter(cfg, genesis, init + [s]), SumsFit(s.block.txs))
  {
    var before := LastBlock(cfg, genesis, init, s, rs, Play(cfg, genesis, init + [s]).value);
  }

  lemma FirstTotal(cfg: Config, genesis: Block)
    requires GenesisShape(genesis)
    ensures OnTrack(cfg, genesis, 0, TotalAfter(cfg, genesis, []), true)
  {
    GenesisKeepsInv(genesis);
    TrackStart(cfg, genesis, AddBlock(NO_CHAIN, genesis).value);
  }

  /** Along any assembled and accepted run the unspent total is the genesis supply plus one reward
      per block: modulo 2^64 always, and exactly when nothing on the way exceeds 64 bits. */
  lemma ValueConserved(cfg: Config, genesis: Block, steps: seq<Step>, rs: seq<Recipe>, c: Chain)
    requires GenesisShape(genesis) && GenesisMemos(genesis)
    requires AssembledRun(cfg, genesis, steps, rs) && Play(cfg, genesis, steps) == Some(c)
    ensures OnTrack(cfg, genesis, |steps|, TotalUnspent(c.store), RunSumsFit(steps))
  {
    assert PlaysFrom(cfg, genesis, rs, steps);
    Conserved(cfg, genesis, steps, rs);
  }

  lemma Conserved(cfg: Config, genesis: Block, steps: seq<Step>, rs: seq<Recipe>)
    requires GenesisShape(genesis) && GenesisMemos(genesis) && PlaysFrom(cfg, genesis, rs, steps)
    ensures OnTrack(cfg, genesis, |steps|, TotalAfter(cfg, genesis, steps), RunSumsFit(steps))
  {
    var total: seq<Step> -> int := st => TotalAfter(cfg, genesis, st);
    var plays: seq<Step> -> bool := st => PlaysFrom(cfg, genesis, rs, st);
    FirstTotal(cfg, genesis);
    forall init, s ensures GrowsAt(cfg, total, plays, init, s) {
      if PlaysFrom(cfg, genesis, rs, init + [s]) {
        LastGrows(cfg, genesis, rs, init, s);
      }
    }
    StaysOnTrack(cfg, genesis, total, plays, steps);
  }

  lemma OneMoreBlock(cfg: Config, c: Chain, txs: seq<Transaction>, n: nat, s: Step, r: Recipe, c': Chain)
    requires AssembledInv(c, txs, n) && AssembledOn(cfg, c, s.block, r)
    requires BlockOk(cfg, c.store, s.block, s.ctx) && AddBlock(c, s.block) == Some(c')
    ensures Grew(cfg, TotalUnspent(c.store), TotalUnspent(c'.store), SumsFit(s.block.txs))
  {
    AssembledKeepsInv(cfg, c, txs, n, s, r, c');
    AddedTotal(cfg, c, txs, s, c');
    AssembledAdds(cfg, c.store, s.block.txs, r, s.block.header.height, TotalUnspent(c.store), TotalUnspent(c'.store));
  }
}
