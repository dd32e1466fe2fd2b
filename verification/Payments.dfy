/** Whose value moves: what a block does to the live value of each address, and where the reward of
    an assembled block goes: core/utxo.go and core/block.go. */
module Payments {
  import opened Basics
  import opened Types
  import opened Ledger
  import opened Validation
  import opened Replay
  import opened Assembly
  import opened Conservation
  import opened Blockchain

  /** The value that the replay leaves an address. */
  ghost function ValueOf(txs: seq<Transaction>, a: Address): int { MapSum(AmountsOf(LiveTo(txs, a))) }

  /** What the outputs pay to `a`. */
  function Received(outs: seq<TxOutput>, a: Address): nat {
    if outs == [] then 0 else
    Received(outs[..|outs| - 1], a) + if outs[|outs| - 1].address == a then outs[|outs| - 1].amount else 0
  }

  /** What `a` owned of the outputs at the given keys. */
  function Given(made: map<OutPoint, TxOutput>, ps: seq<OutPoint>, a: Address): nat {
    if ps == [] then 0 else
    Given(made, ps[..|ps| - 1], a) + GivenAt(made, ps[|ps| - 1], a)
  }

  function GivenAt(made: map<OutPoint, TxOutput>, p: OutPoint, a: Address): nat {
    if p in made && made[p].address == a then made[p].amount else 0
  }

  /** What a transaction brings `a`, less what it takes. */
  function Net(made: map<OutPoint, TxOutput>, tx: Transaction, a: Address): int {
    Received(tx.outputs, a) - Given(made, tx.Points(), a)
  }

  function NetAll(made: map<OutPoint, TxOutput>, txs: seq<Transaction>, a: Address): int {
    if txs == [] then 0 else NetAll(made, txs[..|txs| - 1], a) + Net(made, txs[|txs| - 1], a)
  }

  // ------------------------------------------------------------------ sums over keys

  function PaidBy(ps: seq<Placed>, a: Address): nat {
    if ps == [] then 0 else
    PaidBy(ps[..|ps| - 1], a) + if ps[|ps| - 1].out.address == a then ps[|ps| - 1].out.amount else 0
  }

  lemma {:induction false} PaidByConcat(ps: seq<Placed>, qs: seq<Placed>, a: Address)
    ensures PaidBy(ps + qs, a) == PaidBy(ps, a) + PaidBy(qs, a)
  {
    if qs == [] {
      assert ps + qs == ps;
    } else {
      PaidByConcat(ps, qs[..|qs| - 1], a);
      assert (ps + qs)[..|ps + qs| - 1] == ps + qs[..|qs| - 1];
    }
  }

  lemma {:induction false} GivenConcat(made: map<OutPoint, TxOutput>, ps: seq<OutPoint>, qs: seq<OutPoint>, a: Address)
    ensures Given(made, ps + qs, a) == Given(made, ps, a) + Given(made, qs, a)
  {
    if qs == [] {
      assert ps + qs == ps;
    } else {
      GivenConcat(made, ps, qs[..|qs| - 1], a);
      assert (ps + qs)[..|ps + qs| - 1] == ps + qs[..|qs| - 1];
    }
  }

  lemma {:induction false} NetConcat(made: map<OutPoint, TxOutput>, s: seq<Transaction>, t: seq<Transaction>,
                                     a: Address)
    ensures NetAll(made, s + t, a) == NetAll(made, s, a) + NetAll(made, t, a)
  {
    if t == [] {
      assert s + t == s;
    } else {
      NetConcat(made, s, t[..|t| - 1], a);
      assert (s + t)[..|s + t| - 1] == s + t[..|t| - 1];
    }
  }

  lemma NetOne(made: map<OutPoint, TxOutput>, tx: Transaction, a: Address)
    ensures NetAll(made, [tx], a) == Net(made, tx, a)
  {
    assert [tx][..0] == [];
  }

  lemma {:induction false} PlacedByPays(tx: Transaction, a: Address, n: nat)
    requires n <= |tx.outputs|
    ensures PaidBy(PlacedBy(tx)[..n], a) == Received(tx.outputs[..n], a)
  {
    if n > 0 {
      PlacedByPays(tx, a, n - 1);
      assert PlacedBy(tx)[..n][..n - 1] == PlacedBy(tx)[..n - 1];
      assert tx.outputs[..n][..n - 1] == tx.outputs[..n - 1];
    }
  }

  /** Transaction by transaction or output by output: the same. */
  lemma {:induction false} NetIs(made: map<OutPoint, TxOutput>, txs: seq<Transaction>, a: Address)
    ensures NetAll(made, txs, a) == PaidBy(Places(txs), a) - Given(made, Spends(txs), a)
  {
    if txs != [] {
      var init, last := txs[..|txs| - 1], txs[|txs| - 1];
      NetIs(made, init, a);
      PaidByConcat(Places(init), PlacedBy(last), a);
      GivenConcat(made, Spends(init), last.Points(), a);
      PlacedByPays(last, a, |last.outputs|);
      assert PlacedBy(last)[..|last.outputs|] == PlacedBy(last) && last.outputs[..|last.outputs|] == last.outputs;
    }
  }

  /** The amounts of the outputs that are paid to `a`. */
  function To(m: map<OutPoint, TxOutput>, a: Address): map<OutPoint, int> {
    map p | p in m && m[p].address == a :: m[p].amount
  }

  lemma ToLive(txs: seq<Transaction>, a: Address)
    ensures AmountsOf(LiveTo(txs, a)) == To(Live(txs), a)
  {
  }

  lemma ToUnion(m: map<OutPoint, TxOutput>, n: map<OutPoint, TxOutput>, a: Address)
    requires m.Keys !! n.Keys
    ensures To(m + n, a) == To(m, a) + To(n, a)
  {
  }

  lemma {:induction false} PaidValue(ps: seq<Placed>, a: Address)
    requires NoDup(Points(ps))
    ensures MapSum(To(OutMap(ps), a)) == PaidBy(ps, a)
  {
    if ps == [] {
      assert To(OutMap(ps), a) == map[];
    } else {
      var init, q := ps[..|ps| - 1], ps[|ps| - 1];
      assert Points(ps) == Points(init) + [q.point];
      NoDupSnoc(Points(init), q.point);
      PaidValue(init, a);
      PointNotPlaced(init, q.point);
      PaidOneMore(OutMap(init), q, a);
    }
  }

  lemma PaidOneMore(m: map<OutPoint, TxOutput>, q: Placed, a: Address)
    requires q.point !in m
    ensures MapSum(To(m[q.point := q.out], a)) == MapSum(To(m, a)) + if q.out.address == a then q.out.amount else 0
  {
    if q.out.address == a {
      MapSumInsert(To(m, a), q.point, q.out.amount);
      assert To(m[q.point := q.out], a) == To(m, a)[q.point := q.out.amount];
    } else {
      assert To(m[q.point := q.out], a) == To(m, a);
    }
  }

  /** Taking distinct outputs away takes from `a` what it owned of them. */
  lemma {:induction false} GivenValue(m: map<OutPoint, TxOutput>, ps: seq<OutPoint>, a: Address)
    requires NoDup(ps)
    ensures MapSum(To(m - Elems(ps), a)) == MapSum(To(m, a)) - Given(m, ps, a)
  {
    if ps == [] {
      assert m - Elems(ps) == m;
    } else {
      var init, p := ps[..|ps| - 1], ps[|ps| - 1];
      assert ps == init + [p];
      NoDupSnoc(init, p);
      GivenValue(m, init, a);
      GivenOneMore(m - Elems(init), p, a);
      assert m - Elems(ps) == m - Elems(init) - {p};
    }
  }

  lemma GivenOneMore(m: map<OutPoint, TxOutput>, p: OutPoint, a: Address)
    ensures MapSum(To(m - {p}, a)) == MapSum(To(m, a)) - GivenAt(m, p, a)
  {
    if p in To(m, a) {
      MapSumRemove(To(m, a), p);
      assert To(m - {p}, a) == To(m, a) - {p};
    } else {
      assert To(m - {p}, a) == To(m, a);
    }
  }

  lemma {:induction false} GivenSame(m: map<OutPoint, TxOutput>, n: map<OutPoint, TxOutput>, ps: seq<OutPoint>,
                                     a: Address)
    requires forall i :: 0 <= i < |ps| ==> ps[i] in m && ps[i] in n && m[ps[i]] == n[ps[i]]
    ensures Given(m, ps, a) == Given(n, ps, a)
  {
    if ps != [] {
      GivenSame(m, n, ps[..|ps| - 1], a);
    }
  }

  // ------------------------------------------------------------------ one block

  /** The new transactions consume live outputs, each once, and place new ones. */
  ghost predicate Extends(txs: seq<Transaction>, bt: seq<Transaction>) {
    && NoDup(Spends(bt)) && NoDup(Points(Places(bt))) && Elems(Spends(txs)) <= OutMap(Places(txs)).Keys
    && OutMap(Places(bt)).Keys !! OutMap(Places(txs)).Keys
    && forall i :: 0 <= i < |Spends(bt)| ==> Spends(bt)[i] in Live(txs)
  }

  lemma LiveAfter(txs: seq<Transaction>, bt: seq<Transaction>)
    requires Extends(txs, bt)
    ensures Live(txs + bt) == (Live(txs) - Elems(Spends(bt))) + OutMap(Places(bt))
  {
    ReplayConcat(txs, bt);
    LiveSplit(OutMap(Places(txs)), OutMap(Places(bt)), Elems(Spends(txs)), Elems(Spends(bt)));
  }

  lemma LiveSplit(made: map<OutPoint, TxOutput>, placed: map<OutPoint, TxOutput>, gone: set<OutPoint>,
                  spent: set<OutPoint>)
    requires made.Keys !! placed.Keys && gone <= made.Keys && spent <= made.Keys
    ensures (made + placed) - (gone + spent) == (made - gone - spent) + placed
  {
  }

  /** A block moves the value of each address by what its transactions bring it less what they take. */
  lemma AddressMoves(txs: seq<Transaction>, bt: seq<Transaction>, a: Address)
    requires Extends(txs, bt)
    ensures ValueOf(txs + bt, a) == ValueOf(txs, a) + NetAll(OutMap(Places(txs)), bt, a)
  {
    var kept, placed := Live(txs) - Elems(Spends(bt)), OutMap(Places(bt));
    ToLive(txs, a);
    ToLive(txs + bt, a);
    LiveAfter(txs, bt);
    ToUnion(kept, placed, a);
    MapSumUnion(To(kept, a), To(placed, a));
    GivenValue(Live(txs), Spends(bt), a);
    GivenSame(Live(txs), OutMap(Places(txs)), Spends(bt), a);
    PaidValue(Places(bt), a);
    NetIs(OutMap(Places(txs)), bt, a);
  }

  lemma AcceptedExtends(cfg: Config, st: Store, txs: seq<Transaction>, bt: seq<Transaction>)
    requires RunInv(st, txs) && TxsOk(cfg, st, bt) && FreshPayouts(txs, bt)
    ensures Extends(txs, bt)
  {
    AcceptedAreNew(cfg, st, txs, bt);
    forall p | p in Spends(bt) ensures p in Live(txs) {
      var i, j := SpendsCome(bt, p);
      assert TxOk(cfg, st, bt[i]);
      assert InputUnspent(st, bt[i].inputs[j].Point());
    }
  }

  /** Over any run of accepted blocks, each block moves the value of each address by what its
      transactions pay that address less what they consume of it. */
  lemma BlockMoves(cfg: Config, genesis: Block, init: seq<Step>, s: Step, c: Chain, a: Address)
    requires GenesisShape(genesis) && NewIds(genesis, init + [s]) && Play(cfg, genesis, init + [s]) == Some(c)
    ensures var txs := History(genesis, init);
      ValueOf(History(genesis, init + [s]), a) == ValueOf(txs, a) + NetAll(OutMap(Places(txs)), s.block.txs, a)
  {
    assert (init + [s])[..|init|] == init;
    var before := Play(cfg, genesis, init).value;
    RunsAgree(cfg, genesis, init, before);
    AcceptedExtends(cfg, before.store, History(genesis, init), s.block.txs);
    AddressMoves(History(genesis, init), s.block.txs, a);
  }

  // ------------------------------------------------------------------ the reward

  /** The first transaction only pays out: `amount` to the proposer and nothing else. */
  predicate PaysProposer(cfg: Config, tx: Transaction, height: u64, proposer: Address, amount: u64, timestamp: int) {
    && tx.inputs == [] && |tx.outputs| == 1 && tx.data == "" && MemoHeight(tx.memo) == height
    && tx.outputs[0].address == proposer && tx.outputs[0].amount == amount && tx.outputs[0].txType == 3
    && tx.version == cfg.txVersion && tx.networkId == cfg.networkId && tx.timestamp == timestamp
  }

  /** The reward and what the transfers leave over. */
  function Earned(cfg: Config, st: Store, transfers: seq<Transaction>): u64 {
    Wrap(cfg.blockReward + InTotal(st, transfers) - OutTotal(transfers))
  }

  lemma FeesAreLeftOver(reward: int, fees: int, left: int)
    requires Congruent(fees, left)
    ensures Wrap(reward + Wrap(fees)) == Wrap(reward + left)
  {
  }

  lemma CoinbasePays(cfg: Config, proposer: Address, height: u64, fees: u64, timestamp: int)
    ensures PaysProposer(cfg, CoinbaseAt(cfg, proposer, height, fees, timestamp), height, proposer,
                         Wrap(cfg.blockReward + fees), timestamp)
  {
    MemoNamesHeight(height, cfg.blockReward, fees);
  }

  lemma TransfersEarn(cfg: Config, st: Store, txs: seq<Transaction>, fees: u64)
    requires Transfers(st, txs) && FeesOk(st, txs, fees)
    ensures Wrap(cfg.blockReward + fees) == Earned(cfg, st, txs)
  {
    FeesBalance(st, txs);
    FeesAreLeftOver(cfg.blockReward, FeeSum(st, txs), InTotal(st, txs) - OutTotal(txs));
  }

  lemma PickedEarns(cfg: Config, st: Store, cands: seq<Transaction>, k: Picked)
    requires AllSpend(cands) && k == PickAll(cfg, st, cands)
    ensures Wrap(cfg.blockReward + k.fees) == Earned(cfg, st, k.txs)
  {
    PickAllOk(cfg, st, cands);
    PickedTransfer(cfg, st, cands);
    TransfersEarn(cfg, st, k.txs, k.fees);
  }

  /** An assembled block begins with the payment of the reward and the fees to its proposer. */
  lemma RewardFirst(cfg: Config, st: Store, bt: seq<Transaction>, r: Recipe, height: u64)
    requires AssembledFrom(cfg, st, bt, r.cands, height, r.proposer, r.timestamp)
    ensures bt != [] && PaysProposer(cfg, bt[0], height, r.proposer, Earned(cfg, st, bt[1..]), r.timestamp)
  {
    var k := PickAll(cfg, st, r.cands);
    CoinbasePays(cfg, r.proposer, height, k.fees, r.timestamp);
    PickedEarns(cfg, st, r.cands, k);
    assert bt[1..] == k.txs;
  }

  lemma PayoutNet(made: map<OutPoint, TxOutput>, tx: Transaction, a: Address)
    requires tx.inputs == [] && |tx.outputs| == 1
    ensures Net(made, tx, a) == if a == tx.outputs[0].address then tx.outputs[0].amount else 0
  {
    assert tx.Points() == [];
    assert Received(tx.outputs[..0], a) == 0;
  }

  /** The proposer gets the reward and the fees; otherwise only transfers count. */
  predicate EarnsIn(cfg: Config, st: Store, made: map<OutPoint, TxOutput>, bt: seq<Transaction>, proposer: Address,
                    a: Address, value: int, value': int)
  {
    && bt != []
    && value' == value + NetAll(made, bt[1..], a) + if a == proposer then Earned(cfg, st, bt[1..]) else 0
  }

  lemma AssembledNet(cfg: Config, st: Store, made: map<OutPoint, TxOutput>, bt: seq<Transaction>, r: Recipe,
                     height: u64, a: Address, value: int)
    requires AssembledFrom(cfg, st, bt, r.cands, height, r.proposer, r.timestamp)
    ensures EarnsIn(cfg, st, made, bt, r.proposer, a, value, value + NetAll(made, bt, a))
  {
    RewardFirst(cfg, st, bt, r, height);
    PayoutNet(made, bt[0], a);
    assert bt == [bt[0]] + bt[1..];
    NetConcat(made, [bt[0]], bt[1..], a);
    NetOne(made, bt[0], a);
  }

  /** An assembled run, with the chain before and after its last block. */
  ghost predicate Ends(cfg: Config, genesis: Block, init: seq<Step>, s: Step, rs: seq<Recipe>, before: Chain, c: Chain)
  {
    && GenesisShape(genesis) && GenesisMemos(genesis) && AssembledRun(cfg, genesis, init + [s], rs)
    && Play(cfg, genesis, init) == Some(before) && Play(cfg, genesis, init + [s]) == Some(c)
  }

  lemma EndsWell(cfg: Config, genesis: Block, init: seq<Step>, s: Step, rs: seq<Recipe>, before: Chain, c: Chain)
    requires Ends(cfg, genesis, init, s, rs, before, c)
    ensures NewIds(genesis, init) && NewIds(genesis, init + [s])
    ensures |init| < |rs| && AssembledOn(cfg, before, s.block, rs[|init|])
    ensures History(genesis, init + [s]) == History(genesis, init) + s.block.txs
  {
    assert (init + [s])[..|init|] == init;
    AssembledRunInv(cfg, genesis, init + [s], rs, c);
  }

  /** Over any assembled run, the value of the proposer of the last block grows by the reward and
      the fees, modulo 2^64, and otherwise the value of an address moves only by transfers. */
  lemma ProposerEarns(cfg: Config, genesis: Block, init: seq<Step>, s: Step, rs: seq<Recipe>, before: Chain, c: Chain,
                      a: Address)
    requires Ends(cfg, genesis, init, s, rs, before, c)
    ensures |init| < |rs|
    ensures EarnsIn(cfg, before.store, OutMap(Places(History(genesis, init))), s.block.txs, rs[|init|].proposer, a,
                    ValueOf(History(genesis, init), a), ValueOf(History(genesis, init + [s]), a))
  {
    var txs := History(genesis, init);
    EndsWell(cfg, genesis, init, s, rs, before, c);
    BlockMoves(cfg, genesis, init, s, c, a);
    AssembledNet(cfg, before.store, OutMap(Places(txs)), s.block.txs, rs[|init|], s.block.header.height, a,
                 ValueOf(txs, a));
  }

  /** The same for the balances read through the index before and after the block. */
  lemma BalancesMove(cfg: Config, genesis: Block, init: seq<Step>, s: Step, rs: seq<Recipe>, before: Chain, c: Chain,
                     a: Address, keys: seq<OutPoint>, list: seq<Utxo>, keys': seq<OutPoint>, list': seq<Utxo>)
    requires Ends(cfg, genesis, init, s, rs, before, c)
    requires Listing(before.store, {}, a, keys, list) && Listing(c.store, {}, a, keys', list')
    ensures |init| < |rs|
    ensures EarnsIn(cfg, before.store, OutMap(Places(History(genesis, init))), s.block.txs, rs[|init|].proposer, a,
                    SumUnspent(list), SumUnspent(list'))
  {
    EndsWell(cfg, genesis, init, s, rs, before, c);
    BalanceIsReplay(cfg, genesis, init, before, a, keys, list);
    BalanceIsReplay(cfg, genesis, init + [s], c, a, keys', list');
    ProposerEarns(cfg, genesis, init, s, rs, before, c, a);
  }
}
