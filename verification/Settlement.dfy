/** What a built transfer does to the value of each address, whenever it is included:
    core/transaction.go over whole runs. */
module Settlement {
  import opened Basics
  import opened Types
  import opened Ledger
  import opened Validation
  import opened Replay
  import opened Transfer
  import opened Spending
  import opened Payments

  lemma OrderPays(o: Order, change: nat, outs: seq<TxOutput>, a: Address)
    requires PaysOrder(o, change, outs)
    ensures Received(outs, a) == (if a == o.to then o.amount else 0) + (if a == o.from then change else 0)
  {
    assert outs[..1][..0] == [] && outs[..|outs|] == outs;
    assert Received(outs[..1], a) == if a == o.to then o.amount else 0;
  }

  lemma {:induction false} AllFrom(made: map<OutPoint, TxOutput>, list: seq<Utxo>, ps: seq<OutPoint>, from: Address,
                                   a: Address)
    requires |ps| <= |list|
    requires forall i :: 0 <= i < |ps| ==>
      ps[i] in made && made[ps[i]] == list[i].txOut && list[i].txOut.address == from
    ensures Given(made, ps, a) == if a == from then Amounts(list[..|ps|]) else 0
  {
    if ps != [] {
      var n := |ps| - 1;
      AllFrom(made, list, ps[..n], from, a);
      assert list[..n + 1][..n] == list[..n];
    }
  }

  /** What the payment of an order does to the value of `a`. */
  function OrderNet(o: Order, a: Address): int {
    (if a == o.to then o.amount else 0) - (if a == o.from then o.amount + o.fee else 0)
  }

  lemma PrefixNet(st: Store, txs: seq<Transaction>, o: Order, list: seq<Utxo>, n: nat, tx: Transaction, a: Address)
    requires Agrees(st, txs) && Spendables(st, o.from, list) && SpendsPrefix(st, o, list, n, tx)
    ensures Net(OutMap(Places(txs)), tx, a) == OrderNet(o, a)
    ensures forall i :: 0 <= i < |tx.Points()| ==> tx.Points()[i] in OutMap(Places(txs))
  {
    OrderPays(o, Amounts(list[..n]) - o.amount - o.fee, tx.outputs, a);
    TakenFrom(st, txs, o.from, list, tx.Points());
    AllFrom(OutMap(Places(txs)), list, tx.Points(), o.from, a);
  }

  /** A transaction built in a store that agrees with the replay takes amount and fee from the
      sender, brings the amount to the recipient, and leaves everyone else alone. */
  lemma BuiltNet(cfg: Config, st: Store, txs: seq<Transaction>, reserved: set<OutPoint>, o: Order,
                 keys: seq<OutPoint>, list: seq<Utxo>, signer: Signer, tx: Transaction, a: Address)
    requires Agrees(st, txs) && Listing(st, reserved, o.from, keys, list)
    requires OrderFits(cfg, o, signer) && Amounts(list) < TWO64 && Built(cfg, o, list, signer) == Some(tx)
    ensures Net(OutMap(Places(txs)), tx, a) == OrderNet(o, a)
    ensures forall i :: 0 <= i < |tx.Points()| ==> tx.Points()[i] in OutMap(Places(txs))
  {
    BuiltIsAccepted(cfg, st, txs, reserved, o, keys, list, signer);
    ListingSpendable(st, txs, reserved, o.from, keys, list);
    PrefixNet(st, txs, o, list, Enough(list, o.Required(), 0), tx, a);
  }

  lemma TakenFrom(st: Store, txs: seq<Transaction>, from: Address, list: seq<Utxo>, ps: seq<OutPoint>)
    requires Agrees(st, txs) && Spendables(st, from, list) && |ps| <= |list|
    requires forall i :: 0 <= i < |ps| ==> ps[i] == list[i].Point()
    ensures forall i :: 0 <= i < |ps| ==> ps[i] in OutMap(Places(txs)) && OutMap(Places(txs))[ps[i]] == list[i].txOut
  {
  }

  // ------------------------------------------------------------------ built, and settled later

  ghost predicate Plays(cfg: Config, genesis: Block, steps: seq<Step>) {
    GenesisShape(genesis) && NewIds(genesis, steps) && Play(cfg, genesis, steps).Some?
  }

  /** The transactions after the first `m` blocks of a run. */
  function Later(steps: seq<Step>, m: nat): seq<Transaction>
    requires m <= |steps|
  {
    if m == |steps| then [] else Later(steps[..|steps| - 1], m) + steps[|steps| - 1].block.txs
  }

  lemma {:induction false} HistorySplit(genesis: Block, steps: seq<Step>, m: nat)
    requires m <= |steps|
    ensures History(genesis, steps) == History(genesis, steps[..m]) + Later(steps, m)
  {
    if m == |steps| {
      assert steps[..m] == steps;
    } else {
      var init := steps[..|steps| - 1];
      HistorySplit(genesis, init, m);
      assert init[..m] == steps[..m];
    }
  }

  lemma PlaysInit(cfg: Config, genesis: Block, steps: seq<Step>)
    requires steps != [] && Plays(cfg, genesis, steps)
    ensures Plays(cfg, genesis, steps[..|steps| - 1])
  {
  }

  ghost predicate ShorterToo(plays: seq<Step> -> bool, steps: seq<Step>) {
    steps != [] && plays(steps) ==> plays(steps[..|steps| - 1])
  }

  lemma {:induction false} BeginningIf(plays: seq<Step> -> bool, steps: seq<Step>, m: nat)
    requires m <= |steps| && plays(steps) && forall t :: ShorterToo(plays, t)
    ensures plays(steps[..m])
  {
    if m == |steps| {
      assert steps[..m] == steps;
    } else {
      var init := steps[..|steps| - 1];
      assert ShorterToo(plays, steps);
      BeginningIf(plays, init, m);
      assert init[..m] == steps[..m];
    }
  }

  /** The beginning of a run is a run. */
  lemma Beginning(cfg: Config, genesis: Block, steps: seq<Step>, m: nat)
    requires m <= |steps| && Plays(cfg, genesis, steps)
    ensures Plays(cfg, genesis, steps[..m])
  {
    var plays: seq<Step> -> bool := t => Plays(cfg, genesis, t);
    forall t ensures ShorterToo(plays, t) {
      if t != [] && Plays(cfg, genesis, t) {
        PlaysInit(cfg, genesis, t);
      }
    }
    BeginningIf(plays, steps, m);
  }

  /** What was placed stays placed as it was. */
  lemma MadeStays(txs: seq<Transaction>, more: seq<Transaction>, p: OutPoint)
    requires NoDup(Ids(txs + more)) && p in OutMap(Places(txs))
    ensures p in OutMap(Places(txs + more)) && OutMap(Places(txs + more))[p] == OutMap(Places(txs))[p]
  {
    NotPlacedAgain(txs, more, p);
    ReplayConcat(txs, more);
  }

  lemma NetStays(txs: seq<Transaction>, more: seq<Transaction>, tx: Transaction, a: Address)
    requires NoDup(Ids(txs + more)) && forall i :: 0 <= i < |tx.Points()| ==> tx.Points()[i] in OutMap(Places(txs))
    ensures Net(OutMap(Places(txs + more)), tx, a) == Net(OutMap(Places(txs)), tx, a)
  {
    forall i | 0 <= i < |tx.Points()|
      ensures var p := tx.Points()[i];
        p in OutMap(Places(txs + more)) && OutMap(Places(txs + more))[p] == OutMap(Places(txs))[p]
    {
      MadeStays(txs, more, tx.Points()[i]);
    }
    GivenSame(OutMap(Places(txs + more)), OutMap(Places(txs)), tx.Points(), a);
  }

  /** A built transfer that some later block includes takes amount and fee from the sender and brings
      the amount to the recipient, besides what the other transactions of that block do. */
  lemma TransferSettles(cfg: Config, genesis: Block, init: seq<Step>, s: Step, m: nat, st: Chain, o: Order,
                        reserved: set<OutPoint>, keys: seq<OutPoint>, list: seq<Utxo>, signer: Signer, i: nat,
                        a: Address)
    requires Plays(cfg, genesis, init + [s]) && m <= |init| && Play(cfg, genesis, init[..m]) == Some(st)
    requires Listing(st.store, reserved, o.from, keys, list) && OrderFits(cfg, o, signer) && Amounts(list) < TWO64
    requires i < |s.block.txs| && Built(cfg, o, list, signer) == Some(s.block.txs[i])
    ensures var txs, bt := History(genesis, init), s.block.txs;
      ValueOf(History(genesis, init + [s]), a)
        == ValueOf(txs, a) + OrderNet(o, a) + NetAll(OutMap(Places(txs)), bt[..i] + bt[i + 1..], a)
  {
    var txs, bt := History(genesis, init), s.block.txs;
    var made := OutMap(Places(txs));
    BlockMoves(cfg, genesis, init, s, Play(cfg, genesis, init + [s]).value, a);
    LaterNet(cfg, genesis, init, s, m, st, o, reserved, keys, list, signer, i, a);
    OneOfMany(made, bt, i, a);
  }

  lemma OneOfMany(made: map<OutPoint, TxOutput>, bt: seq<Transaction>, i: nat, a: Address)
    requires i < |bt|
    ensures NetAll(made, bt, a) == Net(made, bt[i], a) + NetAll(made, bt[..i] + bt[i + 1..], a)
  {
    NetConcat(made, bt[..i], bt[i + 1..], a);
    NetConcat(made, bt[..i], [bt[i]], a);
    NetConcat(made, bt[..i] + [bt[i]], bt[i + 1..], a);
    NetOne(made, bt[i], a);
    assert bt == bt[..i] + [bt[i]] + bt[i + 1..];
  }

  /** In later blocks the built transaction still moves the same. */
  lemma LaterNet(cfg: Config, genesis: Block, init: seq<Step>, s: Step, m: nat, st: Chain, o: Order,
                 reserved: set<OutPoint>, keys: seq<OutPoint>, list: seq<Utxo>, signer: Signer, i: nat, a: Address)
    requires Plays(cfg, genesis, init + [s]) && m <= |init| && Play(cfg, genesis, init[..m]) == Some(st)
    requires Listing(st.store, reserved, o.from, keys, list) && OrderFits(cfg, o, signer) && Amounts(list) < TWO64
    requires i < |s.block.txs| && Built(cfg, o, list, signer) == Some(s.block.txs[i])
    ensures Net(OutMap(Places(History(genesis, init))), s.block.txs[i], a) == OrderNet(o, a)
  {
    var then' := History(genesis, init[..m]);
    RunThen(cfg, genesis, init, s, m);
    BuiltNet(cfg, st.store, then', reserved, o, keys, list, signer, s.block.txs[i], a);
    NetStays(then', Later(init, m), s.block.txs[i], a);
  }

  lemma RunThen(cfg: Config, genesis: Block, init: seq<Step>, s: Step, m: nat)
    requires Plays(cfg, genesis, init + [s]) && m <= |init|
    ensures Plays(cfg, genesis, init[..m])
    ensures RunInv(Play(cfg, genesis, init[..m]).value.store, History(genesis, init[..m]))
    ensures History(genesis, init) == History(genesis, init[..m]) + Later(init, m)
    ensures NoDup(Ids(History(genesis, init)))
  {
    PlaysInit(cfg, genesis, init + [s]);
    assert (init + [s])[..|init + [s]| - 1] == init;
    Beginning(cfg, genesis, init, m);
    RunsAgree(cfg, genesis, init[..m], Play(cfg, genesis, init[..m]).value);
    RunsAgree(cfg, genesis, init, Play(cfg, genesis, init).value);
    HistorySplit(genesis, init, m);
  }
}
