/** A genesis block that arrives while the chain still has height 0: the block handler of app/app.go
    imports it on top of the one that is there, and its transactions are not validated. */
module SecondGenesis {
  import opened Basics
  import opened Types
  import opened Merkle
  import opened ValidatorSets
  import opened Ledger
  import opened Validation
  import opened Replay
  import opened Conservation
  import opened BlockSync

  /** The handler adds every further genesis block whose header is in order. */
  lemma HandlerImports(cfg: Config, vs: Option<Validators>, clock: Clock, s: Sync, blk: Block)
    requires s.chain.tipHeight == 0 && blk.header.height == 0
    ensures var s' := Handle(Accepting(cfg, vs), clock, s, blk);
      && Applicable(s.chain.store, 0, blk.txs) && s'.pending == s.pending
      && (!GenesisOk(blk) ==> s' == s)
      && (GenesisOk(blk) ==>
            Some(s'.chain) == AddBlock(s.chain, blk) && Imports(s.chain.store, s'.chain.store, blk.txs))
  {
  }

  predicate Imports(st: Store, st': Store, bt: seq<Transaction>)
    requires Applicable(st, 0, bt)
  {
    st'.utxos == Applied(st, 0, bt).utxos && st'.lists == Applied(st, 0, bt).lists
  }

  /** Nothing but genesis outputs so far: every record is unspent and of height 0. */
  ghost predicate OnlyGenesis(st: Store) {
    forall p :: p in st.utxos ==> st.utxos[p] == Unspent(p, st.utxos[p].txOut, 0)
  }

  /** The inputs are ignored and the outputs are put over what is stored. */
  lemma ImportedRecords(st: Store, bt: seq<Transaction>)
    ensures Applicable(st, 0, bt)
    ensures Applied(st, 0, bt).utxos == st.utxos + NewUtxos(Places(bt), 0)
    ensures Applied(st, 0, bt).lists == st.lists + ListPaid(st, Places(bt))
    ensures OnlyGenesis(st) ==> OnlyGenesis(Applied(st, 0, bt))
  {
    assert MarkSpent(st.utxos, 0, []) == st.utxos;
  }

  /** Every output that the block places is stored already, as it stands. */
  ghost predicate AllThere(st: Store, made: map<OutPoint, TxOutput>) {
    forall p :: p in made ==> p in st.utxos && st.utxos[p].txOut == made[p]
  }

  /** No output takes a stored key to another address. */
  ghost predicate SameOwners(st: Store, made: map<OutPoint, TxOutput>) {
    forall p :: p in made && p in st.utxos ==> st.utxos[p].txOut.address == made[p].address
  }

  /** The records stay as they are exactly if all its outputs are there already, as when the same
      genesis block comes again. */
  lemma HarmlessExactly(st: Store, bt: seq<Transaction>)
    requires OnlyGenesis(st)
    ensures Applicable(st, 0, bt)
    ensures Applied(st, 0, bt).utxos == st.utxos <==> AllThere(st, OutMap(Places(bt)))
  {
    ImportedRecords(st, bt);
    var made, new' := OutMap(Places(bt)), NewUtxos(Places(bt), 0);
    if st.utxos + new' == st.utxos {
      forall p | p in made ensures p in st.utxos && st.utxos[p].txOut == made[p] {
        assert (st.utxos + new')[p] == new'[p];
      }
    }
  }

  /** Then the lists stay too. */
  lemma HarmlessLists(st: Store, bt: seq<Transaction>)
    requires OnlyGenesis(st) && ListsCover(st.utxos, st.lists) && NoDup(Points(Places(bt)))
    requires AllThere(st, OutMap(Places(bt)))
    ensures Applicable(st, 0, bt) && Applied(st, 0, bt).lists == st.lists
  {
    ImportedRecords(st, bt);
    var ps := Places(bt);
    var paid := ListPaid(st, ps);
    forall a | a in paid ensures a in st.lists && paid[a] == st.lists[a] {
      forall p | p in PaidTo(ps, a) ensures a in st.lists && p in st.lists[a] {
        PaidInOutMap(ps, a, p);
        assert Listed(st.utxos[p], st.lists, p);
      }
      var q :| q in ps && q.out.address == a;
      assert q.point in PaidTo(ps, a);
    }
  }

  lemma ValuesOver(utxos: map<OutPoint, Utxo>, ps: seq<Placed>)
    ensures ValuesOf(utxos + NewUtxos(ps, 0)) == ValuesOf(utxos) + AmountsOf(OutMap(ps))
  {
    var new' := NewUtxos(ps, 0);
    var lhs, rhs := ValuesOf(utxos + new'), ValuesOf(utxos) + AmountsOf(OutMap(ps));
    forall p ensures (p in lhs <==> p in rhs) && (p in lhs ==> lhs[p] == rhs[p]) {
      if p in OutMap(ps) {
        assert (utxos + new')[p] == new'[p];
      }
    }
  }

  /** The unspent value afterwards: that of the outputs of both, the later ones winning. */
  lemma ImportedValue(st: Store, bt: seq<Transaction>)
    ensures Applicable(st, 0, bt)
    ensures TotalUnspent(Applied(st, 0, bt)) == MapSum(Values(st) + AmountsOf(OutMap(Places(bt))))
  {
    ImportedRecords(st, bt);
    ValuesOver(st.utxos, Places(bt));
  }

  /** A block with new ids adds its whole payout to the supply. */
  lemma NewGenesisAdds(st: Store, bt: seq<Transaction>)
    requires NoDup(Points(Places(bt))) && OutMap(Places(bt)).Keys !! st.utxos.Keys
    ensures Applicable(st, 0, bt) && TotalUnspent(Applied(st, 0, bt)) == TotalUnspent(st) + OutTotal(bt)
  {
    ImportedValue(st, bt);
    MapSumUnion(Values(st), AmountsOf(OutMap(Places(bt))));
    PlacedValue(Places(bt));
    PlacesTotal(bt);
  }

  // ------------------------------------------------------------------ agreement with the replay

  lemma ImportedRecordsAre(st: Store, made: map<OutPoint, TxOutput>, bt: seq<Transaction>)
    requires OnlyGenesis(st) && RecordsAre(st.utxos, made, {})
    ensures Applicable(st, 0, bt)
    ensures RecordsAre(Applied(st, 0, bt).utxos, made + OutMap(Places(bt)), {})
  {
    ImportedRecords(st, bt);
    RecordsOver(st.utxos, made, Places(bt));
  }

  lemma RecordsOver(utxos: map<OutPoint, Utxo>, made: map<OutPoint, TxOutput>, ps: seq<Placed>)
    requires RecordsAre(utxos, made, {})
    ensures RecordsAre(utxos + NewUtxos(ps, 0), made + OutMap(ps), {})
  {
    var new' := NewUtxos(ps, 0);
    assert new'.Keys == OutMap(ps).Keys;
    forall p | p in utxos + new'
      ensures var u := (utxos + new')[p]; u.Point() == p && u.txOut == (made + OutMap(ps))[p] && !u.spent
    {
      if p in OutMap(ps) {
        assert (utxos + new')[p] == new'[p];
      }
    }
  }

  /** The lists after the import, at one address. */
  lemma ImportedList(st: Store, ps: seq<Placed>, a: Address, p: OutPoint)
    ensures var lists := st.lists + ListPaid(st, ps);
      a in lists && p in lists[a] <==> (a in st.lists && p in st.lists[a]) || (a in Payees(ps) && p in PaidTo(ps, a))
  {
  }

  lemma ImportedCover(st: Store, ps: seq<Placed>)
    requires OnlyGenesis(st) && ListsCover(st.utxos, st.lists) && NoDup(Points(ps))
    requires SameOwners(st, OutMap(ps))
    ensures ListsCover(st.utxos + NewUtxos(ps, 0), st.lists + ListPaid(st, ps))
  {
    var utxos, lists := st.utxos + NewUtxos(ps, 0), st.lists + ListPaid(st, ps);
    forall p | p in utxos ensures Listed(utxos[p], lists, p) {
      ImportedList(st, ps, utxos[p].txOut.address, p);
      if p in OutMap(ps) {
        OutMapIsPaid(ps, p);
      } else {
        assert Listed(st.utxos[p], st.lists, p);
      }
    }
    forall a, p | a in lists && p in lists[a] ensures Owned(utxos, a, p) {
      ImportedList(st, ps, a, p);
      if a in Payees(ps) && p in PaidTo(ps, a) {
        PaidInOutMap(ps, a, p);
      } else {
        assert Owned(st.utxos, a, p);
      }
    }
  }

  lemma MovedBreaksCover(st: Store, ps: seq<Placed>, p: OutPoint)
    requires OnlyGenesis(st) && ListsCover(st.utxos, st.lists)
    requires p in OutMap(ps) && p in st.utxos && st.utxos[p].txOut.address != OutMap(ps)[p].address
    ensures !ListsCover(st.utxos + NewUtxos(ps, 0), st.lists + ListPaid(st, ps))
  {
    var utxos, lists := st.utxos + NewUtxos(ps, 0), st.lists + ListPaid(st, ps);
    var a := st.utxos[p].txOut.address;
    assert Listed(st.utxos[p], st.lists, p);
    ImportedList(st, ps, a, p);
    assert !Owned(utxos, a, p);
  }

  lemma CoverExactly(st: Store, ps: seq<Placed>)
    requires OnlyGenesis(st) && ListsCover(st.utxos, st.lists) && NoDup(Points(ps))
    ensures ListsCover(st.utxos + NewUtxos(ps, 0), st.lists + ListPaid(st, ps)) <==> SameOwners(st, OutMap(ps))
  {
    if SameOwners(st, OutMap(ps)) {
      ImportedCover(st, ps);
    } else {
      var p :| p in OutMap(ps) && p in st.utxos && st.utxos[p].txOut.address != OutMap(ps)[p].address;
      MovedBreaksCover(st, ps, p);
    }
  }

  lemma NoneGone(utxos: map<OutPoint, Utxo>, made: map<OutPoint, TxOutput>, spends: seq<OutPoint>)
    requires RecordsAre(utxos, made, {})
    ensures RecordsAre(utxos, made, Elems(spends)) <==> spends == []
  {
    if spends != [] {
      assert spends[0] in Elems(spends);
    }
  }

  /** Agreement with the replay of both, part by part. */
  lemma AgreesParts(st: Store, txs: seq<Transaction>, bt: seq<Transaction>, utxos: map<OutPoint, Utxo>,
                    lists: map<Address, set<OutPoint>>)
    requires Spends(txs) == [] && lists.Keys == Payees(Places(txs)) + Payees(Places(bt))
    requires st.utxos == utxos && st.lists == lists
    ensures Agrees(st, txs + bt) <==>
      RecordsAre(utxos, OutMap(Places(txs)) + OutMap(Places(bt)), Elems(Spends(bt))) && ListsCover(utxos, lists)
  {
    ReplayConcat(txs, bt);
    assert Elems(Spends(txs)) + Elems(Spends(bt)) == Elems(Spends(bt));
  }

  lemma ImportedKeys(st: Store, txs: seq<Transaction>, bt: seq<Transaction>)
    requires Agrees(st, txs)
    ensures (st.lists + ListPaid(st, Places(bt))).Keys == Payees(Places(txs)) + Payees(Places(bt))
  {
  }

  /** The store stays in agreement with the replay of both blocks exactly if the transactions of the
      second have no inputs and none of its outputs takes a stored key to another address. */
  lemma AgreesExactly(st: Store, txs: seq<Transaction>, bt: seq<Transaction>, st': Store)
    requires OnlyGenesis(st) && Agrees(st, txs) && Spends(txs) == [] && NoDup(Points(Places(bt)))
    requires Applicable(st, 0, bt) && Imports(st, st', bt)
    ensures Agrees(st', txs + bt) <==> Spends(bt) == [] && SameOwners(st, OutMap(Places(bt)))
  {
    ImportedRecords(st, bt);
    ImportedKeys(st, txs, bt);
    AgreesParts(st', txs, bt, st.utxos + NewUtxos(Places(bt), 0), st.lists + ListPaid(st, Places(bt)));
    ImportedRecordsAre(st, OutMap(Places(txs)), bt);
    NoneGone(st'.utxos, OutMap(Places(txs)) + OutMap(Places(bt)), Spends(bt));
    CoverExactly(st, Places(bt));
  }

  /** The hypotheses hold after any genesis block, so the results above apply to the next one. */
  lemma AfterGenesis(genesis: Block, c: Chain)
    requires GenesisShape(genesis) && AddBlock(NO_CHAIN, genesis) == Some(c)
    ensures OnlyGenesis(c.store) && Agrees(c.store, genesis.txs) && Spends(genesis.txs) == []
    ensures NoDup(Points(Places(genesis.txs))) && AllThere(c.store, OutMap(Places(genesis.txs)))
  {
    StartKeepsInv(genesis, c);
    NoInputsNoSpends(genesis.txs);
    DistinctPlaces(genesis.txs);
    ImportedRecords(EMPTY, genesis.txs);
  }

  // ------------------------------------------------------------------ one that breaks the agreement

  /** A transaction with an input and no output. */
  function Spender(): Transaction { Transaction(Other(1), "", "", 0, [TxInput(Other(0), 0, "", 0)], [], "", "") }

  function Second(): Block {
    var header := Header(ZeroHash, ZeroHash, "", 0, MerkleRoot([Spender()]), 0);
    Block(header.(hash := header.ContentHash()), [Spender()], NO_ADDRESS, NO_SIGNATURE, [])
  }

  lemma SpenderShape()
    ensures Spends([Spender()]) == [OutPoint(Other(0), 0)] && Places([Spender()]) == []
  {
    var tx := Spender();
    assert [tx][..0] == [];
    assert tx.Points() == [OutPoint(Other(0), 0)] && PlacedBy(tx) == [];
    assert Spends([tx]) == Spends([]) + tx.Points();
    assert Places([tx]) == Places([]) + PlacedBy(tx);
  }

  /** After any genesis block the handler imports this one, and then the store does not agree with
      the replay: the input is in the history and was never applied. */
  lemma InputBreaksAgreement(cfg: Config, vs: Option<Validators>, clock: Clock, genesis: Block, c: Chain)
    requires GenesisShape(genesis) && AddBlock(NO_CHAIN, genesis) == Some(c)
    ensures GenesisOk(Second())
    ensures var s' := Handle(Accepting(cfg, vs), clock, Sync(c, map[], None), Second());
      Some(s'.chain) == AddBlock(c, Second()) && !Agrees(s'.chain.store, genesis.txs + Second().txs)
  {
    AfterGenesis(genesis, c);
    SpenderShape();
    HandlerImports(cfg, vs, clock, Sync(c, map[], None), Second());
    AgreesExactly(c.store, genesis.txs, [Spender()], AddBlock(c, Second()).value.store);
  }
}
