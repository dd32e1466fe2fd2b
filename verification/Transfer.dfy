/** Building signed transfers, and the reservations that waiting transfers hold: `CreateSignedTx`
    in core/transaction.go with `GetUtxoList` and the mempool. */
module Transfer {
  import opened Basics
  import opened Types
  import opened Ledger
  import opened Validation
  import opened Replay
  import opened Assembly
  import opened Pool
  import opened Blockchain

  /** The sender's private key: whether it parses, and what the foreign call returns when it is
      asked for the signature of a given input. Signing twice need not give the same. */
  datatype Signer = Signer(usable: bool, sign: (Hash, int) -> Option<Signature>)

  /** What the caller of `CreateSignedTx` asks for, with the clock. */
  datatype Order = Order(from: Address, to: Address, amount: u64, fee: u64, memo: string, data: string, txType: nat,
                         publicKey: PublicKey, now: int)
  {
    function Required(): u64 { Wrap(amount + fee) }
  }

  function Amounts(list: seq<Utxo>): nat {
    if list == [] then 0 else Amounts(list[..|list| - 1]) + list[|list| - 1].txOut.amount
  }

  function Collected(list: seq<Utxo>, n: nat): u64
    requires n <= |list|
  {
    Wrap(Amounts(list[..n]))
  }

  /** How many outputs are taken, starting from `n`. */
  function Enough(list: seq<Utxo>, required: u64, n: nat): (k: nat)
    requires n <= |list|
    ensures n <= k <= |list|
    decreases |list| - n
  {
    if n == |list| || Collected(list, n) >= required then n else Enough(list, required, n + 1)
  }

  function InputsFor(list: seq<Utxo>, n: nat, publicKey: PublicKey, sig: Signature): seq<TxInput>
    requires n <= |list|
  {
    seq(n, i requires 0 <= i < n => TxInput(list[i].txId, list[i].index, publicKey, sig))
  }

  function OutputsFor(o: Order, total: u64): seq<TxOutput>
    requires total >= o.Required()
  {
    [TxOutput(o.to, o.amount, o.txType)]
    + if total > o.Required() then [TxOutput(o.from, total - o.Required(), o.txType)] else []
  }

  function Drafted(cfg: Config, o: Order, list: seq<Utxo>, n: nat): Transaction
    requires n <= |list| && Collected(list, n) >= o.Required()
  {
    var tx := Transaction(ZeroHash, cfg.txVersion, cfg.networkId, o.now, InputsFor(list, n, o.publicKey, NO_SIGNATURE),
                          OutputsFor(o, Collected(list, n)), o.memo, o.data);
    tx.(id := tx.ContentHash())
  }

  function SignedAs(tx: Transaction, sigs: seq<Signature>): Transaction
    requires |sigs| == |tx.inputs|
  {
    tx.(inputs := seq(|tx.inputs|, i requires 0 <= i < |tx.inputs| => tx.inputs[i].(signature := sigs[i])))
  }

  /** The signatures of the first `n` inputs, if none fails. */
  function Signatures(signer: Signer, id: Hash, n: nat): (sigs: Option<seq<Signature>>)
    ensures sigs.Some? ==> |sigs.value| == n
    ensures sigs.Some? ==> forall i :: 0 <= i < n ==> signer.sign(id, i) == Some(sigs.value[i])
    ensures sigs.Some? <==> forall i :: 0 <= i < n ==> signer.sign(id, i).Some?
  {
    if n == 0 then Some([]) else
    match Signatures(signer, id, n - 1)
    case None => None
    case Some(sigs) =>
      match signer.sign(id, n - 1) case None => None case Some(sig) => Some(sigs + [sig])
  }

  /** The transaction built from a listing; `None` on insufficient funds or a failing signer. */
  function Built(cfg: Config, o: Order, list: seq<Utxo>, signer: Signer): Option<Transaction> {
    var n := Enough(list, o.Required(), 0);
    if Wrap(SumUnspent(list)) < o.Required() || Collected(list, n) < o.Required() || !signer.usable then None else
    var tx := Drafted(cfg, o, list, n);
    match Signatures(signer, tx.id, n)
    case None => None
    case Some(sigs) => Some(SignedAs(tx, sigs))
  }

  /** Takes outputs from the front until they cover the required amount. */
  method CollectInputs(list: seq<Utxo>, required: u64, publicKey: PublicKey)
    returns (ins: seq<TxInput>, total: u64)
    ensures total == Collected(list, Enough(list, required, 0))
    ensures ins == InputsFor(list, Enough(list, required, 0), publicKey, NO_SIGNATURE)
  {
    ins, total := [], 0;
    var i := 0;
    while i < |list| && total < required
      invariant 0 <= i <= |list| && total == Collected(list, i)
      invariant Enough(list, required, 0) == Enough(list, required, i)
      invariant ins == InputsFor(list, i, publicKey, NO_SIGNATURE)
    {
      assert list[..i + 1][..i] == list[..i];
      WrapAdd(Amounts(list[..i]), list[i].txOut.amount);
      ins := ins + [TxInput(list[i].txId, list[i].index, publicKey, NO_SIGNATURE)];
      total := Wrap(total + list[i].txOut.amount);
      i := i + 1;
    }
  }

  method SignInputs(tx: Transaction, signer: Signer) returns (signed: Option<Transaction>)
    ensures signed.Some? <==> Signatures(signer, tx.id, |tx.inputs|).Some?
    ensures signed.Some? ==> signed.value == SignedAs(tx, Signatures(signer, tx.id, |tx.inputs|).value)
  {
    var ins := tx.inputs;
    for j := 0 to |ins|
      invariant |ins| == |tx.inputs| && forall k :: 0 <= k < j ==> signer.sign(tx.id, k).Some?
      invariant forall k :: 0 <= k < |ins| ==>
        ins[k] == if k < j then tx.inputs[k].(signature := signer.sign(tx.id, k).value) else tx.inputs[k]
    {
      var sig := signer.sign(tx.id, j);
      if sig.None? {
        return None;
      }
      ins := ins[j := ins[j].(signature := sig.value)];
    }
    assert ins == SignedAs(tx, Signatures(signer, tx.id, |tx.inputs|).value).inputs;
    signed := Some(tx.(inputs := ins));
  }

  method BuildTx(cfg: Config, o: Order, list: seq<Utxo>, signer: Signer) returns (tx: Option<Transaction>)
    ensures tx == Built(cfg, o, list, signer)
  {
    var required := Wrap(o.amount + o.fee);
    var balance := CalBalanceUtxo(list);
    if balance < required {
      return None;
    }
    var ins, total := CollectInputs(list, required, o.publicKey);
    if total < required {
      return None;
    }
    var outs := [TxOutput(o.to, o.amount, o.txType)];
    if total > required {
      outs := outs + [TxOutput(o.from, total - required, o.txType)];
    }
    assert outs == OutputsFor(o, total);
    var unsigned := Transaction(ZeroHash, cfg.txVersion, cfg.networkId, o.now, ins, outs, o.memo, o.data);
    unsigned := unsigned.(id := unsigned.ContentHash());
    if !signer.usable {
      return None;
    }
    tx := SignInputs(unsigned, signer);
  }

  /** The transaction is what is built from some listing of the sender's unreserved outputs. */
  ghost predicate BuiltFromListing(cfg: Config, st: Store, reserved: set<OutPoint>, o: Order, signer: Signer,
                                   tx: Option<Transaction>)
  {
    exists keys, list :: Listing(st, reserved, o.from, keys, list) && tx == Built(cfg, o, list, signer)
  }

  method CreateSignedTx(chain: BlockChain, o: Order, signer: Signer) returns (tx: Option<Transaction>)
    ensures if Readable(chain.db, o.from)
      then BuiltFromListing(chain.cfg, chain.db, Reserved(chain.mempool.transactions), o, signer, tx)
      else tx.None?
  {
    var listed, keys := chain.GetUtxoList(o.from, true);
    if listed.None? {
      return None;
    }
    tx := BuildTx(chain.cfg, o, listed.value, signer);
    assert Listing(chain.db, Reserved(chain.mempool.transactions), o.from, keys, listed.value);
  }

  // ------------------------------------------------------------------ built transactions are accepted

  lemma {:induction false} AmountsGrow(list: seq<Utxo>, n: nat)
    requires n <= |list|
    ensures Amounts(list[..n]) <= Amounts(list)
  {
    if n == |list| {
      assert list[..n] == list;
    } else {
      AmountsGrow(list[..|list| - 1], n);
      assert list[..|list| - 1][..n] == list[..n];
    }
  }

  lemma {:induction false} UnspentAmounts(list: seq<Utxo>)
    requires forall i :: 0 <= i < |list| ==> !list[i].spent
    ensures SumUnspent(list) == Amounts(list)
  {
    if list != [] {
      UnspentAmounts(list[..|list| - 1]);
    }
  }

  lemma CollectedExact(list: seq<Utxo>, n: nat)
    requires n <= |list| && Amounts(list) < TWO64
    ensures Collected(list, n) == Amounts(list[..n])
  {
    AmountsGrow(list, n);
    WrapSmall(Amounts(list[..n]));
  }

  /** Without overflow the shortest sufficient prefix is taken. */
  lemma {:induction false} ShortestPrefix(list: seq<Utxo>, required: u64, n: nat)
    requires n <= |list| && Amounts(list) < TWO64
    ensures var k := Enough(list, required, n);
      && (Amounts(list) >= required ==> Amounts(list[..k]) >= required)
      && (forall m :: n <= m < k ==> Amounts(list[..m]) < required)
    decreases |list| - n
  {
    CollectedExact(list, n);
    if n == |list| {
      assert list[..n] == list;
    } else if Collected(list, n) < required {
      ShortestPrefix(list, required, n + 1);
    }
  }

  /** Every listed output is stored under its own key, unspent and owned by `a`. */
  ghost predicate Spendables(st: Store, a: Address, list: seq<Utxo>) {
    forall i :: 0 <= i < |list| ==>
      list[i].Point() in st.utxos && st.utxos[list[i].Point()] == list[i] && !list[i].spent
        && list[i].txOut.address == a
  }

  lemma ListingSpendable(st: Store, txs: seq<Transaction>, reserved: set<OutPoint>, a: Address, keys: seq<OutPoint>,
                         list: seq<Utxo>)
    requires Agrees(st, txs) && Listing(st, reserved, a, keys, list)
    ensures Spendables(st, a, list)
    ensures forall i :: 0 <= i < |list| ==> list[i].Point() == keys[i]
  {
    forall i | 0 <= i < |list|
      ensures keys[i] in st.utxos && list[i] == st.utxos[keys[i]] && list[i].Point() == keys[i] && !list[i].spent
        && list[i].txOut.address == a
    {
      assert keys[i] in keys;
      assert Owned(st.utxos, a, keys[i]);
    }
  }

  lemma {:induction false} PrefixInputs(st: Store, a: Address, list: seq<Utxo>, n: nat, ps: seq<OutPoint>)
    requires Spendables(st, a, list) && n <= |list| && |ps| == n
    requires forall i :: 0 <= i < n ==> ps[i] == list[i].Point()
    ensures SumIn(st, ps) == Amounts(list[..n])
  {
    if n > 0 {
      PrefixInputs(st, a, list, n - 1, ps[..n - 1]);
      assert list[..n][..n - 1] == list[..n - 1];
    }
  }

  lemma OutputsTotal(o: Order, total: u64)
    requires total >= o.Required() && o.amount + o.fee < TWO64
    ensures SumOut(OutputsFor(o, total)) == total - o.fee
  {
    WrapSmall(o.amount + o.fee);
    var outs := OutputsFor(o, total);
    assert SumOut(outs[..0]) == 0;
    assert outs[..1] == [TxOutput(o.to, o.amount, o.txType)];
    assert outs[..1][..0] == [];
    assert SumOut(outs[..1]) == o.amount;
    assert outs[..|outs|] == outs;
  }

  /** The order as the node's configuration accepts it, signed by a key that owns `from`. */
  ghost predicate OrderFits(cfg: Config, o: Order, signer: Signer) {
    && cfg.minFee >= 1 && o.fee >= cfg.minFee && o.amount + o.fee < TWO64
    && WithinLimit(cfg.maxMemo, |o.memo|) && WithinLimit(cfg.maxData, |o.data|)
    && |o.publicKey| != 0 && cfg.addressOf(o.publicKey) == Some(o.from)
    && signer.usable
    && (forall h, i :: signer.sign(h, i).Some? && cfg.verify(o.publicKey, h, signer.sign(h, i).value))
  }

  /** What a built transaction is: it spends the first `n` listed outputs, no fewer would do, it pays
      the amount to the recipient and all that is left after the fee back to the sender. */
  ghost predicate SpendsPrefix(st: Store, o: Order, list: seq<Utxo>, n: nat, tx: Transaction) {
    && 0 < n <= |list| && |tx.inputs| == n
    && (forall i :: 0 <= i < n ==> tx.inputs[i].Point() == list[i].Point())
    && Amounts(list[..n]) >= o.amount + o.fee
    && (forall m :: 0 <= m < n ==> Amounts(list[..m]) < o.amount + o.fee)
    && SumIn(st, tx.Points()) == Amounts(list[..n])
    && PaysOrder(o, Amounts(list[..n]) - o.amount - o.fee, tx.outputs)
  }

  /** The payment, then the change if there is any. */
  predicate PaysOrder(o: Order, change: nat, outs: seq<TxOutput>) {
    && |outs| == (if change == 0 then 1 else 2)
    && outs[0].address == o.to && outs[0].amount == o.amount && outs[0].txType == o.txType
    && (change > 0 ==> outs[1].address == o.from && outs[1].amount == change && outs[1].txType == o.txType)
  }

  /** The rest of a built transaction comes from the order and the configuration. */
  ghost predicate CarriesOrder(cfg: Config, o: Order, tx: Transaction) {
    && tx.memo == o.memo && tx.data == o.data && tx.timestamp == o.now
    && tx.version == cfg.txVersion && tx.networkId == cfg.networkId
    && (forall i :: 0 <= i < |tx.inputs| ==>
          tx.inputs[i].publicKey == o.publicKey && cfg.verify(o.publicKey, tx.id, tx.inputs[i].signature))
  }

  lemma DraftHash(cfg: Config, o: Order, list: seq<Utxo>, n: nat, sigs: seq<Signature>)
    requires n <= |list| && Collected(list, n) >= o.Required() && |sigs| == n
    ensures var tx := SignedAs(Drafted(cfg, o, list, n), sigs); tx.id == tx.ContentHash()
  {
    var d := Drafted(cfg, o, list, n);
    var tx := SignedAs(d, sigs);
    assert tx.ContentHash().inputs == d.ContentHash().inputs;
  }

  /** The prefix taken without overflow. */
  lemma PrefixTaken(o: Order, list: seq<Utxo>, n: nat)
    requires Amounts(list) < TWO64 && o.amount + o.fee < TWO64 && o.fee > 0
    requires Amounts(list) >= o.amount + o.fee && n == Enough(list, o.Required(), 0)
    ensures 0 < n <= |list| && o.Required() == o.amount + o.fee && Collected(list, n) == Amounts(list[..n]) < TWO64
    ensures Amounts(list[..n]) >= o.amount + o.fee
    ensures forall m :: 0 <= m < n ==> Amounts(list[..m]) < o.amount + o.fee
  {
    WrapSmall(o.amount + o.fee);
    assert list[..0] == [];
    ShortestPrefix(list, o.Required(), 0);
    CollectedExact(list, n);
    AmountsGrow(list, n);
  }

  lemma DraftSpends(cfg: Config, st: Store, o: Order, list: seq<Utxo>, n: nat, tx: Transaction)
    requires Spendables(st, o.from, list) && Amounts(list) < TWO64 && o.amount + o.fee < TWO64 && o.fee > 0
    requires Amounts(list) >= o.amount + o.fee && n == Enough(list, o.Required(), 0)
    requires Collected(list, n) >= o.Required()
    requires tx.outputs == OutputsFor(o, Collected(list, n)) && |tx.inputs| == n
    requires forall i :: 0 <= i < n ==> tx.inputs[i].Point() == list[i].Point()
    ensures SpendsPrefix(st, o, list, n, tx) && SumIn(st, tx.Points()) < TWO64
    ensures SumIn(st, tx.Points()) - SumOut(tx.outputs) == o.fee
  {
    PrefixTaken(o, list, n);
    PrefixInputs(st, o.from, list, n, tx.Points());
    OutputsTotal(o, Collected(list, n));
  }

  lemma DraftAccepted(cfg: Config, st: Store, o: Order, list: seq<Utxo>, n: nat, sigs: seq<Signature>)
    requires Spendables(st, o.from, list) && Amounts(list) < TWO64
    requires n <= |list| && Collected(list, n) >= o.Required() && |sigs| == n
    requires SpendsPrefix(st, o, list, n, SignedAs(Drafted(cfg, o, list, n), sigs))
    requires var tx := SignedAs(Drafted(cfg, o, list, n), sigs);
      SumIn(st, tx.Points()) < TWO64 && SumIn(st, tx.Points()) - SumOut(tx.outputs) == o.fee
    requires o.fee >= cfg.minFee && WithinLimit(cfg.maxMemo, |o.memo|) && WithinLimit(cfg.maxData, |o.data|)
    requires |o.publicKey| != 0 && cfg.addressOf(o.publicKey) == Some(o.from)
    requires forall i :: 0 <= i < n ==> cfg.verify(o.publicKey, Drafted(cfg, o, list, n).id, sigs[i])
    ensures TxOk(cfg, st, SignedAs(Drafted(cfg, o, list, n), sigs))
  {
    var tx := SignedAs(Drafted(cfg, o, list, n), sigs);
    DraftHash(cfg, o, list, n, sigs);
    WrapSmall(SumIn(st, tx.Points()));
    WrapSmall(SumOut(tx.outputs));
    forall i | 0 <= i < |tx.inputs|
      ensures InputUnspent(st, tx.inputs[i].Point()) && InputOwned(cfg, st, tx.id, tx.inputs[i])
    {
      assert tx.inputs[i].Point() == list[i].Point();
    }
  }

  /** Without overflow the funds suffice exactly when they are seen to. */
  lemma {:induction false} BuiltWhen(cfg: Config, o: Order, list: seq<Utxo>, signer: Signer)
    requires Amounts(list) < TWO64 && o.amount + o.fee < TWO64
    requires signer.usable && forall h, i :: signer.sign(h, i).Some?
    requires forall i :: 0 <= i < |list| ==> !list[i].spent
    ensures Built(cfg, o, list, signer).Some? <==> Amounts(list) >= o.amount + o.fee
  {
    UnspentAmounts(list);
    WrapSmall(Amounts(list));
    WrapSmall(o.amount + o.fee);
    ShortestPrefix(list, o.Required(), 0);
    CollectedExact(list, Enough(list, o.Required(), 0));
  }

  lemma BuiltIs(cfg: Config, st: Store, o: Order, list: seq<Utxo>, signer: Signer, tx: Transaction)
    requires Spendables(st, o.from, list) && OrderFits(cfg, o, signer) && Amounts(list) < TWO64
    requires Amounts(list) >= o.amount + o.fee && Built(cfg, o, list, signer) == Some(tx)
    ensures TxOk(cfg, st, tx) && SpendsPrefix(st, o, list, Enough(list, o.Required(), 0), tx)
    ensures CarriesOrder(cfg, o, tx) && SumIn(st, tx.Points()) - SumOut(tx.outputs) == o.fee
  {
    var n := Enough(list, o.Required(), 0);
    var d := Drafted(cfg, o, list, n);
    var sigs := Signatures(signer, d.id, n).value;
    DraftSpends(cfg, st, o, list, n, tx);
    DraftAccepted(cfg, st, o, list, n, sigs);
  }

  /** In a store that agrees with a replay, and with nothing overflowing, a transaction is built
      exactly when the unreserved funds suffice, and it is accepted as it stands. */
  lemma BuiltIsAccepted(cfg: Config, st: Store, txs: seq<Transaction>, reserved: set<OutPoint>, o: Order,
                        keys: seq<OutPoint>, list: seq<Utxo>, signer: Signer)
    requires Agrees(st, txs) && Listing(st, reserved, o.from, keys, list)
    requires OrderFits(cfg, o, signer) && Amounts(list) < TWO64
    ensures Built(cfg, o, list, signer).Some? <==> Amounts(list) >= o.amount + o.fee
    ensures Built(cfg, o, list, signer).Some? ==>
      var tx := Built(cfg, o, list, signer).value;
      && TxOk(cfg, st, tx)
      && SpendsPrefix(st, o, list, Enough(list, o.Required(), 0), tx) && CarriesOrder(cfg, o, tx)
      && SumIn(st, tx.Points()) - SumOut(tx.outputs) == o.fee
      && NoDup(tx.Points()) && forall p :: p in tx.Points() ==> p !in reserved
  {
    ListingSpendable(st, txs, reserved, o.from, keys, list);
    BuiltWhen(cfg, o, list, signer);
    if Built(cfg, o, list, signer).Some? {
      var tx := Built(cfg, o, list, signer).value;
      BuiltIs(cfg, st, o, list, signer, tx);
      TakenKeys(st, reserved, o.from, keys, list, tx);
    }
  }

  lemma TakenKeys(st: Store, reserved: set<OutPoint>, a: Address, keys: seq<OutPoint>, list: seq<Utxo>, tx: Transaction)
    requires Listing(st, reserved, a, keys, list) && |tx.inputs| <= |list|
    requires forall i :: 0 <= i < |list| ==> list[i].Point() == keys[i]
    requires forall i :: 0 <= i < |tx.inputs| ==> tx.inputs[i].Point() == list[i].Point()
    ensures NoDup(tx.Points()) && forall p :: p in tx.Points() ==> p !in reserved
  {
    forall i | 0 <= i < |tx.inputs| ensures tx.Points()[i] == keys[i] && keys[i] !in reserved {
      assert keys[i] in keys;
    }
  }

  // ------------------------------------------------------------------ reservations

  /** A node as far as reservations matter. */
  datatype Node = Node(chain: Chain, pool: map<Hash, Waiting>)

  /** A transfer is created in the current state and inserted. */
  ghost predicate Submits(cfg: Config, s: Node, s': Node, o: Order, keys: seq<OutPoint>, list: seq<Utxo>,
                          signer: Signer, fee: u64)
  {
    && Listing(s.chain.store, Reserved(s.pool), o.from, keys, list)
    && var b := Built(cfg, o, list, signer);
      b.Some? && b.value.id !in s.pool && s' == s.(pool := s.pool[b.value.id := Waiting(b.value, fee)])
  }

  /** A block is applied; its transactions leave the pool. */
  ghost predicate Applies(s: Node, s': Node, blk: Block) {
    AddBlock(s.chain, blk).Some? && s' == Node(AddBlock(s.chain, blk).value, s.pool - Elems(Ids(blk.txs)))
  }

  /** A block is assembled; what does not survive selection leaves the pool. */
  ghost predicate Assembles(cfg: Config, s: Node, s': Node, cands: seq<Transaction>) {
    Candidates(s.pool, cands) && s' == s.(pool := s.pool - Elems(PickAll(cfg, s.chain.store, cands).dropped))
  }

  ghost predicate Next(cfg: Config, s: Node, s': Node) {
    || (exists o, keys, list, signer, fee :: Submits(cfg, s, s', o, keys, list, signer, fee))
    || (exists blk :: Applies(s, s', blk))
    || (exists cands :: Assembles(cfg, s, s', cands))
  }

  ghost predicate Run(cfg: Config, run: seq<Node>) {
    && run != [] && run[0].pool == map[]
    && forall i :: 0 <= i < |run| - 1 ==> Next(cfg, run[i], run[i + 1])
  }

  /** Waiting transactions claim different outputs. */
  ghost predicate Apart(m: map<Hash, Waiting>) {
    forall a, b :: a in m && b in m && a != b ==> Disjoint(m[a].tx, m[b].tx)
  }

  lemma BuiltAvoidsReserved(cfg: Config, st: Store, reserved: set<OutPoint>, o: Order, keys: seq<OutPoint>,
                            list: seq<Utxo>, signer: Signer)
    requires Listing(st, reserved, o.from, keys, list) && Built(cfg, o, list, signer).Some?
    ensures forall p :: p in Built(cfg, o, list, signer).value.Points() ==> p !in reserved
  {
    var tx := Built(cfg, o, list, signer).value;
    forall i | 0 <= i < |tx.inputs| ensures tx.Points()[i] !in reserved {
      assert tx.inputs[i].Point() == list[i].Point();
      assert keys[i] in keys;
    }
  }

  lemma ReservedHolds(m: map<Hash, Waiting>, id: Hash, p: OutPoint)
    requires id in m && p in m[id].tx.Points()
    ensures p in Reserved(m)
  {
    var i :| 0 <= i < |m[id].tx.Points()| && m[id].tx.Points()[i] == p;
    assert m[id].tx.inputs[i].Point() == p;
  }

  lemma InsertKeepsApart(m: map<Hash, Waiting>, tx: Transaction, fee: u64)
    requires Apart(m) && Keyed(m) && tx.id !in m && forall p :: p in tx.Points() ==> p !in Reserved(m)
    ensures Apart(m[tx.id := Waiting(tx, fee)]) && Keyed(m[tx.id := Waiting(tx, fee)])
  {
    forall a | a in m ensures Disjoint(m[a].tx, tx) && Disjoint(tx, m[a].tx) {
      forall p | p in m[a].tx.Points() ensures p !in tx.Points() {
        ReservedHolds(m, a, p);
      }
    }
  }

  lemma StepKeepsApart(cfg: Config, s: Node, s': Node)
    requires Apart(s.pool) && Keyed(s.pool) && Next(cfg, s, s')
    ensures Apart(s'.pool) && Keyed(s'.pool)
  {
    if o, keys, list, signer, fee :| Submits(cfg, s, s', o, keys, list, signer, fee) {
      BuiltAvoidsReserved(cfg, s.chain.store, Reserved(s.pool), o, keys, list, signer);
      InsertKeepsApart(s.pool, Built(cfg, o, list, signer).value, fee);
    }
  }

  ghost predicate KeptBy(next: (Node, Node) -> bool, inv: Node -> bool, s: Node, s': Node) {
    inv(s) && next(s, s') ==> inv(s')
  }

  /** What every step keeps holds all along. */
  lemma {:induction false} HoldsAlong(next: (Node, Node) -> bool, inv: Node -> bool, run: seq<Node>, i: nat)
    requires i < |run| && inv(run[0]) && forall s, s' :: KeptBy(next, inv, s, s')
    requires forall j :: 0 <= j < |run| - 1 ==> next(run[j], run[j + 1])
    ensures inv(run[i])
  {
    if i > 0 {
      HoldsAlong(next, inv, run, i - 1);
      assert next(run[i - 1], run[i - 1 + 1]);
      assert KeptBy(next, inv, run[i - 1], run[i]);
    }
  }

  ghost predicate WaitsApart(s: Node) { Apart(s.pool) && Keyed(s.pool) }

  /** In every reachable state no two waiting transactions share an input. */
  lemma ReservationsHold(cfg: Config, run: seq<Node>, i: nat)
    requires Run(cfg, run) && i < |run|
    ensures Apart(run[i].pool) && Keyed(run[i].pool)
  {
    var next: (Node, Node) -> bool := (s, s') => Next(cfg, s, s');
    var inv: Node -> bool := s => WaitsApart(s);
    forall s, s' ensures KeptBy(next, inv, s, s') {
      if WaitsApart(s) && Next(cfg, s, s') {
        StepKeepsApart(cfg, s, s');
      }
    }
    HoldsAlong(next, inv, run, i);
  }

  /** The valid ones among the candidates. */
  function Valid(cfg: Config, st: Store, cands: seq<Transaction>): seq<Transaction> {
    if cands == [] then [] else
    var tx := cands[|cands| - 1];
    Valid(cfg, st, cands[..|cands| - 1]) + if TxOk(cfg, st, tx) then [tx] else []
  }

  predicate PairwiseDisjoint(txs: seq<Transaction>) { forall i, j :: 0 <= i < j < |txs| ==> Disjoint(txs[i], txs[j]) }

  lemma {:induction false} DisjointSurvive(cfg: Config, st: Store, cands: seq<Transaction>)
    requires PairwiseDisjoint(cands)
    ensures PickAll(cfg, st, cands).txs == Valid(cfg, st, cands)
  {
    if cands != [] {
      var n := |cands| - 1;
      var init, tx := cands[..n], cands[n];
      DisjointSurvive(cfg, st, init);
      var k := PickAll(cfg, st, init);
      PickAllOk(cfg, st, init);
      PickAllIds(cfg, st, init);
      if TxOk(cfg, st, tx) {
        ValidHasFee(cfg, st, tx);
        NoClash(k, cands, tx);
      }
    }
  }

  lemma NoClash(k: Picked, cands: seq<Transaction>, tx: Transaction)
    requires cands != [] && tx == cands[|cands| - 1] && PairwiseDisjoint(cands)
    requires k.used == Elems(Spends(k.txs)) && forall i :: 0 <= i < |k.txs| ==> k.txs[i] in cands[..|cands| - 1]
    ensures !Clashes(k.used, tx)
  {
    forall i | 0 <= i < |tx.inputs| ensures tx.inputs[i].Point() !in k.used {
      var p := tx.inputs[i].Point();
      assert tx.Points()[i] == p;
      if p in k.used {
        OverlapsNot(k.txs, cands, tx, p);
      }
    }
  }

  lemma OverlapsNot(txs: seq<Transaction>, cands: seq<Transaction>, tx: Transaction, p: OutPoint)
    requires cands != [] && tx == cands[|cands| - 1] && PairwiseDisjoint(cands)
    requires p in Spends(txs) && forall i :: 0 <= i < |txs| ==> txs[i] in cands[..|cands| - 1]
    ensures p !in tx.Points()
  {
    var u := SpentBy(txs, p);
    var j :| 0 <= j < |cands| - 1 && cands[j] == u;
    assert Disjoint(cands[j], tx);
  }

  /** So in every reachable state a block is assembled from all candidates that are valid: none is
      dropped as a double spend. */
  lemma NothingDroppedAsDoubleSpend(cfg: Config, run: seq<Node>, i: nat, cands: seq<Transaction>)
    requires Run(cfg, run) && i < |run| && Candidates(run[i].pool, cands)
    ensures PickAll(cfg, run[i].chain.store, cands).txs == Valid(cfg, run[i].chain.store, cands)
  {
    ReservationsHold(cfg, run, i);
    var m := run[i].pool;
    forall j, k | 0 <= j < k < |cands| ensures Disjoint(cands[j], cands[k]) {
      assert Ids(cands)[j] != Ids(cands)[k];
      assert m[cands[j].id].tx == cands[j] && m[cands[k].id].tx == cands[k];
    }
    DisjointSurvive(cfg, run[i].chain.store, cands);
  }
}
