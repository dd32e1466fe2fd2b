/** Building a block from candidate transactions: `SetBlock` and `createCoinbaseTx` in
    core/block.go. */
module Assembly {
  import opened Basics
  import opened Types
  import opened Merkle
  import opened Ledger
  import opened Validation

  // ------------------------------------------------------------------ the coinbase memo

  function Digit(d: nat): char
    requires d < 10
  {
    "0123456789"[d]
  }

  /** Decimal rendering of a number. */
  function Dec(n: nat): (s: string)
    ensures s != []
  {
    if n < 10 then [Digit(n)] else Dec(n / 10) + [Digit(n % 10)]
  }

  function MemoTail(reward: nat, fees: nat): string { "Coinbase: reward=" + Dec(reward) + ", fees=" + Dec(fees) }

  function CoinbaseMemo(height: nat, reward: nat, fees: nat): string {
    "Block " + (Dec(height) + (" " + MemoTail(reward, fees)))
  }

  function DigitValue(c: char): int { c as int - '0' as int }

  /** Reading a decimal number back. */
  function ParseDec(s: string): int {
    if s == [] then 0 else 10 * ParseDec(s[..|s| - 1]) + DigitValue(s[|s| - 1])
  }

  lemma DigitBack(d: nat)
    requires d < 10
    ensures DigitValue(Digit(d)) == d && Digit(d) != ' '
  {
  }

  lemma {:induction false} ParseOfDec(n: nat)
    ensures ParseDec(Dec(n)) == n && ' ' !in Dec(n)
  {
    DigitBack(n % 10);
    if n < 10 {
      assert Dec(n)[..0] == [];
    } else {
      ParseOfDec(n / 10);
      assert Dec(n)[..|Dec(n)| - 1] == Dec(n / 10);
    }
  }

  /** The text up to the first space. */
  function Word(s: string): string { if s == [] || s[0] == ' ' then [] else [s[0]] + Word(s[1..]) }

  lemma {:induction false} WordBeforeSpace(a: string, x: string)
    requires ' ' !in a
    ensures Word(a + (" " + x)) == a
  {
    var s := a + (" " + x);
    if a == [] {
      assert s[0] == ' ';
    } else {
      WordBeforeSpace(a[1..], x);
      assert s[1..] == a[1..] + (" " + x);
    }
  }

  /** The height that a coinbase memo names; 0 for any other memo. */
  function MemoHeight(memo: string): int {
    if |memo| >= 6 && memo[..6] == "Block " then ParseDec(Word(memo[6..])) else 0
  }

  lemma MemoNamesHeight(height: nat, reward: nat, fees: nat)
    ensures MemoHeight(CoinbaseMemo(height, reward, fees)) == height
  {
    var rest := Dec(height) + (" " + MemoTail(reward, fees));
    var memo := "Block " + rest;
    assert memo[..6] == "Block " && memo[6..] == rest;
    ParseOfDec(height);
    WordBeforeSpace(Dec(height), MemoTail(reward, fees));
  }

  // ------------------------------------------------------------------ assembling

  const TX_COINBASE := 3

  /** Pays the reward and the fees to the proposer. */
  function Coinbase(cfg: Config, proposer: Address, fees: u64, timestamp: int, memo: string): Transaction {
    var tx := Transaction(
                ZeroHash, cfg.txVersion, cfg.networkId, timestamp, [],
                [TxOutput(proposer, Wrap(cfg.blockReward + fees), TX_COINBASE)], memo, "");
    tx.(id := tx.ContentHash())
  }

  /** The coinbase of the block at `height`. */
  function CoinbaseAt(cfg: Config, proposer: Address, height: u64, fees: u64, timestamp: int): Transaction {
    Coinbase(cfg, proposer, fees, timestamp, CoinbaseMemo(height, cfg.blockReward, fees))
  }

  /** `CalculateTxFee`: input value less output value, each as a wrapped sum. */
  function FeeOf(st: Store, tx: Transaction): Option<u64> {
    if tx.inputs == [] then Some(0)
    else if exists i :: 0 <= i < |tx.inputs| && tx.inputs[i].Point() !in st.utxos then None
    else if Wrap(SumIn(st, tx.Points())) < Wrap(SumOut(tx.outputs)) then None
    else Some(Wrap(SumIn(st, tx.Points())) - Wrap(SumOut(tx.outputs)))
  }

  /** The state of the selection loop. */
  datatype Picked = Picked(txs: seq<Transaction>, used: set<OutPoint>, fees: u64, dropped: seq<Hash>)

  predicate Clashes(used: set<OutPoint>, tx: Transaction) {
    exists i :: 0 <= i < |tx.inputs| && tx.inputs[i].Point() in used
  }

  predicate Takes(cfg: Config, st: Store, k: Picked, tx: Transaction) {
    TxOk(cfg, st, tx) && !Clashes(k.used, tx) && FeeOf(st, tx).Some?
  }

  function Taken(k: Picked, tx: Transaction, fee: u64): Picked {
    Picked(k.txs + [tx], k.used + Elems(tx.Points()), Wrap(k.fees + fee), k.dropped)
  }

  function PickNext(cfg: Config, st: Store, k: Picked, tx: Transaction): Picked {
    if Takes(cfg, st, k, tx) then Taken(k, tx, FeeOf(st, tx).value) else k.(dropped := k.dropped + [tx.id])
  }

  function PickAll(cfg: Config, st: Store, cands: seq<Transaction>): Picked {
    if cands == [] then Picked([], {}, 0, [])
    else PickNext(cfg, st, PickAll(cfg, st, cands[..|cands| - 1]), cands[|cands| - 1])
  }

  function BlockTxs(cfg: Config, st: Store, cands: seq<Transaction>, height: u64, proposer: Address,
                    timestamp: int): seq<Transaction>
  {
    var k := PickAll(cfg, st, cands);
    if proposer == NO_ADDRESS then k.txs else [CoinbaseAt(cfg, proposer, height, k.fees, timestamp)] + k.txs
  }

  function SetBlock(cfg: Config, st: Store, cands: seq<Transaction>, prevHash: Hash, height: u64,
                    proposer: Address, timestamp: int): Block
  {
    var txs := BlockTxs(cfg, st, cands, height, proposer, timestamp);
    var header := Header(ZeroHash, prevHash, cfg.protocol, height, MerkleRoot(txs), timestamp);
    Block(header.(hash := header.ContentHash()), txs, proposer, NO_SIGNATURE, [])
  }

  // ------------------------------------------------------------------ what survives selection

  /** Exact sum of the fees, each as `CalculateTxFee` reports it. */
  function FeeSum(st: Store, txs: seq<Transaction>): int {
    if txs == [] then 0 else
    FeeSum(st, txs[..|txs| - 1]) + (match FeeOf(st, txs[|txs| - 1]) case Some(f) => f case None => 0)
  }

  lemma SnocTxOk(cfg: Config, st: Store, txs: seq<Transaction>, tx: Transaction)
    requires EachTxOk(cfg, st, txs) && TxOk(cfg, st, tx)
    ensures EachTxOk(cfg, st, txs + [tx])
  {
  }

  /** The loop's bookkeeping. */
  ghost predicate PickedOk(st: Store, k: Picked) {
    UsedOk(k.txs, k.used) && FeesOk(st, k.txs, k.fees) && RepeatsOk(k.txs)
  }

  ghost predicate UsedOk(txs: seq<Transaction>, used: set<OutPoint>) { used == Elems(Spends(txs)) }

  ghost predicate FeesOk(st: Store, txs: seq<Transaction>, fees: u64) { fees == Wrap(FeeSum(st, txs)) }

  /** Nothing is spent twice unless one transaction repeats an input. */
  ghost predicate RepeatsOk(txs: seq<Transaction>) { NoDup(Spends(txs)) <==> EachDistinct(txs) }

  lemma SnocSpends(txs: seq<Transaction>, tx: Transaction)
    ensures Spends(txs + [tx]) == Spends(txs) + tx.Points()
  {
    assert (txs + [tx])[..|txs|] == txs;
  }

  lemma SnocFees(st: Store, txs: seq<Transaction>, tx: Transaction)
    requires FeeOf(st, tx).Some?
    ensures FeeSum(st, txs + [tx]) == FeeSum(st, txs) + FeeOf(st, tx).value
  {
    assert (txs + [tx])[..|txs|] == txs;
  }

  predicate EachDistinct(txs: seq<Transaction>) { forall i :: 0 <= i < |txs| ==> NoDup(txs[i].Points()) }

  lemma TakenDistinct(k: Picked, tx: Transaction)
    requires UsedOk(k.txs, k.used) && !Clashes(k.used, tx) && RepeatsOk(k.txs)
    ensures RepeatsOk(k.txs + [tx])
  {
    SnocSpends(k.txs, tx);
    ApartFromUsed(k, tx);
    NoDupConcat(Spends(k.txs), tx.Points());
    var t := k.txs + [tx];
    assert t[|k.txs|] == tx && forall i :: 0 <= i < |k.txs| ==> t[i] == k.txs[i];
    assert EachDistinct(t) <==> EachDistinct(k.txs) && NoDup(tx.Points());
  }

  lemma TakenUsed(k: Picked, tx: Transaction)
    requires UsedOk(k.txs, k.used)
    ensures UsedOk(k.txs + [tx], k.used + Elems(tx.Points()))
  {
    SnocSpends(k.txs, tx);
    ElemsConcat(Spends(k.txs), tx.Points());
  }

  lemma TakenFees(st: Store, k: Picked, tx: Transaction, fee: u64)
    requires FeesOk(st, k.txs, k.fees) && FeeSum(st, k.txs + [tx]) == FeeSum(st, k.txs) + fee
    ensures FeesOk(st, k.txs + [tx], Wrap(k.fees + fee))
  {
    WrapAdd(FeeSum(st, k.txs), fee);
  }

  lemma TakenOk(st: Store, k: Picked, tx: Transaction, fee: u64)
    requires PickedOk(st, k) && !Clashes(k.used, tx) && FeeSum(st, k.txs + [tx]) == FeeSum(st, k.txs) + fee
    ensures PickedOk(st, Taken(k, tx, fee))
  {
    TakenUsed(k, tx);
    TakenFees(st, k, tx, fee);
    TakenDistinct(k, tx);
  }

  lemma ApartFromUsed(k: Picked, tx: Transaction)
    requires k.used == Elems(Spends(k.txs)) && !Clashes(k.used, tx)
    ensures forall p :: p in Spends(k.txs) ==> p !in tx.Points()
  {
    forall p | p in tx.Points() ensures p !in Spends(k.txs) {
      var i :| 0 <= i < |tx.Points()| && tx.Points()[i] == p;
      assert tx.inputs[i].Point() == p;
      assert p !in k.used;
    }
  }

  lemma {:induction false} PickAllOk(cfg: Config, st: Store, cands: seq<Transaction>)
    ensures PickedOk(st, PickAll(cfg, st, cands))
  {
    if cands != [] {
      PickAllOk(cfg, st, cands[..|cands| - 1]);
      var k, tx := PickAll(cfg, st, cands[..|cands| - 1]), cands[|cands| - 1];
      if Takes(cfg, st, k, tx) {
        SnocFees(st, k.txs, tx);
        TakenOk(st, k, tx, FeeOf(st, tx).value);
      }
    }
  }

  lemma {:induction false} PickAllValid(cfg: Config, st: Store, cands: seq<Transaction>)
    ensures EachTxOk(cfg, st, PickAll(cfg, st, cands).txs)
  {
    if cands != [] {
      PickAllValid(cfg, st, cands[..|cands| - 1]);
      var k, tx := PickAll(cfg, st, cands[..|cands| - 1]), cands[|cands| - 1];
      if Takes(cfg, st, k, tx) {
        SnocTxOk(cfg, st, k.txs, tx);
      }
    }
  }

  predicate Among(txs: seq<Transaction>, cands: seq<Transaction>) {
    (forall i :: 0 <= i < |txs| ==> txs[i] in cands) && (NoDup(Ids(cands)) ==> NoDup(Ids(txs)))
  }

  lemma AmongSnoc(txs: seq<Transaction>, init: seq<Transaction>, tx: Transaction)
    requires Among(txs, init)
    ensures Among(txs, init + [tx]) && Among(txs + [tx], init + [tx])
  {
    assert Ids(init + [tx]) == Ids(init) + [tx.id];
    NoDupSnoc(Ids(init), tx.id);
    assert Ids(txs + [tx]) == Ids(txs) + [tx.id];
    NoDupSnoc(Ids(txs), tx.id);
    if tx.id !in Ids(init) {
      forall i | 0 <= i < |txs| ensures Ids(txs)[i] != tx.id {
        var j :| 0 <= j < |init| && init[j] == txs[i];
        assert Ids(init)[j] == txs[i].id;
      }
    }
  }

  /** `txs` is `cands` with some left out. */
  predicate Subsequence(txs: seq<Transaction>, cands: seq<Transaction>)
    decreases |cands|
  {
    txs == [] ||
    (cands != [] &&
     (var init := cands[..|cands| - 1];
      || Subsequence(txs, init)
      || (txs[|txs| - 1] == cands[|cands| - 1] && Subsequence(txs[..|txs| - 1], init))))
  }

  /** Survivors keep the order of the candidates. */
  lemma {:induction false} PickAllInOrder(cfg: Config, st: Store, cands: seq<Transaction>)
    ensures Subsequence(PickAll(cfg, st, cands).txs, cands)
  {
    if cands != [] {
      PickAllInOrder(cfg, st, cands[..|cands| - 1]);
      var k, tx := PickAll(cfg, st, cands[..|cands| - 1]), cands[|cands| - 1];
      assert (k.txs + [tx])[..|k.txs|] == k.txs;
    }
  }

  /** Survivors are candidates, without repetition. */
  lemma {:induction false} PickAllIds(cfg: Config, st: Store, cands: seq<Transaction>)
    ensures Among(PickAll(cfg, st, cands).txs, cands)
  {
    if cands != [] {
      var init, tx := cands[..|cands| - 1], cands[|cands| - 1];
      PickAllIds(cfg, st, init);
      assert cands == init + [tx];
      AmongSnoc(PickAll(cfg, st, init).txs, init, tx);
    }
  }

  // ------------------------------------------------------------------ which candidates survive

  predicate Disjoint(s: Transaction, t: Transaction) { forall p :: p in s.Points() ==> p !in t.Points() }

  lemma IdsApart(cands: seq<Transaction>, i: nat)
    requires NoDup(Ids(cands)) && i < |cands| - 1
    ensures cands[i] != cands[|cands| - 1]
  {
    assert Ids(cands)[i] != Ids(cands)[|cands| - 1];
  }

  lemma IdsInit(cands: seq<Transaction>, m: nat)
    requires NoDup(Ids(cands)) && m <= |cands|
    ensures NoDup(Ids(cands[..m]))
  {
    assert Ids(cands[..m]) == Ids(cands)[..m];
  }

  /** Later candidates do not change the fate of earlier ones. */
  lemma {:induction false} FateSettled(cfg: Config, st: Store, cands: seq<Transaction>, m: nat, i: nat)
    requires NoDup(Ids(cands)) && i < m <= |cands|
    ensures cands[i] in PickAll(cfg, st, cands[..m]).txs <==> cands[i] in PickAll(cfg, st, cands).txs
  {
    if m == |cands| {
      assert cands[..m] == cands;
    } else {
      var init := cands[..|cands| - 1];
      IdsInit(cands, |init|);
      FateSettled(cfg, st, init, m, i);
      assert init[..m] == cands[..m];
      IdsApart(cands, i);
    }
  }

  lemma LastTaken(cfg: Config, st: Store, cands: seq<Transaction>)
    requires cands != [] && NoDup(Ids(cands))
    ensures var n := |cands| - 1;
      cands[n] in PickAll(cfg, st, cands).txs <==> Takes(cfg, st, PickAll(cfg, st, cands[..n]), cands[n])
  {
    var n := |cands| - 1;
    var k := PickAll(cfg, st, cands[..n]);
    PickAllIds(cfg, st, cands[..n]);
    forall j | 0 <= j < |k.txs| ensures k.txs[j] != cands[n] {
      var i :| 0 <= i < n && cands[..n][i] == k.txs[j];
      IdsApart(cands, i);
    }
  }

  /** The last candidate is taken exactly if it is valid and shares no input with a survivor. */
  lemma LastFate(cfg: Config, st: Store, cands: seq<Transaction>)
    requires cands != [] && NoDup(Ids(cands))
    ensures var n := |cands| - 1;
      cands[n] in PickAll(cfg, st, cands).txs <==>
        TxOk(cfg, st, cands[n]) && forall u :: u in PickAll(cfg, st, cands[..n]).txs ==> Disjoint(u, cands[n])
  {
    var n := |cands| - 1;
    var k, tx := PickAll(cfg, st, cands[..n]), cands[n];
    PickAllOk(cfg, st, cands[..n]);
    LastTaken(cfg, st, cands);
    ClashesExactly(k.txs, tx);
    if TxOk(cfg, st, tx) {
      ValidHasFee(cfg, st, tx);
    }
  }

  lemma ClashesExactly(txs: seq<Transaction>, tx: Transaction)
    ensures !Clashes(Elems(Spends(txs)), tx) <==> forall u :: u in txs ==> Disjoint(u, tx)
  {
    if Clashes(Elems(Spends(txs)), tx) {
      var i :| 0 <= i < |tx.inputs| && tx.inputs[i].Point() in Spends(txs);
      assert tx.Points()[i] == tx.inputs[i].Point();
      var u := SpentBy(txs, tx.inputs[i].Point());
      assert !Disjoint(u, tx);
    } else {
      forall u, p | u in txs && p in u.Points() ensures p !in tx.Points() {
        SpentIsListed(txs, u, p);
        assert forall i :: 0 <= i < |tx.inputs| ==> tx.Points()[i] == tx.inputs[i].Point();
      }
    }
  }

  lemma {:induction false} SpentBy(txs: seq<Transaction>, p: OutPoint) returns (u: Transaction)
    requires p in Spends(txs)
    ensures u in txs && p in u.Points()
  {
    if p in txs[|txs| - 1].Points() {
      u := txs[|txs| - 1];
    } else {
      u := SpentBy(txs[..|txs| - 1], p);
    }
  }

  lemma {:induction false} SpentIsListed(txs: seq<Transaction>, u: Transaction, p: OutPoint)
    requires u in txs && p in u.Points()
    ensures p in Spends(txs)
  {
    if u != txs[|txs| - 1] {
      SpentIsListed(txs[..|txs| - 1], u, p);
    }
  }

  lemma ValidHasFee(cfg: Config, st: Store, tx: Transaction)
    requires TxOk(cfg, st, tx)
    ensures FeeOf(st, tx).Some?
  {
    assert tx.inputs != [] ==> forall i :: 0 <= i < |tx.inputs| ==> InputUnspent(st, tx.inputs[i].Point());
  }

  /** A candidate survives exactly if it is valid and shares no input with an earlier survivor. */
  lemma SurvivesExactly(cfg: Config, st: Store, cands: seq<Transaction>, i: nat)
    requires NoDup(Ids(cands)) && i < |cands|
    ensures var txs := PickAll(cfg, st, cands).txs;
      cands[i] in txs <==>
        TxOk(cfg, st, cands[i]) && forall j :: 0 <= j < i && cands[j] in txs ==> Disjoint(cands[j], cands[i])
  {
    var earlier := cands[..i + 1];
    IdsInit(cands, i + 1);
    assert earlier[..i] == cands[..i];
    FateSettled(cfg, st, cands, i + 1, i);
    LastFate(cfg, st, earlier);
    EarlierSurvivors(cfg, st, cands, i);
  }

  /** The survivors among the first `i`. */
  lemma EarlierSurvivors(cfg: Config, st: Store, cands: seq<Transaction>, i: nat)
    requires NoDup(Ids(cands)) && i <= |cands|
    ensures forall j :: 0 <= j < i ==>
      (cands[j] in PickAll(cfg, st, cands[..i]).txs <==> cands[j] in PickAll(cfg, st, cands).txs)
    ensures forall u :: u in PickAll(cfg, st, cands[..i]).txs ==> exists j :: 0 <= j < i && cands[j] == u
  {
    forall j | 0 <= j < i
      ensures cands[j] in PickAll(cfg, st, cands[..i]).txs <==> cands[j] in PickAll(cfg, st, cands).txs
    {
      FateSettled(cfg, st, cands, i, j);
    }
    PickAllIds(cfg, st, cands[..i]);
  }

  /** What is dropped: the ids of the candidates that do not survive, in their order. */
  function Losers(txs: seq<Transaction>, cands: seq<Transaction>): seq<Hash> {
    if cands == [] then [] else
    var tx := cands[|cands| - 1];
    Losers(txs, cands[..|cands| - 1]) + if tx in txs then [] else [tx.id]
  }

  lemma {:induction false} LosersSame(s: seq<Transaction>, t: seq<Transaction>, cands: seq<Transaction>)
    requires forall i :: 0 <= i < |cands| ==> (cands[i] in s <==> cands[i] in t)
    ensures Losers(s, cands) == Losers(t, cands)
  {
    if cands != [] {
      LosersSame(s, t, cands[..|cands| - 1]);
    }
  }

  lemma {:induction false} DroppedExactly(cfg: Config, st: Store, cands: seq<Transaction>)
    requires NoDup(Ids(cands))
    ensures PickAll(cfg, st, cands).dropped == Losers(PickAll(cfg, st, cands).txs, cands)
  {
    if cands != [] {
      var n := |cands| - 1;
      var k, k' := PickAll(cfg, st, cands[..n]), PickAll(cfg, st, cands);
      IdsInit(cands, n);
      DroppedExactly(cfg, st, cands[..n]);
      EarlierSurvivors(cfg, st, cands, n);
      LosersSame(k.txs, k'.txs, cands[..n]);
      LastTaken(cfg, st, cands);
    }
  }

  // ------------------------------------------------------------------ assembled blocks validate

  /** The conditions under which an assembled block passes: all known before it is proposed. */
  ghost predicate AssemblyFits(cfg: Config, st: Store, prev: Block, cands: seq<Transaction>, height: u64,
                               proposer: Address, timestamp: int, now: int)
  {
    var k := PickAll(cfg, st, cands);
    var coinbase := CoinbaseAt(cfg, proposer, height, k.fees, timestamp);
    && proposer != NO_ADDRESS
    && prev.header.timestamp <= timestamp <= now + MAX_FUTURE_BLOCK_TIME
    && CoinbaseFits(cfg, k, coinbase)
  }

  lemma CoinbaseVerdict(cfg: Config, st: Store, proposer: Address, fees: u64, timestamp: int, memo: string)
    ensures var tx := Coinbase(cfg, proposer, fees, timestamp, memo);
      && tx.id == tx.ContentHash() && tx.Points() == []
      && (TxOk(cfg, st, tx) <==> Wrap(cfg.blockReward + fees) != 0 && WithinLimit(cfg.maxMemo, |tx.memo|))
  {
    var tx := Coinbase(cfg, proposer, fees, timestamp, memo);
    assert SumOut(tx.outputs[..0]) == 0;
    assert SumOut(tx.outputs) == tx.outputs[0].amount;
  }

  lemma ConsTxs(tx: Transaction, txs: seq<Transaction>)
    requires tx.Points() == []
    ensures Spends([tx] + txs) == Spends(txs)
    ensures Ids([tx] + txs) == [tx.id] + Ids(txs)
    ensures NoDup(Ids([tx] + txs)) <==> NoDup(Ids(txs)) && tx.id !in Ids(txs)
  {
    SpendsConcat([tx], txs);
    assert Spends([tx]) == Spends([tx][..0]) + tx.Points();
    NoDupConcat([tx.id], Ids(txs));
    assert tx.id in [tx.id];
  }

  lemma ConsTxOk(cfg: Config, st: Store, tx: Transaction, txs: seq<Transaction>)
    requires EachTxOk(cfg, st, txs)
    ensures EachTxOk(cfg, st, [tx] + txs) <==> TxOk(cfg, st, tx)
  {
    var all := [tx] + txs;
    assert all[0] == tx;
    assert forall i :: 1 <= i < |all| ==> all[i] == txs[i - 1];
  }

  ghost predicate CoinbaseFits(cfg: Config, k: Picked, coinbase: Transaction) {
    && |k.txs| <= MAX_TXS_PER_BLOCK - 1
    && EachDistinct(k.txs)
    && coinbase.id !in Ids(k.txs)
    && Wrap(cfg.blockReward + k.fees) != 0
    && WithinLimit(cfg.maxMemo, |coinbase.memo|)
  }

  lemma PrefixedTxs(cfg: Config, st: Store, k: Picked, tx: Transaction)
    requires PickedOk(st, k) && EachTxOk(cfg, st, k.txs) && NoDup(Ids(k.txs)) && tx.Points() == []
    ensures TxsOk(cfg, st, [tx] + k.txs) <==>
      |k.txs| <= MAX_TXS_PER_BLOCK - 1 && EachDistinct(k.txs) && tx.id !in Ids(k.txs) && TxOk(cfg, st, tx)
  {
    ConsTxs(tx, k.txs);
    ConsTxOk(cfg, st, tx, k.txs);
  }

  /** The transactions of an assembled block pass exactly under the size, repetition and coinbase
      conditions: the selection loop has taken care of the rest. */
  lemma AssembledTxs(cfg: Config, st: Store, cands: seq<Transaction>, k: Picked, proposer: Address, timestamp: int,
                     memo: string)
    requires NoDup(Ids(cands)) && k == PickAll(cfg, st, cands)
    ensures var coinbase := Coinbase(cfg, proposer, k.fees, timestamp, memo);
      TxsOk(cfg, st, [coinbase] + k.txs) <==> CoinbaseFits(cfg, k, coinbase)
  {
    PickAllOk(cfg, st, cands);
    PickAllValid(cfg, st, cands);
    PickAllIds(cfg, st, cands);
    PrefixedWithCoinbase(cfg, st, k, proposer, timestamp, memo);
  }

  lemma PrefixedWithCoinbase(cfg: Config, st: Store, k: Picked, proposer: Address, timestamp: int, memo: string)
    requires PickedOk(st, k) && EachTxOk(cfg, st, k.txs) && NoDup(Ids(k.txs))
    ensures var coinbase := Coinbase(cfg, proposer, k.fees, timestamp, memo);
      TxsOk(cfg, st, [coinbase] + k.txs) <==> CoinbaseFits(cfg, k, coinbase)
  {
    CoinbaseVerdict(cfg, st, proposer, k.fees, timestamp, memo);
    PrefixedTxs(cfg, st, k, Coinbase(cfg, proposer, k.fees, timestamp, memo));
  }

  /** A block assembled on the tip and signed by its proposer is accepted, without certificate
      check, exactly when it fits and its proposer is an active validator whose signature verifies. */
  lemma AssembledBlockAccepted(cfg: Config, st: Store, prev: Block, cands: seq<Transaction>, height: u64,
                               proposer: Address, timestamp: int, sig: Signature, ctx: Context)
    requires 0 < height && BlockAt(st, height - 1) == Some(prev) && prev.header.height == height - 1
    requires NoDup(Ids(cands)) && !ctx.checkCommit
    ensures var blk := SetBlock(cfg, st, cands, prev.header.hash, height, proposer, timestamp).(signature := sig);
      BlockOk(cfg, st, blk, ctx) <==>
        && AssemblyFits(cfg, st, prev, cands, height, proposer, timestamp, ctx.now)
        && (ctx.validators.Some? ==> ProposerOk(cfg, blk, ctx.validators.value))
  {
    var blk := SetBlock(cfg, st, cands, prev.header.hash, height, proposer, timestamp).(signature := sig);
    AssembledHeader(cfg, st, prev, cands, height, proposer, timestamp, sig, ctx.now);
    var k := PickAll(cfg, st, cands);
    AssembledTxs(cfg, st, cands, k, proposer, timestamp, CoinbaseMemo(height, cfg.blockReward, k.fees));
    assert proposer != NO_ADDRESS ==> blk.txs == [CoinbaseAt(cfg, proposer, height, k.fees, timestamp)] + k.txs;
  }

  lemma AssembledHeader(cfg: Config, st: Store, prev: Block, cands: seq<Transaction>, height: u64,
                        proposer: Address, timestamp: int, sig: Signature, now: int)
    requires 0 < height && BlockAt(st, height - 1) == Some(prev) && prev.header.height == height - 1
    ensures var blk := SetBlock(cfg, st, cands, prev.header.hash, height, proposer, timestamp).(signature := sig);
      && blk.header.height == height && blk.proposer == proposer
      && (HeaderOk(st, blk, now) <==> prev.header.timestamp <= timestamp <= now + MAX_FUTURE_BLOCK_TIME)
  {
  }

  /** Candidates that all spend something cannot collide with the coinbase. */
  lemma SpendersAreNotCoinbase(cfg: Config, st: Store, cands: seq<Transaction>, coinbase: Transaction)
    requires forall i :: 0 <= i < |cands| ==> cands[i].inputs != []
    requires coinbase.inputs == [] && coinbase.id == coinbase.ContentHash()
    ensures coinbase.id !in Ids(PickAll(cfg, st, cands).txs)
  {
    var k := PickAll(cfg, st, cands);
    PickAllValid(cfg, st, cands);
    PickAllIds(cfg, st, cands);
    forall i | 0 <= i < |k.txs| ensures k.txs[i].id != coinbase.id {
      assert k.txs[i] in cands && TxOk(cfg, st, k.txs[i]);
      assert |k.txs[i].ContentHash().inputs| == |k.txs[i].inputs| > 0;
      assert |coinbase.ContentHash().inputs| == 0;
    }
  }
}
