/** Transaction and block validation: core/validate.go. An error return is a false verdict. */
module Validation {
  import opened Basics
  import opened Types
  import opened ValidatorSets
  import opened Quorum
  import opened Ledger
  import opened Merkle

  const MAX_TXS_PER_BLOCK := 100
  const MAX_FUTURE_BLOCK_TIME := 2 * 60 * 60

  /** Configuration, with the foreign calls that validation makes. */
  datatype Config = Config(
    networkId: string, txVersion: string, protocol: string, minFee: u64, blockReward: u64,
    maxMemo: u64, maxData: u64, verify: Verifier, addressOf: PublicKey -> Option<Address>)

  /** What the verdict on a block depends on besides the store: the clock, the validator set if one
      is installed, and whether the commit certificate is checked. */
  datatype Context = Context(now: int, validators: Option<Validators>, checkCommit: bool)

  // ------------------------------------------------------------------ sums

  function AmountAt(st: Store, p: OutPoint): nat { if p in st.utxos then st.utxos[p].txOut.amount else 0 }

  function SumIn(st: Store, ps: seq<OutPoint>): nat {
    if ps == [] then 0 else SumIn(st, ps[..|ps| - 1]) + AmountAt(st, ps[|ps| - 1])
  }

  function SumOut(outs: seq<TxOutput>): nat {
    if outs == [] then 0 else SumOut(outs[..|outs| - 1]) + outs[|outs| - 1].amount
  }

  // ------------------------------------------------------------------ transactions

  predicate WithinLimit(limit: u64, size: nat) { limit > 0 ==> size <= limit }

  predicate InputOwned(cfg: Config, st: Store, id: Hash, input: TxInput) {
    && input.Point() in st.utxos
    && |input.publicKey| != 0
    && cfg.addressOf(input.publicKey) == Some(st.utxos[input.Point()].txOut.address)
    && cfg.verify(input.publicKey, id, input.signature)
  }

  predicate InputUnspent(st: Store, p: OutPoint) { p in st.utxos && !st.utxos[p].spent }

  predicate CoinbaseOk(tx: Transaction) { |tx.outputs| != 0 && Wrap(SumOut(tx.outputs)) != 0 }

  predicate TransferOk(cfg: Config, st: Store, tx: Transaction) {
    && (forall i :: 0 <= i < |tx.inputs| ==> InputUnspent(st, tx.inputs[i].Point()))
    && Wrap(SumIn(st, tx.Points())) >= Wrap(SumOut(tx.outputs))
    && Wrap(SumIn(st, tx.Points())) - Wrap(SumOut(tx.outputs)) >= cfg.minFee
    && (forall i :: 0 <= i < |tx.inputs| ==> InputOwned(cfg, st, tx.id, tx.inputs[i]))
  }

  predicate TxOk(cfg: Config, st: Store, tx: Transaction) {
    && tx.id == tx.ContentHash()
    && tx.networkId == cfg.networkId
    && WithinLimit(cfg.maxMemo, |tx.memo|) && WithinLimit(cfg.maxData, |tx.data|)
    && if tx.inputs == [] then CoinbaseOk(tx) else TransferOk(cfg, st, tx)
  }

  // ------------------------------------------------------------------ blocks

  method ValidateDuplicateTx(txs: seq<Transaction>) returns (ok: bool)
    ensures ok == NoDup(Ids(txs))
  {
    var seen: set<Hash> := {};
    for i := 0 to |txs|
      invariant seen == Elems(Ids(txs[..i])) && NoDup(Ids(txs[..i]))
    {
      assert Ids(txs[..i + 1]) == Ids(txs[..i]) + [txs[i].id];
      ElemsConcat(Ids(txs[..i]), [txs[i].id]);
      NoDupSnoc(Ids(txs[..i]), txs[i].id);
      if txs[i].id in seen {
        assert Ids(txs) == Ids(txs[..i + 1]) + Ids(txs[i + 1..]);
        NoDupConcat(Ids(txs[..i + 1]), Ids(txs[i + 1..]));
        return false;
      }
      seen := seen + {txs[i].id};
    }
    assert txs[..|txs|] == txs;
    ok := true;
  }

  method ValidateDuplicateUtxo(txs: seq<Transaction>) returns (ok: bool)
    ensures ok == NoDup(Spends(txs))
  {
    var seen: set<OutPoint> := {};
    for i := 0 to |txs|
      invariant seen == Elems(Spends(txs[..i])) && NoDup(Spends(txs[..i]))
    {
      var ps := txs[i].Points();
      assert txs[..i + 1] == txs[..i] + [txs[i]];
      assert Spends(txs[..i + 1]) == Spends(txs[..i]) + ps;
      ghost var before := Spends(txs[..i]);
      assert ps[..0] == [];
      for j := 0 to |txs[i].inputs|
        invariant seen == Elems(before + ps[..j]) && NoDup(before + ps[..j])
      {
        var key := txs[i].inputs[j].Point();
        assert ps[j] == key && ps[..j + 1] == ps[..j] + [key];
        assert before + ps[..j + 1] == before + ps[..j] + [key];
        NoDupSnoc(before + ps[..j], key);
        if key in seen {
          DuplicateStays(txs, i, j);
          return false;
        }
        seen := seen + {key};
      }
      assert ps[..|ps|] == ps;
    }
    assert txs[..|txs|] == txs;
    ok := true;
  }

  lemma DuplicateStays(txs: seq<Transaction>, i: nat, j: nat)
    requires i < |txs| && j < |txs[i].inputs| && txs[i].Points()[j] in Spends(txs[..i]) + txs[i].Points()[..j]
    ensures !NoDup(Spends(txs))
  {
    var ps := txs[i].Points();
    var before := Spends(txs[..i]) + ps[..j];
    NoDupSnoc(before, ps[j]);
    assert txs[..i + 1][..i] == txs[..i];
    assert Spends(txs[..i + 1]) == before + [ps[j]] + ps[j + 1..];
    NoDupConcat(before + [ps[j]], ps[j + 1..]);
    SpendsConcat(txs[..i + 1], txs[i + 1..]);
    assert txs == txs[..i + 1] + txs[i + 1..];
    NoDupConcat(Spends(txs[..i + 1]), Spends(txs[i + 1..]));
  }

  function BlockAt(st: Store, h: int): Option<Block> {
    if h in st.heights && st.heights[h] in st.blocks then Some(st.blocks[st.heights[h]]) else None
  }

  predicate MerkleOk(blk: Block) { blk.header.merkleRoot == MerkleRoot(blk.txs) }

  predicate HashOk(blk: Block) { blk.header.hash == blk.header.ContentHash() }

  predicate GenesisOk(blk: Block) { blk.header.prevHash == ZeroHash && MerkleOk(blk) && HashOk(blk) }

  predicate HeaderOk(st: Store, blk: Block, now: int)
    requires blk.header.height > 0
  {
    match BlockAt(st, blk.header.height - 1)
    case None => false
    case Some(prev) =>
      && blk.header.prevHash == prev.header.hash && MerkleOk(blk) && HashOk(blk)
      && blk.header.height == Wrap(prev.header.height + 1)
      && prev.header.timestamp <= blk.header.timestamp <= now + MAX_FUTURE_BLOCK_TIME
  }

  predicate ProposerOk(cfg: Config, blk: Block, vs: Validators) {
    ActiveMember(vs, blk.proposer) && Signed(cfg.verify, vs, blk.header.hash, blk.proposer, blk.signature)
  }

  predicate SignersOk(cfg: Config, blk: Block, ctx: Context) {
    && blk.proposer != NO_ADDRESS
    && (ctx.validators.Some? ==> ProposerOk(cfg, blk, ctx.validators.value))
    && (ctx.checkCommit && ctx.validators.Some? ==>
          CommitsOk(cfg.verify, ctx.validators.value, blk.header.hash, blk.commits))
  }

  predicate TxsOk(cfg: Config, st: Store, txs: seq<Transaction>) {
    |txs| <= MAX_TXS_PER_BLOCK && NoDup(Ids(txs)) && NoDup(Spends(txs)) && EachTxOk(cfg, st, txs)
  }

  predicate EachTxOk(cfg: Config, st: Store, txs: seq<Transaction>) {
    forall i :: 0 <= i < |txs| ==> TxOk(cfg, st, txs[i])
  }

  predicate BlockOk(cfg: Config, st: Store, blk: Block, ctx: Context) {
    if blk.header.height == 0 then GenesisOk(blk)
    else HeaderOk(st, blk, ctx.now) && SignersOk(cfg, blk, ctx) && TxsOk(cfg, st, blk.txs)
  }
}
