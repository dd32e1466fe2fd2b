/** Every block points to its predecessor: what validation guarantees of the stored chain, along the
    runs that add at the height after the tip. */
module Links {
  import opened Basics
  import opened Types
  import opened Merkle
  import opened ValidatorSets
  import opened Quorum
  import opened Ledger
  import opened Validation
  import opened Replay
  import opened Conservation
  import opened BlockSync

  /** The hash is that of the header, the root that of the transactions, whose ids are distinct
      transaction hashes, at most a hundred. */
  predicate WellFormed(b: Block) {
    && b.header.hash == b.header.ContentHash() && b.header.merkleRoot == MerkleRoot(b.txs)
    && NoDup(Ids(b.txs)) && |b.txs| <= 100 && forall i :: 0 <= i < |b.txs| ==> b.txs[i].id == b.txs[i].ContentHash()
  }

  /** The proposer is named, and is an active validator of `vs` that signed the hash. */
  predicate Authored(verify: Verifier, vs: Option<Validators>, b: Block) {
    && b.proposer != NO_ADDRESS
    && (vs.Some? ==>
          && b.proposer in vs.value.members && vs.value.members[b.proposer].active
          && verify(vs.value.members[b.proposer].publicKey, b.header.hash, b.signature))
  }

  /** Block `b` may follow block `p`. */
  predicate Follows(p: Block, b: Block) {
    && b.header.prevHash == p.header.hash && b.header.height == p.header.height + 1
    && p.header.timestamp <= b.header.timestamp
  }

  /** A block of height 0: without predecessor, and with the hash and root of its content. */
  predicate Opens(b: Block) {
    && b.header.prevHash == ZeroHash && b.header.hash == b.header.ContentHash()
    && b.header.merkleRoot == MerkleRoot(b.txs)
  }

  predicate StoredAt(st: Store, h: int) {
    && h in st.heights && st.heights[h] in st.blocks
    && st.blocks[st.heights[h]].header.hash == st.heights[h] && st.blocks[st.heights[h]].header.height == h
  }

  function Stored(st: Store, h: int): Block
    requires StoredAt(st, h)
  {
    st.blocks[st.heights[h]]
  }

  predicate LinkedAt(verify: Verifier, vs: Option<Validators>, st: Store, h: int) {
    && StoredAt(st, h)
    && if h == 0 then Opens(Stored(st, 0))
       else StoredAt(st, h - 1) && Follows(Stored(st, h - 1), Stored(st, h)) && WellFormed(Stored(st, h))
            && Authored(verify, vs, Stored(st, h))
  }

  /** The heights from 0 to the tip are filled with blocks that each follow the one below. */
  ghost predicate LinkedChain(verify: Verifier, vs: Option<Validators>, c: Chain) {
    && (forall h :: h in c.store.heights ==> 0 <= h <= c.tipHeight)
    && (forall h :: 0 <= h <= c.tipHeight ==> LinkedAt(verify, vs, c.store, h))
  }

  // ------------------------------------------------------------------ one block more

  lemma AddedStore(c: Chain, blk: Block, c': Chain)
    requires AddBlock(c, blk) == Some(c')
    ensures c'.store.blocks == c.store.blocks[blk.header.hash := blk]
    ensures c'.store.heights == c.store.heights[blk.header.height := blk.header.hash]
    ensures c'.tipHeight == if blk.header.height > c.tipHeight || blk.header.height == 0 then blk.header.height
                            else c.tipHeight
  {
  }

  /** What validation tells of a block above genesis. */
  lemma AcceptedFollows(cfg: Config, st: Store, blk: Block, ctx: Context, vs: Option<Validators>)
    requires blk.header.height > 0 && BlockOk(cfg, st, blk, ctx) && StoredAt(st, blk.header.height - 1)
    requires vs.Some? ==> ctx.validators == vs
    ensures Follows(Stored(st, blk.header.height - 1), blk) && WellFormed(blk) && Authored(cfg.verify, vs, blk)
    ensures blk.header.timestamp <= ctx.now + 7200
  {
    forall i | 0 <= i < |blk.txs| ensures blk.txs[i].id == blk.txs[i].ContentHash() {
      assert TxOk(cfg, st, blk.txs[i]);
    }
  }

  /** A block does not disturb another height: its hash pins its height. */
  lemma OtherHeightStays(st: Store, st': Store, blk: Block, h: int)
    requires StoredAt(st, h) && HashOk(Stored(st, h)) && HashOk(blk) && h != blk.header.height
    requires st'.blocks == st.blocks[blk.header.hash := blk]
    requires st'.heights == st.heights[blk.header.height := blk.header.hash]
    ensures StoredAt(st', h) && Stored(st', h) == Stored(st, h)
  {
    assert Stored(st, h).header.ContentHash().height == h && blk.header.ContentHash().height != h;
  }

  lemma LinkedIsHashed(verify: Verifier, vs: Option<Validators>, c: Chain, h: int)
    requires LinkedChain(verify, vs, c) && 0 <= h <= c.tipHeight
    ensures StoredAt(c.store, h) && HashOk(Stored(c.store, h))
  {
    assert LinkedAt(verify, vs, c.store, h);
  }

  lemma LinkStays(verify: Verifier, vs: Option<Validators>, c: Chain, st': Store, blk: Block, h: int)
    requires LinkedChain(verify, vs, c) && HashOk(blk) && 0 <= h <= c.tipHeight
    requires h != blk.header.height && (h == 0 || h - 1 != blk.header.height)
    requires st'.blocks == c.store.blocks[blk.header.hash := blk]
    requires st'.heights == c.store.heights[blk.header.height := blk.header.hash]
    ensures LinkedAt(verify, vs, st', h)
  {
    assert LinkedAt(verify, vs, c.store, h);
    LinkedIsHashed(verify, vs, c, h);
    OtherHeightStays(c.store, st', blk, h);
    if h > 0 {
      LinkedIsHashed(verify, vs, c, h - 1);
      OtherHeightStays(c.store, st', blk, h - 1);
    }
  }

  /** The new block is linked to the one below it. */
  lemma NewLink(cfg: Config, vs: Option<Validators>, c: Chain, blk: Block, ctx: Context, st': Store)
    requires LinkedChain(cfg.verify, vs, c) && 1 <= blk.header.height <= c.tipHeight + 1
    requires BlockOk(cfg, c.store, blk, ctx) && (vs.Some? ==> ctx.validators == vs)
    requires st'.blocks == c.store.blocks[blk.header.hash := blk]
    requires st'.heights == c.store.heights[blk.header.height := blk.header.hash]
    ensures LinkedAt(cfg.verify, vs, st', blk.header.height)
  {
    var h := blk.header.height;
    LinkedIsHashed(cfg.verify, vs, c, h - 1);
    AcceptedFollows(cfg, c.store, blk, ctx, vs);
    OtherHeightStays(c.store, st', blk, h - 1);
  }

  /** Adding a valid block at the height after the tip keeps the chain linked. */
  lemma TipKeepsLinked(cfg: Config, vs: Option<Validators>, c: Chain, blk: Block, ctx: Context, c': Chain)
    requires LinkedChain(cfg.verify, vs, c) && blk.header.height == c.tipHeight + 1
    requires BlockOk(cfg, c.store, blk, ctx) && (vs.Some? ==> ctx.validators == vs) && AddBlock(c, blk) == Some(c')
    ensures LinkedChain(cfg.verify, vs, c') && c'.tipHeight == c.tipHeight + 1 && Stored(c'.store, c'.tipHeight) == blk
  {
    AddedStore(c, blk, c');
    NewLink(cfg, vs, c, blk, ctx, c'.store);
    LinkedIsHashed(cfg.verify, vs, c, c.tipHeight);
    AcceptedFollows(cfg, c.store, blk, ctx, vs);
    forall h | 0 <= h <= c'.tipHeight ensures LinkedAt(cfg.verify, vs, c'.store, h) {
      if h <= c.tipHeight {
        LinkStays(cfg.verify, vs, c, c'.store, blk, h);
      }
    }
  }

  /** A valid block that is added at an older height leaves the chain linked exactly if it is at the
      tip, or is the block that is there already, as far as its hash goes. */
  lemma OlderKeepsLinkedExactly(cfg: Config, vs: Option<Validators>, c: Chain, blk: Block, ctx: Context, c': Chain)
    requires LinkedChain(cfg.verify, vs, c) && 1 <= blk.header.height <= c.tipHeight
    requires BlockOk(cfg, c.store, blk, ctx) && (vs.Some? ==> ctx.validators == vs) && AddBlock(c, blk) == Some(c')
    ensures c'.tipHeight == c.tipHeight && blk.header.height in c.store.heights
    ensures LinkedChain(cfg.verify, vs, c') <==>
      blk.header.height == c.tipHeight || blk.header.hash == c.store.heights[blk.header.height]
  {
    var k := blk.header.height;
    AddedStore(c, blk, c');
    NewLink(cfg, vs, c, blk, ctx, c'.store);
    LinkedIsHashed(cfg.verify, vs, c, k);
    if k < c.tipHeight {
      NextLinkExactly(cfg, vs, c, blk, c'.store);
    }
    if k == c.tipHeight || blk.header.hash == c.store.heights[k] {
      forall h | 0 <= h <= c.tipHeight ensures LinkedAt(cfg.verify, vs, c'.store, h) {
        if h != k && h != k + 1 {
          LinkStays(cfg.verify, vs, c, c'.store, blk, h);
        }
      }
    } else {
      assert !LinkedAt(cfg.verify, vs, c'.store, k + 1);
    }
  }

  /** The block above it. */
  lemma NextLinkExactly(cfg: Config, vs: Option<Validators>, c: Chain, blk: Block, st': Store)
    requires LinkedChain(cfg.verify, vs, c) && 1 <= blk.header.height < c.tipHeight && HashOk(blk)
    requires st'.blocks == c.store.blocks[blk.header.hash := blk]
    requires st'.heights == c.store.heights[blk.header.height := blk.header.hash]
    ensures blk.header.height in c.store.heights
    ensures LinkedAt(cfg.verify, vs, st', blk.header.height + 1) <==>
      blk.header.hash == c.store.heights[blk.header.height]
  {
    var k := blk.header.height;
    assert LinkedAt(cfg.verify, vs, c.store, k) && LinkedAt(cfg.verify, vs, c.store, k + 1);
    LinkedIsHashed(cfg.verify, vs, c, k + 1);
    OtherHeightStays(c.store, st', blk, k + 1);
    if blk.header.hash == c.store.heights[k] {
      assert blk.header.ContentHash() == Stored(c.store, k).header.ContentHash();
    }
  }

  // ------------------------------------------------------------------ runs at the tip

  /** Every block of the run is added at the height after the tip. */
  predicate TipRun(cfg: Config, genesis: Block, steps: seq<Step>) {
    steps == [] ||
    (var n := |steps| - 1;
     && TipRun(cfg, genesis, steps[..n])
     && match Play(cfg, genesis, steps[..n])
        case None => false
        case Some(c) => steps[n].block.header.height == c.tipHeight + 1)
  }

  lemma GenesisLinked(verify: Verifier, vs: Option<Validators>, genesis: Block, c: Chain)
    requires genesis.header.height == 0 && GenesisOk(genesis) && AddBlock(NO_CHAIN, genesis) == Some(c)
    ensures LinkedChain(verify, vs, c)
  {
  }

  /** After any run of accepted blocks at the tip, the stored chain is linked. */
  lemma {:induction false} TipRunsLinked(cfg: Config, genesis: Block, steps: seq<Step>, c: Chain)
    requires genesis.header.height == 0 && GenesisOk(genesis)
    requires TipRun(cfg, genesis, steps) && Play(cfg, genesis, steps) == Some(c)
    ensures LinkedChain(cfg.verify, None, c) && c.tipHeight == |steps|
    decreases |steps|
  {
    if steps == [] {
      GenesisLinked(cfg.verify, None, genesis, c);
    } else {
      var n := |steps| - 1;
      var before := Play(cfg, genesis, steps[..n]).value;
      TipRunsLinked(cfg, genesis, steps[..n], before);
      TipKeepsLinked(cfg, None, before, steps[n].block, steps[n].ctx, c);
    }
  }

  /** Assembled runs are such runs. */
  lemma {:induction false} AssembledAtTip(cfg: Config, genesis: Block, steps: seq<Step>, rs: seq<Recipe>)
    requires AssembledRun(cfg, genesis, steps, rs)
    ensures TipRun(cfg, genesis, steps)
    decreases |steps|
  {
    if steps != [] {
      AssembledAtTip(cfg, genesis, steps[..|steps| - 1], rs);
    }
  }

  // ------------------------------------------------------------------ the block handler

  /** Every block waits under its own height, which is not that of a genesis block. */
  predicate PendingKeyed(pending: map<int, Block>) {
    forall h :: h in pending ==> h >= 1 && pending[h].header.height == h
  }

  ghost predicate SyncLinked(cfg: Config, vs: Option<Validators>, s: Sync) {
    LinkedChain(cfg.verify, vs, s.chain) && PendingKeyed(s.pending)
  }

  lemma AcceptKeepsLinked(cfg: Config, vs: Option<Validators>, now: int, c: Chain, blk: Block)
    requires LinkedChain(cfg.verify, vs, c) && blk.header.height == c.tipHeight + 1
    requires Accept(cfg, vs, now, c, blk).Some?
    ensures LinkedChain(cfg.verify, vs, Accept(cfg, vs, now, c, blk).value)
    ensures Accept(cfg, vs, now, c, blk).value.tipHeight == c.tipHeight + 1
  {
    TipKeepsLinked(cfg, vs, c, blk, Context(now, vs, true), Accept(cfg, vs, now, c, blk).value);
  }

  lemma ImportKeepsLinked(cfg: Config, vs: Option<Validators>, now: int, c: Chain, blk: Block)
    requires LinkedChain(cfg.verify, vs, c) && c.tipHeight == 0 && blk.header.height == 0
    requires Accept(cfg, vs, now, c, blk).Some?
    ensures LinkedChain(cfg.verify, vs, Accept(cfg, vs, now, c, blk).value)
  {
    AddedStore(c, blk, Accept(cfg, vs, now, c, blk).value);
  }

  /** What the drain loop needs of the acceptance function. */
  ghost predicate KeepsAtTip(accept: Acceptor, p: Chain -> bool) {
    forall now, c, blk :: KeepsAtTipAt(accept, p, now, c, blk)
  }

  ghost predicate KeepsAtTipAt(accept: Acceptor, p: Chain -> bool, now: int, c: Chain, blk: Block) {
    p(c) && blk.header.height == c.tipHeight + 1 && accept(now, c, blk).Some? ==>
      p(accept(now, c, blk).value) && accept(now, c, blk).value.tipHeight == c.tipHeight + 1
  }

  /** The height that consensus is sent to is the one after the tip. */
  predicate SentPastTip(s: Sync) { s.next == Some(Wrap(s.chain.tipHeight + 1)) }

  lemma {:induction false} DrainAtTip(accept: Acceptor, p: Chain -> bool, clock: Clock, s: Sync, height: u64)
    requires KeepsAtTip(accept, p) && p(s.chain) && PendingKeyed(s.pending)
    requires s.chain.tipHeight == height && SentPastTip(s)
    ensures var r := Drain(accept, clock, s, height);
      p(r.chain) && PendingKeyed(r.pending) && SentPastTip(r) && r.chain.tipHeight >= height
    decreases |s.pending|
  {
    var next := Wrap(height + 1);
    DrainShrinks(accept, clock, s, height);
    if next in s.pending {
      assert KeepsAtTipAt(accept, p, clock(next), s.chain, s.pending[next]);
      var t := DrainOnce(accept, clock, s, height);
      if t.on.Some? {
        DrainAtTip(accept, p, clock, t.sync, t.on.value);
      }
    }
  }

  ghost predicate KeepsOnImport(accept: Acceptor, p: Chain -> bool) {
    forall now, c, blk :: KeepsOnImportAt(accept, p, now, c, blk)
  }

  ghost predicate KeepsOnImportAt(accept: Acceptor, p: Chain -> bool, now: int, c: Chain, blk: Block) {
    p(c) && c.tipHeight == 0 && blk.header.height == 0 && accept(now, c, blk).Some? ==>
      p(accept(now, c, blk).value) && accept(now, c, blk).value.tipHeight == 0
  }

  /** What adding at the tip keeps, the handler keeps, and when the chain has grown consensus is sent
      to the height after the tip. */
  lemma HandleAtTip(accept: Acceptor, p: Chain -> bool, clock: Clock, s: Sync, blk: Block)
    requires KeepsAtTip(accept, p) && KeepsOnImport(accept, p) && p(s.chain) && PendingKeyed(s.pending)
    ensures var r := Handle(accept, clock, s, blk);
      && p(r.chain) && PendingKeyed(r.pending) && r.chain.tipHeight >= s.chain.tipHeight
      && (r.chain.tipHeight > s.chain.tipHeight ==> SentPastTip(r))
  {
    var h: int := blk.header.height;
    assert KeepsOnImportAt(accept, p, clock(h), s.chain, blk) && KeepsAtTipAt(accept, p, clock(h), s.chain, blk);
    var r := accept(clock(h), s.chain, blk);
    if h == s.chain.tipHeight + 1 && r.Some? {
      DrainAtTip(accept, p, clock, Sync(r.value, s.pending, Some(Wrap(h + 1))), h);
    }
  }

  lemma AcceptKeepsLinks(cfg: Config, vs: Option<Validators>, p: Chain -> bool)
    requires forall c :: p(c) <==> LinkedChain(cfg.verify, vs, c)
    ensures KeepsAtTip(Accepting(cfg, vs), p) && KeepsOnImport(Accepting(cfg, vs), p)
  {
    forall now, c, blk ensures KeepsAtTipAt(Accepting(cfg, vs), p, now, c, blk) {
      if LinkedChain(cfg.verify, vs, c) && blk.header.height == c.tipHeight + 1 && Accept(cfg, vs, now, c, blk).Some? {
        AcceptKeepsLinked(cfg, vs, now, c, blk);
      }
    }
    forall now, c, blk ensures KeepsOnImportAt(Accepting(cfg, vs), p, now, c, blk) {
      if LinkedChain(cfg.verify, vs, c) && c.tipHeight == 0 && blk.header.height == 0
        && Accept(cfg, vs, now, c, blk).Some?
      {
        ImportKeepsLinked(cfg, vs, now, c, blk);
      }
    }
  }

  /** The block handler keeps the chain linked, whatever blocks arrive, in whatever order; it never
      shortens the chain, and sends consensus to the height after the tip when it grows. */
  lemma HandlerKeepsLinked(cfg: Config, vs: Option<Validators>, clock: Clock, s: Sync, blk: Block)
    requires SyncLinked(cfg, vs, s)
    ensures var r := Handle(Accepting(cfg, vs), clock, s, blk);
      && SyncLinked(cfg, vs, r) && r.chain.tipHeight >= s.chain.tipHeight
      && (r.chain.tipHeight > s.chain.tipHeight ==> SentPastTip(r))
  {
    var p: Chain -> bool := c => LinkedChain(cfg.verify, vs, c);
    AcceptKeepsLinks(cfg, vs, p);
    HandleAtTip(Accepting(cfg, vs), p, clock, s, blk);
  }

  // ------------------------------------------------------------------ the tip hash pins the history

  /** Two blocks with one hash have the same predecessor hash and the same transaction ids. */
  lemma SameHashSameBlock(a: Block, b: Block)
    requires WellFormed(a) && WellFormed(b) && a.header.hash == b.header.hash
    ensures a.header == b.header && Ids(a.txs) == Ids(b.txs)
  {
    assert a.header.ContentHash() == b.header.ContentHash();
    forall tx | tx in a.txs || tx in b.txs ensures !tx.id.Pair? && tx.id != ZeroHash {
      assert tx.id == tx.ContentHash();
    }
    RootBinds(a.txs, b.txs);
  }

  /** Linked chains that agree on the hash at one height agree on the hashes, headers and transaction
      ids at every height below. */
  lemma {:induction false} HashPinsHistory(verify: Verifier, vs: Option<Validators>, c: Chain, d: Chain, n: int, h: int)
    requires LinkedChain(verify, vs, c) && LinkedChain(verify, vs, d)
    requires 0 <= h <= n <= c.tipHeight && n <= d.tipHeight
    requires n in c.store.heights && n in d.store.heights && c.store.heights[n] == d.store.heights[n]
    ensures StoredAt(c.store, h) && StoredAt(d.store, h)
    ensures Stored(c.store, h).header == Stored(d.store, h).header
    ensures h >= 1 ==> Ids(Stored(c.store, h).txs) == Ids(Stored(d.store, h).txs)
    decreases n - h
  {
    assert LinkedAt(verify, vs, c.store, h) && LinkedAt(verify, vs, d.store, h);
    if h < n {
      HashPinsHistory(verify, vs, c, d, n, h + 1);
      assert LinkedAt(verify, vs, c.store, h + 1) && LinkedAt(verify, vs, d.store, h + 1);
    }
    var a, b := Stored(c.store, h), Stored(d.store, h);
    assert a.header.hash == b.header.hash;
    if h >= 1 {
      SameHashSameBlock(a, b);
    } else {
      assert a.header.ContentHash() == b.header.ContentHash();
    }
  }
}
