/** Accountable agreement between nodes: conflicting blocks convict more than a third of the power. */
module Agreement {
  import opened Basics
  import opened Types
  import opened ValidatorSets
  import opened Quorum
  import opened Ledger
  import opened Validation
  import opened Replay
  import opened BlockSync
  import opened Engine

  /** The block stored for height `h` is hashed, stands at that height and carries a certificate. */
  ghost predicate CertifiedAt(verify: Verifier, vs: Validators, blocks: map<Hash, Block>, heights: map<int, Hash>,
                              h: int)
  {
    h >= 1 && h in heights ==> heights[h] in blocks && CertifiedBlock(verify, vs, blocks[heights[h]], heights[h], h)
  }

  ghost predicate CertifiedBlock(verify: Verifier, vs: Validators, b: Block, hash: Hash, h: int) {
    b.header.hash == hash && b.header.height == h && HashOk(b) && CommitsOk(verify, vs, hash, b.commits)
  }

  ghost predicate Certified(verify: Verifier, vs: Validators, c: Chain) {
    forall h :: CertifiedAt(verify, vs, c.store.blocks, c.store.heights, h)
  }

  lemma AcceptedBlock(cfg: Config, vs: Validators, now: int, c: Chain, blk: Block, c': Chain)
    requires Accept(cfg, Some(vs), now, c, blk) == Some(c')
    ensures c'.store.blocks == c.store.blocks[blk.header.hash := blk]
    ensures c'.store.heights == c.store.heights[blk.header.height := blk.header.hash]
    ensures HashOk(blk)
    ensures blk.header.height >= 1 ==> CommitsOk(cfg.verify, vs, blk.header.hash, blk.commits)
  {
  }

  /** The hash pins the height, so a block never takes the place of another height's block. */
  lemma StoredKeepsCertified(verify: Verifier, vs: Validators, blocks: map<Hash, Block>, heights: map<int, Hash>,
                             blk: Block, h: int)
    requires CertifiedAt(verify, vs, blocks, heights, h) && HashOk(blk)
    requires blk.header.height >= 1 ==> CommitsOk(verify, vs, blk.header.hash, blk.commits)
    ensures CertifiedAt(verify, vs, blocks[blk.header.hash := blk], heights[blk.header.height := blk.header.hash], h)
  {
    if h >= 1 && h in heights && h != blk.header.height {
      assert blocks[heights[h]].header.ContentHash().height == h;
      assert blk.header.ContentHash().height != h;
    }
  }

  lemma AcceptKeepsCertified(cfg: Config, vs: Validators, now: int, c: Chain, blk: Block)
    requires Certified(cfg.verify, vs, c) && Accept(cfg, Some(vs), now, c, blk).Some?
    ensures Certified(cfg.verify, vs, Accept(cfg, Some(vs), now, c, blk).value)
  {
    var c' := Accept(cfg, Some(vs), now, c, blk).value;
    AcceptedBlock(cfg, vs, now, c, blk, c');
    forall h ensures CertifiedAt(cfg.verify, vs, c'.store.blocks, c'.store.heights, h) {
      assert CertifiedAt(cfg.verify, vs, c.store.blocks, c.store.heights, h);
      StoredKeepsCertified(cfg.verify, vs, c.store.blocks, c.store.heights, blk, h);
    }
  }

  /** A node that validates with `cfg` against the set `vs`, which has an active member: without
      one the node would add its own blocks uncertified. */
  ghost predicate Runs(env: Env, cfg: Config, vs: Validators) {
    && env.verify == cfg.verify && env.validators == vs && env.accept == Accepting(cfg, Some(vs))
    && ActiveSet(vs) != {}
  }

  /** A node may start from any certified chain, such as the one it stopped with. An empty chain or
      one with only a genesis block is certified. */
  lemma NothingToCertify(verify: Verifier, vs: Validators, c: Chain)
    requires forall h :: h in c.store.heights ==> h == 0
    ensures Certified(verify, vs, c)
  {
  }

  /** In every reachable state of a node, whatever the environment delivers, every block of height
      1 or more carries an accepted certificate. */
  lemma ReachableCertified(env: Env, cfg: Config, vs: Validators, c: Chain, es: seq<Event>)
    requires Runs(env, cfg, vs) && Certified(cfg.verify, vs, c) && AllPossible(es)
    ensures Certified(cfg.verify, vs, Reach(env, Start(c), es).chain)
  {
    var p: Chain -> bool := x => Certified(cfg.verify, vs, x);
    forall now, c, blk ensures KeptAt(env.accept, p, now, c, blk) {
      if Certified(cfg.verify, vs, c) && Accept(cfg, Some(vs), now, c, blk).Some? {
        AcceptKeepsCertified(cfg, vs, now, c, blk);
      }
    }
    RunKeeps(env, p, Start(c), es);
  }

  /** The validators with a valid signature on both hashes, as the two stored blocks show. */
  ghost function DoubleSigners(verify: Verifier, vs: Validators, a: Block, b: Block): set<Address> {
    Signers(verify, vs, a.header.hash, a.commits) * Signers(verify, vs, b.header.hash, b.commits)
  }

  /** Both stores have a block at `h`, and if their hashes differ, more than a third signed both. */
  ghost predicate AgreeOrConvict(verify: Verifier, vs: Validators, s: Store, t: Store, h: int)
    requires h in s.heights && h in t.heights
  {
    && s.heights[h] in s.blocks && t.heights[h] in t.blocks
    && var a, b := s.blocks[s.heights[h]], t.blocks[t.heights[h]];
      && a.header.hash == s.heights[h] && b.header.hash == t.heights[h]
      && (a.header.hash != b.header.hash ==> 3 * PowerOf(vs, DoubleSigners(verify, vs, a, b)) > vs.total)
  }

  lemma CertifiedAgree(verify: Verifier, vs: Validators, c: Chain, d: Chain, h: int)
    requires Certified(verify, vs, c) && Certified(verify, vs, d) && Sound(vs) && vs.members != map[]
    requires h >= 1 && h in c.store.heights && h in d.store.heights
    ensures AgreeOrConvict(verify, vs, c.store, d.store, h)
  {
    var s, t := c.store, d.store;
    assert CertifiedAt(verify, vs, s.blocks, s.heights, h);
    assert CertifiedAt(verify, vs, t.blocks, t.heights, h);
    var a, b := s.blocks[s.heights[h]], t.blocks[t.heights[h]];
    CertificatesIntersect(verify, vs, a.header.hash, a.commits, b.header.hash, b.commits);
  }

  /** Two nodes with the same validator set, in any reachable states: if their chains hold
      different hashes at one height, then more than a third of the power signed both. The two may
      be the same node at different times. */
  lemma AccountableAgreement(env1: Env, cfg1: Config, c1: Chain, es1: seq<Event>,
                             env2: Env, cfg2: Config, c2: Chain, es2: seq<Event>, vs: Validators, h: int)
    requires Runs(env1, cfg1, vs) && Runs(env2, cfg2, vs) && cfg1.verify == cfg2.verify
    requires Certified(cfg1.verify, vs, c1) && Certified(cfg2.verify, vs, c2) && AllPossible(es1) && AllPossible(es2)
    requires Sound(vs) && h >= 1
    requires h in Reach(env1, Start(c1), es1).chain.store.heights
    requires h in Reach(env2, Start(c2), es2).chain.store.heights
    ensures AgreeOrConvict(cfg1.verify, vs, Reach(env1, Start(c1), es1).chain.store,
                           Reach(env2, Start(c2), es2).chain.store, h)
  {
    ReachableCertified(env1, cfg1, vs, c1, es1);
    ReachableCertified(env2, cfg2, vs, c2, es2);
    assert vs.members != map[];
    CertifiedAgree(cfg1.verify, vs, Reach(env1, Start(c1), es1).chain, Reach(env2, Start(c2), es2).chain, h);
  }
}
