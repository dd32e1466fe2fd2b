/** A whole round that succeeds: the block that the proposer builds is valid on the tip, a node takes
    it up, and a quorum of precommits puts it on that node's chain. */
module Rounds {
  import opened Basics
  import opened Types
  import opened ValidatorSets
  import opened Quorum
  import opened Ledger
  import opened Validation
  import opened Replay
  import opened Assembly
  import opened BlockSync
  import opened Engine
  import opened EngineObject
  import opened Links
  import opened Commits

  /** The signature that a block gets. */
  function SignatureOn(sign: Hash -> Option<Signature>, hash: Hash): Signature {
    match sign(hash) case None => NO_SIGNATURE case Some(sig) => sig
  }

  /** The tip that a new block is built on. */
  lemma TipOf(verify: Verifier, vs: Option<Validators>, c: Chain)
    requires LinkedChain(verify, vs, c)
    ensures StoredAt(c.store, c.tipHeight) && TipHash(c) == Stored(c.store, c.tipHeight).header.hash
    ensures BlockAt(c.store, c.tipHeight) == Some(Stored(c.store, c.tipHeight))
  {
    LinkedIsHashed(verify, vs, c, c.tipHeight);
  }

  lemma SignedOn(cfg: Config, c: Chain, prev: Block, cands: seq<Transaction>, l: Local, timestamp: int,
                 sign: Hash -> Option<Signature>)
    requires TipHash(c) == prev.header.hash && c.tipHeight + 1 < TWO64
    ensures var blk := SignedOnTip(cfg, c, cands, Some(l), timestamp, sign);
      && blk.header.height == c.tipHeight + 1 && blk.proposer == l.address && blk.header.timestamp == timestamp
      && blk == SetBlock(cfg, c.store, cands, prev.header.hash, c.tipHeight + 1, l.address, timestamp).(
                  signature := SignatureOn(sign, blk.header.hash))
  {
  }

  /** The proposer is an active validator and its signature verifies. */
  predicate SignedByActive(verify: Verifier, vs: Validators, a: Address, hash: Hash, sig: Signature) {
    a in vs.members && vs.members[a].active && verify(vs.members[a].publicKey, hash, sig)
  }

  lemma ProposerVerdict(cfg: Config, blk: Block, vs: Validators)
    ensures ProposerOk(cfg, blk, vs) <==>
      SignedByActive(cfg.verify, vs, blk.proposer, blk.header.hash, blk.signature)
  {
  }

  /** A validator's block on a linked chain is for the height after the tip and carries its name. It is
      valid exactly if it fits and the validator is active and its signature verifies. */
  lemma OwnBlockValid(cfg: Config, vs: Validators, c: Chain, cands: seq<Transaction>, l: Local, timestamp: int,
                      sign: Hash -> Option<Signature>, now: int, blk: Block)
    requires LinkedChain(cfg.verify, Some(vs), c) && c.tipHeight + 1 < TWO64 && NoDup(Ids(cands))
    requires blk == SignedOnTip(cfg, c, cands, Some(l), timestamp, sign)
    ensures StoredAt(c.store, c.tipHeight)
    ensures blk.header.height == c.tipHeight + 1 && blk.proposer == l.address && blk.header.timestamp == timestamp
    ensures BlockOk(cfg, c.store, blk, Context(now, Some(vs), false)) <==>
      && AssemblyFits(cfg, c.store, Stored(c.store, c.tipHeight), cands, c.tipHeight + 1, l.address, timestamp, now)
      && SignedByActive(cfg.verify, vs, l.address, blk.header.hash, SignatureOn(sign, blk.header.hash))
  {
    TipOf(cfg.verify, Some(vs), c);
    var prev := Stored(c.store, c.tipHeight);
    SignedOn(cfg, c, prev, cands, l, timestamp, sign);
    AssembledBlockAccepted(cfg, c.store, prev, cands, c.tipHeight + 1, l.address, timestamp,
                           SignatureOn(sign, blk.header.hash), Context(now, Some(vs), false));
    ProposerVerdict(cfg, blk, vs);
  }

  /** The node also checks proposals with `cfg`, without certificate. */
  ghost predicate ChecksProposals(env: Env, cfg: Config) { env.valid == Checking(cfg, Some(env.validators)) }

  lemma ProposalOpensPolling(env: Env, cfg: Config, s: State, round: u32, blk: Block, now: int)
    requires ChecksProposals(env, cfg) && Steady(env, s) && ReadyBlock(env, cfg, s.chain, blk, now)
    requires env.select(s.chain.tipHeight + 1, round, PrevHash(s.chain)) == Some(blk.proposer)
    ensures var s' := Engine.Step(env, s, OnProposal(blk.header.height, round, blk.header.hash, blk, now));
      Polling(env, s', blk) && s'.chain == s.chain && s'.round == round && s'.precommits.value.votes == map[]
  {
    var e := OnProposal(blk.header.height, round, blk.header.hash, blk, now);
    ProposalTakenUp(env, s, blk.header.height, round, blk.header.hash, blk, now);
    ProposalResets(env, s, blk.header.height, round, blk.header.hash, blk, now);
    ResetOk(env, s, Engine.Step(env, s, e));
  }

  /** A valid proposal by the expected proposer and precommits for it by more than two thirds of the
      power, in whatever order, commit the block. */
  lemma RoundCommits(env: Env, cfg: Config, s: State, round: u32, blk: Block, now: int, es: seq<Event>)
    returns (i: nat)
    requires Validates(env, cfg) && ChecksProposals(env, cfg) && AllActive(env.validators) && Sound(env.validators)
    requires Steady(env, s) && ReadyBlock(env, cfg, s.chain, blk, now)
    requires env.select(s.chain.tipHeight + 1, round, PrevHash(s.chain)) == Some(blk.proposer)
    requires es != [] && AllPossible(es) && Ballots(env, cfg, s.chain, round, blk, es)
    requires 3 * PowerOf(env.validators, Voters(es)) > 2 * env.validators.total
    ensures var e := OnProposal(blk.header.height, round, blk.header.hash, blk, now);
      i > 0 && CommitsAfter(env, Engine.Step(env, s, e), blk, es, i)
  {
    var e := OnProposal(blk.header.height, round, blk.header.hash, blk, now);
    ProposalOpensPolling(env, cfg, s, round, blk, now);
    var votes: map<Address, Vote> := map[];
    assert votes.Keys + Voters(es) == Voters(es);
    i := QuorumCommits(env, cfg, Engine.Step(env, s, e), blk, es);
  }

  /** The expected proposer of the round has built `blk` on the tip of `c`, and it fits. */
  ghost predicate Honest(env: Env, cfg: Config, c: Chain, round: u32, l: Local, cands: seq<Transaction>,
                         timestamp: int, sign: Hash -> Option<Signature>, now: int, blk: Block)
  {
    && LinkedChain(cfg.verify, Some(env.validators), c) && c.tipHeight + 1 < TWO64 && NoDup(Ids(cands))
    && env.select(c.tipHeight + 1, round, PrevHash(c)) == Some(l.address)
    && blk == SignedOnTip(cfg, c, cands, Some(l), timestamp, sign)
    && SignedByActive(cfg.verify, env.validators, l.address, blk.header.hash, SignatureOn(sign, blk.header.hash))
    && StoredAt(c.store, c.tipHeight)
    && AssemblyFits(cfg, c.store, Stored(c.store, c.tipHeight), cands, c.tipHeight + 1, l.address, timestamp, now)
  }

  lemma HonestIsReady(env: Env, cfg: Config, c: Chain, round: u32, l: Local, cands: seq<Transaction>, timestamp: int,
                      sign: Hash -> Option<Signature>, now: int, blk: Block)
    requires Honest(env, cfg, c, round, l, cands, timestamp, sign, now, blk)
    ensures ReadyBlock(env, cfg, c, blk, now)
    ensures env.select(c.tipHeight + 1, round, PrevHash(c)) == Some(blk.proposer)
  {
    OwnBlockValid(cfg, env.validators, c, cands, l, timestamp, sign, now, blk);
  }

  /** So an honest round succeeds in every reachable state: the block that the expected proposer builds
      on the same tip, if it fits, is committed once a quorum precommits it. */
  lemma HonestRoundCommits(env: Env, cfg: Config, c: Chain, before: seq<Event>, round: u32, l: Local,
                           cands: seq<Transaction>, timestamp: int, sign: Hash -> Option<Signature>, now: int,
                           blk: Block, es: seq<Event>)
    returns (i: nat)
    requires Validates(env, cfg) && ChecksProposals(env, cfg) && AllActive(env.validators) && Sound(env.validators)
    requires Registered(env) && ActiveSet(env.validators) != {} && Addressed(c.store)
    requires AllPossible(before) && AllOwnSigned(env, before)
    requires Honest(env, cfg, Reach(env, Start(c), before).chain, round, l, cands, timestamp, sign, now, blk)
    requires es != [] && AllPossible(es)
    requires Ballots(env, cfg, Reach(env, Start(c), before).chain, round, blk, es)
    requires 3 * PowerOf(env.validators, Voters(es)) > 2 * env.validators.total
    ensures var e := OnProposal(blk.header.height, round, blk.header.hash, blk, now);
      i > 0 && CommitsAfter(env, Engine.Step(env, Reach(env, Start(c), before), e), blk, es, i)
  {
    var s := Reach(env, Start(c), before);
    ReachableSteady(env, cfg, c, before);
    HonestIsReady(env, cfg, s.chain, round, l, cands, timestamp, sign, now, blk);
    i := RoundCommits(env, cfg, s, round, blk, now, es);
  }
}
