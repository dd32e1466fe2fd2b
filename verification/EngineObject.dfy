/** The consensus engine as an object: the handlers of consensus/engine.go, each proved to do what
    the state machine says. */
module EngineObject {
  import opened Basics
  import opened Types
  import opened Quorum
  import opened Validation
  import opened Replay
  import opened ValidatorSets
  import Assembly
  import opened Pool
  import opened Blockchain
  import opened BlockSync
  import opened Engine

  /** The votes of a set in one order of visiting them. */
  method ListCommits(votes: map<Address, Vote>, order: Ordering) returns (cs: seq<CommitSignature>)
    requires Enumerates(order(votes), votes) && forall i :: 0 <= i < |order(votes)| ==> order(votes)[i] in votes
    ensures cs == CommitsIn(votes, order(votes))
  {
    cs := [];
    var q := order(votes);
    for i := 0 to |q|
      invariant |cs| == i && forall k :: 0 <= k < i ==> cs[k] == CommitOf(votes[q[k]])
    {
      cs := cs + [CommitSignature(votes[q[i]].voter, votes[q[i]].signature, votes[q[i]].timestamp)];
    }
  }

  function TipHash(c: Chain): Hash {
    match BlockAt(c.store, c.tipHeight) case None => ZeroHash case Some(b) => b.header.hash
  }

  function SignWith(sign: Hash -> Option<Signature>, blk: Block): Block {
    match sign(blk.header.hash) case None => blk case Some(sig) => blk.(signature := sig)
  }

  function Proposer(local: Option<Local>): Address { if local.Some? then local.value.address else NO_ADDRESS }

  /** A node that is no validator has no key. */
  function SignerOf(local: Option<Local>, sign: Hash -> Option<Signature>): Hash -> Option<Signature> {
    if local.Some? then sign else h => None
  }

  /** The block that `SetBlock` assembles on the tip from `cands`, signed. */
  function SignedOnTip(cfg: Config, c: Chain, cands: seq<Transaction>, local: Option<Local>, timestamp: int,
                       sign: Hash -> Option<Signature>): Block
  {
    SignWith(SignerOf(local, sign), Assembly.SetBlock(cfg, c.store, cands, TipHash(c), Wrap(c.tipHeight + 1),
                                                      Proposer(local), timestamp))
  }

  /** `blk` was assembled on the tip of `c` from candidates of some mempool and signed. Folded away. */
  ghost predicate OwnBlock(cfg: Config, c: Chain, local: Option<Local>, timestamp: int,
                           sign: Hash -> Option<Signature>, blk: Block)
  {
    forall k {:trigger Unfolding(k)} :: Unfolding(k) ==>
      exists m, cands :: Candidates(m, cands) && blk == SignedOnTip(cfg, c, cands, local, timestamp, sign)
  }

  lemma IsOwnBlock(cfg: Config, c: Chain, m: map<Hash, Waiting>, cands: seq<Transaction>, local: Option<Local>,
                   timestamp: int, sign: Hash -> Option<Signature>, prev: Hash, next: u64, blk: Block)
    requires Candidates(m, cands) && prev == TipHash(c) && next == Wrap(c.tipHeight + 1)
    requires blk == SignWith(SignerOf(local, sign),
                             Assembly.SetBlock(cfg, c.store, cands, prev, next, Proposer(local), timestamp))
    ensures OwnBlock(cfg, c, local, timestamp, sign, blk)
  {
  }

  /** There always is one: from no candidates. */
  lemma SomeOwnBlock(cfg: Config, c: Chain, local: Option<Local>, timestamp: int, sign: Hash -> Option<Signature>)
    returns (blk: Block)
    ensures OwnBlock(cfg, c, local, timestamp, sign, blk)
  {
    assert Candidates(map[], []);
    blk := SignedOnTip(cfg, c, [], local, timestamp, sign);
    IsOwnBlock(cfg, c, map[], [], local, timestamp, sign, TipHash(c), Wrap(c.tipHeight + 1), blk);
  }

  class ConsensusEngine {
    const env: Env
    const chain: BlockChain
    const handler: BlockHandler
    var phase: Phase
    var height: u64
    var round: u32
    var prevotes: VoteSet?
    var precommits: VoteSet?
    var proposed: Option<Block>
    var timeouts: nat
    var casts: multiset<Cast>
    var lastBlock: int

    /** What does not change: the objects and the functions that `env` stands for. */
    ghost predicate Wired() {
      && handler.chain == chain && handler.Fits()
      && handler.accept == env.accept && handler.valid == env.valid && handler.add == env.add
      && handler.validators == Some(env.validators) && env.verify == chain.cfg.verify
    }

    ghost predicate Valid()
      reads this
    {
      (prevotes != null ==> prevotes.kind == Prevote) && (precommits != null ==> precommits.kind == Precommit)
    }

    ghost function Sets(): set<object>
      reads this
    {
      (if prevotes == null then {} else {prevotes}) + (if precommits == null then {} else {precommits})
    }

    function TallyOf(v: VoteSet?): Option<Tally>
      reads v
    {
      if v == null then None else Some(v.Value())
    }

    function Value(): State
      reads this, chain, handler, prevotes, precommits
    {
      State(chain.Value(), handler.pending, phase, height, round, TallyOf(prevotes), TallyOf(precommits), proposed,
            timeouts, casts, lastBlock)
    }

    constructor (env: Env, chain: BlockChain, handler: BlockHandler)
      requires handler.chain == chain && handler.Fits()
      requires handler.accept == env.accept && handler.valid == env.valid && handler.add == env.add
      requires handler.validators == Some(env.validators) && env.verify == chain.cfg.verify
      requires handler.pending == map[]
      ensures Wired() && Valid() && this.env == env && this.chain == chain && this.handler == handler
      ensures Value() == Start(chain.Value())
    {
      this.env, this.chain, this.handler := env, chain, handler;
      phase, height, round := Idle, Wrap(chain.latestHeight + 1), 0;
      prevotes, precommits, proposed := null, null, None;
      timeouts, casts, lastBlock := 0, multiset{}, 0;
    }

    method NewVoteSets(h: u64, r: u32)
      requires Valid()
      modifies this`prevotes, this`precommits
      ensures Valid() && fresh(Sets()) && Value() == FreshSets(old(Value()), h, r)
    {
      prevotes := new VoteSet(h, r, Prevote);
      precommits := new VoteSet(h, r, Precommit);
    }

    method CastLater(kind: VoteKind, hash: Hash)
      requires Valid()
      modifies this`casts
      ensures Valid() && Value() == CastVote(env, old(Value()), kind, hash)
    {
      if env.local.None? {
        return;
      }
      casts := casts + multiset{Cast(kind, hash, height, round)};
    }

    method GetPrevHash() returns (h: Hash)
      ensures h == PrevHash(chain.Value())
    {
      if chain.latestHeight == 0 {
        return ZeroHash;
      }
      match BlockAt(chain.db, chain.latestHeight)
      case None => h := ZeroHash;
      case Some(b) => h := b.header.hash;
    }

    method IsTimely(h: u64, r: u32, blk: Block) returns (b: bool)
      ensures b == Timely(env, Value(), h, r, blk)
    {
      if h <= chain.latestHeight || h != Wrap(chain.latestHeight + 1) {
        return false;
      }
      var prev := GetPrevHash();
      b := env.select(h, r, prev) == Some(blk.proposer);
    }

    method MoveTo(h: u64, r: u32)
      requires Valid()
      modifies this`height, this`round
      ensures Valid() && Value() == old(Value()).(height := h, round := r)
    {
      height, round := h, r;
    }

    method OnProposal(h: u64, r: u32, hash: Hash, blk: Block, now: int)
      requires Wired() && Valid()
      modifies this
      ensures Valid() && Value() == HandleProposal(env, old(Value()), h, r, hash, blk, now)
    {
      var timely := IsTimely(h, r, blk);
      if timely {
        MoveTo(h, r);
        var ok := handler.Check(blk, now);
        if ok {
          StartVoting(hash, blk);
        }
      }
    }

    method StartVoting(hash: Hash, blk: Block)
      requires Valid()
      modifies this
      ensures Valid() && Value() == Engine.StartVoting(env, old(Value()), hash, blk)
    {
      proposed := Some(blk);
      phase := Prevoting;
      NewVoteSets(height, round);
      CastLater(Prevote, hash);
    }

    method CountPrevote(v: Vote, power: u64)
      requires Valid()
      modifies this`phase, this`casts, Sets()
      ensures Valid() && Value() == Engine.CountPrevote(env, old(Value()), v, power)
    {
      if prevotes == null {
        return;
      }
      var added := prevotes.Add(v, power);
      if TwoThirds(prevotes.votedPower, env.validators.total) {
        if phase == Prevoting {
          phase := Precommitting;
        }
        CastLater(Precommit, v.blockHash);
      }
    }

    /** Puts the precommits on the proposed block as its certificate. */
    method AttachCertificate(order: Ordering) returns (blk: Block)
      requires Valid() && proposed.Some? && precommits != null && Enumerates(order(precommits.votes), precommits.votes)
      requires forall i :: 0 <= i < |order(precommits.votes)| ==> order(precommits.votes)[i] in precommits.votes
      modifies this`proposed, this`timeouts, this`phase
      ensures Valid() && blk == old(proposed).value.(commits := CommitsIn(precommits.votes, order(precommits.votes)))
      ensures Value() == old(Value()).(timeouts := 0, phase := Committing, proposed := Some(blk))
    {
      timeouts := 0;
      phase := Committing;
      var cs := ListCommits(precommits.votes, order);
      blk := proposed.value.(commits := cs);
      proposed := Some(blk);
    }

    method Advance(next: u64)
      requires Valid()
      modifies this
      ensures Valid() && Value() == NoSets(GoTo(old(Value()), next))
    {
      height, round, phase := next, 0, Idle;
      proposed, prevotes, precommits := None, null, null;
    }

    /** Adds a committed block and notes the time. */
    method AddCommitted(blk: Block, at: Instant) returns (ok: bool)
      requires Wired() && Valid()
      modifies this`lastBlock, chain, chain.mempool
      ensures Valid() && (Value(), ok) == Adopt(env, old(Value()), blk, at)
    {
      ok := handler.TryAdd(blk, at.seconds);
      if ok {
        lastBlock := at.millis;
      }
    }

    method IncrementRound()
      requires Valid()
      modifies this`round
      ensures Valid() && Value() == NextRound(old(Value()))
    {
      round := (round + 1) % 0x1_0000_0000;
    }

    method Conclude(blk: Block, at: Instant)
      requires Wired() && Valid()
      modifies this, chain, chain.mempool
      ensures Valid() && Value() == Engine.Conclude(env, old(Value()), blk, at)
    {
      var ok := AddCommitted(blk, at);
      if ok {
        Advance(Wrap(blk.header.height + 1));
      } else {
        IncrementRound();
      }
    }

    method CommitProposed(at: Instant, order: Ordering)
      requires Wired() && Valid() && proposed.Some? && precommits != null && Ordered(order)
      modifies this, chain, chain.mempool
      ensures Valid() && Enumerates(order(old(precommits.votes)), old(precommits.votes))
      ensures Value() == Commit(env, old(Value()), at, order)
    {
      assert Enumerates(order(precommits.votes), precommits.votes);
      EnumeratesVotes(order(precommits.votes), precommits.votes);
      var blk := AttachCertificate(order);
      Conclude(blk, at);
    }

    method CountPrecommit(v: Vote, power: u64, at: Instant, order: Ordering)
      requires Wired() && Valid() && Ordered(order)
      modifies this, Sets(), chain, chain.mempool
      ensures Valid() && Value() == Engine.CountPrecommit(env, old(Value()), v, power, at, order)
    {
      if precommits == null {
        return;
      }
      var added := precommits.Add(v, power);
      if TwoThirds(precommits.votedPower, env.validators.total) && proposed.Some? {
        CommitProposed(at, order);
      }
    }

    method CountVote(v: Vote, power: u64, at: Instant, order: Ordering)
      requires Wired() && Valid() && Ordered(order)
      modifies this, Sets(), chain, chain.mempool
      ensures Valid() && Value() == Count(env, old(Value()), v, power, at, order)
    {
      match v.kind
      case Prevote => CountPrevote(v, power);
      case Precommit => CountPrecommit(v, power, at, order);
    }

    method IsRelevant(v: Vote) returns (b: bool)
      requires Valid()
      ensures b == Relevant(env, Value(), v)
    {
      if v.height <= chain.latestHeight || v.height != Wrap(chain.latestHeight + 1) || v.round != round {
        return false;
      }
      if v.voter !in env.validators.members {
        return false;
      }
      b := env.verify(env.validators.members[v.voter].publicKey, v.blockHash, v.signature);
    }

    method OnVote(v: Vote, at: Instant, order: Ordering)
      requires Wired() && Valid() && Ordered(order)
      modifies this, Sets(), chain, chain.mempool
      ensures Valid() && Value() == HandleVote(env, old(Value()), v, at, order)
    {
      var relevant := IsRelevant(v);
      if relevant {
        CountVote(v, env.validators.members[v.voter].power, at, order);
      }
    }

    /** `signature` is what signing the hash returned. */
    method OnCast(c: Cast, signature: Option<Signature>, at: Instant, order: Ordering)
      requires Wired() && Valid() && Ordered(order) && c in casts && env.local.Some?
      modifies this, Sets(), chain, chain.mempool
      ensures Valid() && Value() == FireCast(env, old(Value()), c, signature, at, order)
    {
      casts := casts - multiset{c};
      if height != c.height || round != c.round {
        return;
      }
      match signature
      case None =>
      case Some(sig) => CountVote(OwnVote(env.local.value, c, sig, at), env.local.value.power, at, order);
    }

    method GetTipHash() returns (h: Hash)
      ensures h == TipHash(chain.Value())
    {
      match BlockAt(chain.db, chain.latestHeight)
      case None => h := ZeroHash;
      case Some(b) => h := b.header.hash;
    }

    /** Assembles and signs a block; it stays unsigned when signing fails. */
    method BuildBlock(proposer: Address, prev: Hash, next: u64, timestamp: int, sign: Hash -> Option<Signature>)
      returns (built: Block, ghost cands: seq<Transaction>)
      requires Keyed(chain.mempool.transactions)
      modifies chain.mempool
      ensures Candidates(old(chain.mempool.transactions), cands)
      ensures built == SignWith(sign, Assembly.SetBlock(chain.cfg, chain.db, cands, prev, next, proposer, timestamp))
    {
      var blk;
      blk, cands := chain.SetBlock(prev, next, proposer, timestamp);
      built := SignWith(sign, blk);
    }

    method AnnounceProposal(net: Net, onTick: bool)
      requires Valid() && proposed.Some?
      modifies this
      ensures Valid()
      ensures var s := old(Value());
        Value() == Announce(env, if onTick && net == Sends then s.(phase := Prevoting) else s, net)
    {
      if net == NoPeers {
        return;
      }
      var hash := proposed.value.header.hash;
      NewVoteSets(height, round);
      if net == Fails {
        return;
      }
      if onTick {
        phase := Prevoting;
      }
      CastLater(Prevote, hash);
    }

    /** A signed block on the tip of `c`, whose hash and next height are given. */
    method DraftOn(prev: Hash, next: u64, timestamp: int, sign: Hash -> Option<Signature>, ghost c: Chain)
      returns (blk: Block)
      requires Keyed(chain.mempool.transactions) && c.store == chain.db
      requires prev == TipHash(c) && next == Wrap(c.tipHeight + 1)
      modifies chain.mempool
      ensures OwnBlock(chain.cfg, c, env.local, timestamp, sign, blk)
    {
      ghost var m, cands := chain.mempool.transactions, [];
      blk, cands := BuildBlock(Proposer(env.local), prev, next, timestamp, SignerOf(env.local, sign));
      IsOwnBlock(chain.cfg, c, m, cands, env.local, timestamp, sign, prev, next, blk);
    }

    method Draft(timestamp: int, sign: Hash -> Option<Signature>) returns (blk: Block)
      requires Keyed(chain.mempool.transactions)
      modifies chain.mempool
      ensures OwnBlock(chain.cfg, chain.Value(), env.local, timestamp, sign, blk)
    {
      var prev := GetTipHash();
      blk := DraftOn(prev, Wrap(chain.latestHeight + 1), timestamp, sign, chain.Value());
    }

    method SetProposed(blk: Block)
      requires Valid()
      modifies this`phase, this`proposed
      ensures Valid() && Value() == old(Value()).(phase := Proposing, proposed := Some(blk))
    {
      phase, proposed := Proposing, Some(blk);
    }

    /** `proposeBlock`, then the broadcast. */
    method Propose(net: Net, timestamp: int, onTick: bool, sign: Hash -> Option<Signature>) returns (ghost built: Block)
      requires Valid() && env.local.Some? && Keyed(chain.mempool.transactions)
      modifies this, chain.mempool
      ensures Valid()
      ensures Value() == if onTick then ProposeOnTick(env, old(Value()), net, built)
                         else ProposeOnTimeout(env, old(Value()), net, built)
      ensures OwnBlock(chain.cfg, chain.Value(), env.local, timestamp, sign, built)
    {
      var blk := Draft(timestamp, sign);
      built := blk;
      SetProposed(blk);
      AnnounceProposal(net, onTick);
    }

    method LeaveRound(count: nat)
      requires Valid()
      modifies this
      ensures Valid() && Value() == Engine.LeaveRound(old(Value()).(timeouts := count))
    {
      timeouts := count;
      IncrementRound();
      proposed, prevotes, precommits := None, null, null;
    }

    /** `count` is the number of timeouts in a row. */
    method NewRound(h: u64, net: Net, timestamp: int, count: nat, sign: Hash -> Option<Signature>)
      returns (ghost built: Block)
      requires Valid() && Keyed(chain.mempool.transactions)
      modifies this, chain.mempool
      ensures Valid() && Value() == Engine.NewRound(env, old(Value()).(timeouts := count), h, net, built)
      ensures OwnBlock(chain.cfg, chain.Value(), env.local, timestamp, sign, built)
    {
      built := SomeOwnBlock(chain.cfg, chain.Value(), env.local, timestamp, sign);
      LeaveRound(count);
      var prev := GetPrevHash();
      if env.local.Some? && env.select(h, round, prev) == Some(env.local.value.address) {
        built := Propose(net, timestamp, false, sign);
      }
    }

    /** Blocks handled while a timeout is. */
    method ReceiveAll(arrivals: Arrivals)
      requires Wired() && Valid()
      modifies this`height, this`round, this`phase, handler, chain, chain.mempool
      decreases arrivals
      ensures Valid() && Value() == Engine.ReceiveAll(env, old(Value()), arrivals)
      ensures old(Keyed(chain.mempool.transactions)) ==> Keyed(chain.mempool.transactions)
    {
      if arrivals == Nothing {
        return;
      }
      ReceiveAll(arrivals.earlier);
      OnBlock(arrivals.blk, arrivals.clock);
    }

    method CatchUp()
      requires Valid()
      modifies this
      ensures Valid() && Value() == Engine.CatchUp(old(Value()))
    {
      height, round := Wrap(chain.latestHeight + 1), 0;
      proposed, prevotes, precommits := None, null, null;
    }

    method Resync(h: u64, net: Net, timestamp: int, arrivals: Arrivals, sign: Hash -> Option<Signature>)
      returns (ghost built: Block)
      requires timeouts + 1 >= 3 && Wired() && Valid() && Keyed(chain.mempool.transactions)
      modifies this, handler, chain, chain.mempool
      ensures Valid() && Value() == Engine.LiveTimeout(env, old(Value()), h, net, built, arrivals)
      ensures OwnBlock(chain.cfg, chain.Value(), env.local, timestamp, sign, built)
    {
      SetTimeouts(0);
      var currentHeight := chain.latestHeight;
      ReceiveAll(arrivals);
      var newHeight := chain.latestHeight;
      if newHeight > currentHeight {
        CatchUp();
        built := SomeOwnBlock(chain.cfg, chain.Value(), env.local, timestamp, sign);
        return;
      }
      built := NewRound(h, net, timestamp, 0, sign);
    }

    method OnTimeout(h: u64, r: u32, net: Net, timestamp: int, arrivals: Arrivals, sign: Hash -> Option<Signature>)
      returns (ghost built: Block)
      requires Wired() && Valid() && Keyed(chain.mempool.transactions)
      modifies this, handler, chain, chain.mempool
      ensures Valid() && Value() == Timeout(env, old(Value()), h, r, net, built, arrivals)
      ensures OwnBlock(chain.cfg, chain.Value(), env.local, timestamp, sign, built)
    {
      if height != h || round != r {
        SetTimeouts(0);
        built := SomeOwnBlock(chain.cfg, chain.Value(), env.local, timestamp, sign);
      } else {
        built := LiveTimeout(h, net, timestamp, arrivals, sign);
      }
    }

    method LiveTimeout(h: u64, net: Net, timestamp: int, arrivals: Arrivals, sign: Hash -> Option<Signature>)
      returns (ghost built: Block)
      requires Wired() && Valid() && Keyed(chain.mempool.transactions)
      modifies this, handler, chain, chain.mempool
      ensures Valid() && Value() == Engine.LiveTimeout(env, old(Value()), h, net, built, arrivals)
      ensures OwnBlock(chain.cfg, chain.Value(), env.local, timestamp, sign, built)
    {
      if timeouts + 1 >= 3 {
        built := Resync(h, net, timestamp, arrivals, sign);
      } else {
        built := CountedRound(h, net, timestamp, arrivals, sign);
      }
    }

    method CountedRound(h: u64, net: Net, timestamp: int, arrivals: Arrivals, sign: Hash -> Option<Signature>)
      returns (ghost built: Block)
      requires timeouts + 1 < 3 && Valid() && Keyed(chain.mempool.transactions)
      modifies this, chain.mempool
      ensures Valid() && Value() == Engine.LiveTimeout(env, old(Value()), h, net, built, arrivals)
      ensures OwnBlock(chain.cfg, chain.Value(), env.local, timestamp, sign, built)
    {
      ghost var s := Value();
      built := NewRound(h, net, timestamp, timeouts + 1, sign);
      NotYetThird(env, s, h, net, built, arrivals);
    }

    method SetTimeouts(n: nat)
      requires Valid()
      modifies this`timeouts
      ensures Valid() && Value() == old(Value()).(timeouts := n)
    {
      timeouts := n;
    }

    method OnTick(net: Net, timestamp: int, started: int, ended: int, sign: Hash -> Option<Signature>)
      returns (ghost built: Block)
      requires Wired() && Valid() && Keyed(chain.mempool.transactions)
      modifies this, chain, chain.mempool
      ensures Valid() && Value() == Tick(env, old(Value()), net, built, started, ended)
      ensures OwnBlock(chain.cfg, old(chain.Value()), env.local, timestamp, sign, built)
    {
      built := SomeOwnBlock(chain.cfg, chain.Value(), env.local, timestamp, sign);
      if lastBlock > 0 && started - lastBlock < BLOCK_INTERVAL {
        return;
      }
      if ActiveSet(env.validators) == {} {
        built := ProduceSolo(timestamp, ended, sign);
      } else {
        built := TakeTurn(net, timestamp, sign);
      }
    }

    method ProduceSolo(timestamp: int, ended: int, sign: Hash -> Option<Signature>) returns (ghost built: Block)
      requires Wired() && Valid() && Keyed(chain.mempool.transactions)
      modifies this`height, this`round, this`phase, this`lastBlock, chain, chain.mempool
      ensures Valid() && Value() == Solo(env, old(Value()), built, ended)
      ensures OwnBlock(chain.cfg, old(chain.Value()), env.local, timestamp, sign, built)
    {
      var blk := Draft(timestamp, sign);
      built := blk;
      AddOwn(blk, ended);
    }

    method AddOwn(blk: Block, ended: int)
      requires Wired() && Valid()
      modifies this`height, this`round, this`phase, this`lastBlock, chain, chain.mempool
      ensures Valid() && Value() == Solo(env, old(Value()), blk, ended)
    {
      var ok := AddUnchecked(blk, ended);
      if ok {
        UpdateHeight(Wrap(blk.header.height + 1));
      }
    }

    method AddUnchecked(blk: Block, ended: int) returns (ok: bool)
      requires Wired() && Valid()
      modifies this`lastBlock, chain, chain.mempool
      ensures Valid() && (Value(), ok) == AdoptOwn(env, old(Value()), blk, ended)
    {
      ok := handler.AddUnchecked(blk);
      if ok {
        lastBlock := ended;
      }
    }

    method TakeTurn(net: Net, timestamp: int, sign: Hash -> Option<Signature>) returns (ghost built: Block)
      requires Valid() && Keyed(chain.mempool.transactions)
      modifies this, chain.mempool
      ensures Valid() && Value() == Engine.TakeTurn(env, old(Value()), net, built)
      ensures OwnBlock(chain.cfg, chain.Value(), env.local, timestamp, sign, built)
    {
      built := SomeOwnBlock(chain.cfg, chain.Value(), env.local, timestamp, sign);
      FollowChain();
      var prev := GetPrevHash();
      var proposer := env.select(height, round, prev);
      if proposer.None? {
        return;
      }
      if env.local.Some? && proposer.value == env.local.value.address {
        built := MyTurn(net, timestamp, sign);
      } else {
        AwaitProposal();
      }
    }

    method FollowChain()
      requires Valid()
      modifies this`height, this`round
      ensures Valid() && Value() == Engine.FollowChain(old(Value()))
    {
      var next := Wrap(chain.latestHeight + 1);
      if height != next {
        height, round := next, 0;
      }
    }

    method MyTurn(net: Net, timestamp: int, sign: Hash -> Option<Signature>) returns (ghost built: Block)
      requires Valid() && env.local.Some? && Keyed(chain.mempool.transactions)
      modifies this, chain.mempool
      ensures Valid() && Value() == Engine.MyTurn(env, old(Value()), net, built)
      ensures OwnBlock(chain.cfg, chain.Value(), env.local, timestamp, sign, built)
    {
      built := SomeOwnBlock(chain.cfg, chain.Value(), env.local, timestamp, sign);
      if proposed.None? || proposed.value.header.height != height {
        built := Propose(net, timestamp, true, sign);
      }
    }

    method AwaitProposal()
      requires Valid()
      modifies this
      ensures Valid() && Value() == Engine.AwaitProposal(old(Value()))
    {
      if prevotes == null || prevotes.height != height {
        NewVoteSets(height, 0);
      }
    }

    method OnBlock(blk: Block, clock: Clock)
      requires Wired() && Valid()
      modifies this`height, this`round, this`phase, handler, chain, chain.mempool
      ensures Valid() && Value() == ReceiveBlock(env, old(Value()), blk, clock)
      ensures old(Keyed(chain.mempool.transactions)) ==> Keyed(chain.mempool.transactions)
    {
      handler.next := None;
      handler.HandleBlock(blk, clock);
      if handler.next.Some? {
        UpdateHeight(handler.next.value);
      }
    }

    method UpdateHeight(next: u64)
      requires Valid()
      modifies this`height, this`round, this`phase
      ensures Valid() && Value() == GoTo(old(Value()), next)
    {
      height, round, phase := next, 0, Idle;
    }
  }
}
