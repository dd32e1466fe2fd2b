/** When a node commits, and when it votes: the handlers of consensus/engine.go described by what
    they do to the chain, the height and the votes to come. */
module Commits {
  import opened Basics
  import opened Types
  import opened ValidatorSets
  import opened Quorum
  import opened Ledger
  import opened Validation
  import opened Replay
  import opened BlockSync
  import opened Engine
  import opened Links

  /** A validator's signed vote for the height after the tip and the node's round. */
  ghost predicate Heard(env: Env, s: State, v: Vote) {
    && v.height == s.chain.tipHeight + 1 && v.round == s.round && v.voter in env.validators.members
    && env.verify(env.validators.members[v.voter].publicKey, v.blockHash, v.signature)
  }

  /** The votes once `v` is counted: one per voter, and only votes for the set's own height and round. */
  function VotesWith(t: Tally, v: Vote): map<Address, Vote> {
    if v.height == t.height && v.round == t.round && v.kind == t.kind && v.voter !in t.votes then t.votes[v.voter := v]
    else t.votes
  }

  ghost predicate AllName(votes: map<Address, Vote>, hash: Hash) {
    forall a :: a in votes ==> votes[a].blockHash == hash
  }

  /** The power of the voters, as it is counted. */
  ghost function VotedPower(vs: Validators, votes: map<Address, Vote>): u64 { Wrap(PowerOf(vs, votes.Keys)) }

  /** The block with the votes as its certificate. */
  function Sealed(blk: Block, votes: map<Address, Vote>, order: seq<Address>): Block
    requires forall i :: 0 <= i < |order| ==> order[i] in votes
  {
    blk.(commits := CommitsIn(votes, order))
  }

  lemma CountedVotes(env: Env, t: Tally, v: Vote, power: u64)
    requires TallyInv(env.verify, env.validators, t) && Counted(env.verify, env.validators, v, power)
    ensures var t' := AddVote(t, v, power);
      && t'.votes == VotesWith(t, v) && t'.power == VotedPower(env.validators, t'.votes)
      && TallyInv(env.verify, env.validators, t')
  {
    AddVoteKeepsTally(env.verify, env.validators, t, v, power);
  }

  lemma OrderIn(order: Ordering, votes: map<Address, Vote>)
    requires Ordered(order)
    ensures Enumerates(order(votes), votes) && forall i :: 0 <= i < |order(votes)| ==> order(votes)[i] in votes
  {
    EnumeratesVotes(order(votes), votes);
  }

  // ------------------------------------------------------------------ counting a precommit

  /** The state after a commit. */
  ghost predicate Committed(s: State, s': State, c: Chain, height: u64, at: Instant) {
    && s'.chain == c && s'.height == Wrap(height + 1) && s'.round == 0 && s'.phase == Idle
    && s'.proposed == None && s'.prevotes == None && s'.precommits == None
    && s'.timeouts == 0 && s'.lastBlock == at.millis && s'.pending == s.pending && s'.casts == s.casts
  }

  /** The state after a commit that was refused: the next round, with the certificate on the block. */
  ghost predicate Refused(s: State, s': State, votes: map<Address, Vote>, blk: Block) {
    && s'.chain == s.chain && s'.height == s.height && s'.round == (s.round + 1) % TWO32 && s'.phase == Committing
    && s'.proposed == Some(blk) && s'.precommits.Some? && s'.precommits.value.votes == votes
  }

  /** What counting the precommit `v` does, case by case. */
  ghost predicate PrecommitCounted(env: Env, s: State, v: Vote, at: Instant, order: Ordering, s': State)
    requires Ordered(order)
  {
    if s.precommits.None? then s' == s else
    var votes := VotesWith(s.precommits.value, v);
    OrderIn(order, votes);
    if !TwoThirds(VotedPower(env.validators, votes), env.validators.total) || s.proposed.None? then
      && s'.chain == s.chain && s'.precommits.Some? && s' == s.(precommits := s'.precommits)
      && s'.precommits.value.votes == votes
    else
      var blk := Sealed(s.proposed.value, votes, order(votes));
      match env.accept(at.seconds, s.chain, blk)
      case None => Refused(s, s', votes, blk)
      case Some(c) => Committed(s, s', c, blk.header.height, at)
  }

  lemma CountingPrecommit(env: Env, s: State, v: Vote, power: u64, at: Instant, order: Ordering)
    requires TalliesOk(env, s) && Ordered(order) && v.kind == Precommit
    requires Counted(env.verify, env.validators, v, power)
    ensures PrecommitCounted(env, s, v, at, order, Count(env, s, v, power, at, order))
  {
    if s.precommits.Some? {
      CountedVotes(env, s.precommits.value, v, power);
      OrderIn(order, VotesWith(s.precommits.value, v));
    }
  }

  lemma HeardIsRelevant(env: Env, s: State, v: Vote)
    ensures Heard(env, s, v) <==> Relevant(env, s, v)
  {
  }

  /** A vote that is not heard changes nothing. */
  lemma UnheardIgnored(env: Env, s: State, v: Vote, at: Instant, order: Ordering)
    requires Ordered(order) && !Heard(env, s, v)
    ensures Engine.Step(env, s, OnVote(v, at, order)) == s
  {
    HeardIsRelevant(env, s, v);
  }

  lemma HeardPrecommit(env: Env, s: State, v: Vote, at: Instant, order: Ordering)
    requires TalliesOk(env, s) && Ordered(order) && Heard(env, s, v) && v.kind == Precommit
    ensures PrecommitCounted(env, s, v, at, order, Engine.Step(env, s, OnVote(v, at, order)))
  {
    HeardIsRelevant(env, s, v);
    CountingPrecommit(env, s, v, env.validators.members[v.voter].power, at, order);
  }

  // ------------------------------------------------------------------ reachable states

  /** What holds in every reachable state: the tallies count their voters, and the block that is
      accepted next can be added. */
  ghost predicate Steady(env: Env, s: State) { TalliesOk(env, s) && Addressed(s.chain.store) }

  lemma AcceptKeepsAddressed(cfg: Config, vs: Validators, now: int, c: Chain, blk: Block)
    requires Addressed(c.store) && Accept(cfg, Some(vs), now, c, blk).Some?
    ensures Addressed(Accept(cfg, Some(vs), now, c, blk).value.store)
  {
    AppliedAddressed(c.store, blk.header.height, blk.txs);
  }

  /** A node that starts with nothing, or with the chain of any earlier run, stays steady. */
  lemma ReachableSteady(env: Env, cfg: Config, c: Chain, es: seq<Event>)
    requires Validates(env, cfg) && Registered(env) && ActiveSet(env.validators) != {} && Addressed(c.store)
    requires AllPossible(es) && AllOwnSigned(env, es)
    ensures Steady(env, Reach(env, Start(c), es))
  {
    var p: Chain -> bool := (x: Chain) => Addressed(x.store);
    forall now, c, blk ensures KeptAt(env.accept, p, now, c, blk) {
      if Addressed(c.store) && Accept(cfg, Some(env.validators), now, c, blk).Some? {
        AcceptKeepsAddressed(cfg, env.validators, now, c, blk);
      }
    }
    RunKeeps(env, p, Start(c), es);
    RunTallies(env, c, es);
  }

  // ------------------------------------------------------------------ commits happen

  /** The node validates with `cfg` against its validator set. */
  ghost predicate Validates(env: Env, cfg: Config) {
    env.verify == cfg.verify && env.accept == Accepting(cfg, Some(env.validators))
  }

  /** The proposed block is valid on the tip, its certificate aside. */
  ghost predicate ReadyBlock(env: Env, cfg: Config, c: Chain, blk: Block, now: int) {
    && blk.header.height == c.tipHeight + 1
    && BlockOk(cfg, c.store, blk, Context(now, Some(env.validators), false))
  }

  lemma CertificateCompletes(cfg: Config, st: Store, blk: Block, commits: seq<CommitSignature>, vs: Validators,
                             now: int)
    requires blk.header.height > 0 && BlockOk(cfg, st, blk, Context(now, Some(vs), false))
    ensures BlockOk(cfg, st, blk.(commits := commits), Context(now, Some(vs), true)) <==>
      CommitsOk(cfg.verify, vs, blk.header.hash, commits)
  {
  }

  lemma ReadyIsAdded(env: Env, cfg: Config, c: Chain, blk: Block, now: int, commits: seq<CommitSignature>)
    requires Validates(env, cfg) && ReadyBlock(env, cfg, c, blk, now) && Addressed(c.store)
    requires CommitsOk(env.verify, env.validators, blk.header.hash, commits)
    ensures var sealed := blk.(commits := commits);
      && env.accept(now, c, sealed) == AddBlock(c, sealed) && AddBlock(c, sealed).Some?
      && AddBlock(c, sealed).value.tipHeight == c.tipHeight + 1
      && BlockAt(AddBlock(c, sealed).value.store, c.tipHeight + 1) == Some(sealed)
  {
    CertificateCompletes(cfg, c.store, blk, commits, env.validators, now);
    ValidationSuffices(cfg, c.store, blk.header.height, blk.txs);
  }

  /** The votes all name the block, and both counts have two thirds. */
  ghost predicate Decided(env: Env, votes: map<Address, Vote>, hash: Hash) {
    && AllName(votes, hash)
    && TwoThirds(VotedPower(env.validators, votes), env.validators.total)
    && TwoThirds(ActivePower(env.validators, votes), env.validators.total)
  }

  lemma DecidedSeals(env: Env, t: Tally, votes: map<Address, Vote>, hash: Hash, order: seq<Address>)
    requires TallyInv(env.verify, env.validators, t) && t.votes == votes && Decided(env, votes, hash)
    requires Enumerates(order, votes) && (forall i :: 0 <= i < |order| ==> order[i] in votes)
    requires env.validators.members != map[]
    ensures CommitsOk(env.verify, env.validators, hash, CommitsIn(votes, order))
  {
    CertificateCountsActive(env.verify, env.validators, t, hash, order);
  }

  /** The chain holds the proposed block with its certificate at the height after the old tip, and
      the node is ready for the next height. */
  ghost predicate Advanced(s: State, s': State, sealed: Block, at: Instant) {
    && Some(s'.chain) == AddBlock(s.chain, sealed) && s'.chain.tipHeight == s.chain.tipHeight + 1
    && BlockAt(s'.chain.store, s.chain.tipHeight + 1) == Some(sealed)
    && Committed(s, s', s'.chain, sealed.header.height, at)
  }

  /** The precommit that completes two thirds of the power, all for the proposed block, puts that
      block on the chain. */
  lemma DecidingVoteCommits(env: Env, cfg: Config, s: State, v: Vote, at: Instant, order: Ordering, blk: Block)
    requires Validates(env, cfg) && Steady(env, s) && Ordered(order)
    requires Heard(env, s, v) && v.kind == Precommit && s.precommits.Some? && s.proposed == Some(blk)
    requires ReadyBlock(env, cfg, s.chain, blk, at.seconds)
    requires Decided(env, VotesWith(s.precommits.value, v), blk.header.hash)
    ensures var votes := VotesWith(s.precommits.value, v);
      && (forall i :: 0 <= i < |order(votes)| ==> order(votes)[i] in votes)
      && Advanced(s, Engine.Step(env, s, OnVote(v, at, order)), Sealed(blk, votes, order(votes)), at)
  {
    HeardPrecommit(env, s, v, at, order);
    HeardIsRelevant(env, s, v);
    DecidedAdvances(env, cfg, s, v, env.validators.members[v.voter].power, at, order, blk,
                    Engine.Step(env, s, OnVote(v, at, order)));
  }

  lemma DecidedAdvances(env: Env, cfg: Config, s: State, v: Vote, power: u64, at: Instant, order: Ordering, blk: Block,
                        s': State)
    requires Validates(env, cfg) && Steady(env, s) && Ordered(order)
    requires Counted(env.verify, env.validators, v, power) && env.validators.members != map[]
    requires s.precommits.Some? && s.proposed == Some(blk) && ReadyBlock(env, cfg, s.chain, blk, at.seconds)
    requires Decided(env, VotesWith(s.precommits.value, v), blk.header.hash)
    requires PrecommitCounted(env, s, v, at, order, s')
    ensures var votes := VotesWith(s.precommits.value, v);
      && (forall i :: 0 <= i < |order(votes)| ==> order(votes)[i] in votes)
      && Advanced(s, s', Sealed(blk, votes, order(votes)), at)
  {
    var t := AddVote(s.precommits.value, v, power);
    CountedVotes(env, s.precommits.value, v, power);
    OrderIn(order, t.votes);
    DecidedSeals(env, t, t.votes, blk.header.hash, order(t.votes));
    ReadyIsAdded(env, cfg, s.chain, blk, at.seconds, CommitsIn(t.votes, order(t.votes)));
  }

  /** The same when the deciding precommit is the node's own. */
  lemma OwnDecidingVoteCommits(env: Env, cfg: Config, s: State, c: Cast, sig: Signature, at: Instant, order: Ordering,
                               blk: Block)
    requires Validates(env, cfg) && Registered(env) && Steady(env, s) && Ordered(order)
    requires OwnSigned(env, OnCast(c, Some(sig), at, order)) && env.validators.members != map[]
    requires env.local.Some? && c in s.casts && c.kind == Precommit && c.height == s.height && c.round == s.round
    requires s.precommits.Some? && s.proposed == Some(blk) && ReadyBlock(env, cfg, s.chain, blk, at.seconds)
    requires Decided(env, VotesWith(s.precommits.value, OwnVote(env.local.value, c, sig, at)), blk.header.hash)
    ensures var votes := VotesWith(s.precommits.value, OwnVote(env.local.value, c, sig, at));
      && (forall i :: 0 <= i < |order(votes)| ==> order(votes)[i] in votes)
      && Advanced(s.(casts := s.casts - multiset{c}), Engine.Step(env, s, OnCast(c, Some(sig), at, order)),
                  Sealed(blk, votes, order(votes)), at)
  {
    var l := env.local.value;
    var v, rest := OwnVote(l, c, sig, at), s.(casts := s.casts - multiset{c});
    QueuedVote(env, s, c, Some(sig), at, order);
    DecidedAdvances(env, cfg, rest, v, l.power, at, order, blk, Engine.Step(env, s, OnCast(c, Some(sig), at, order)));
  }

  // ------------------------------------------------------------------ and only then

  /** A vote changes the chain only if it is a precommit that completes two thirds for the proposed
      block, and then to what accepting that block with the precommits gives. */
  lemma ChainChangesOnlyOnDecision(env: Env, s: State, v: Vote, at: Instant, order: Ordering)
    requires TalliesOk(env, s) && Ordered(order) && Engine.Step(env, s, OnVote(v, at, order)).chain != s.chain
    ensures Heard(env, s, v) && v.kind == Precommit && s.precommits.Some? && s.proposed.Some?
    ensures var votes := VotesWith(s.precommits.value, v);
      && TwoThirds(VotedPower(env.validators, votes), env.validators.total)
      && (forall i :: 0 <= i < |order(votes)| ==> order(votes)[i] in votes)
      && env.accept(at.seconds, s.chain, Sealed(s.proposed.value, votes, order(votes)))
         == Some(Engine.Step(env, s, OnVote(v, at, order)).chain)
  {
    if !Heard(env, s, v) {
      UnheardIgnored(env, s, v, at, order);
    } else if v.kind == Prevote {
      HeardIsRelevant(env, s, v);
    } else {
      HeardPrecommit(env, s, v, at, order);
      if s.precommits.Some? {
        OrderIn(order, VotesWith(s.precommits.value, v));
      }
    }
  }

  /** And then every active voter among them has signed the block's hash, with two thirds between them. */
  lemma ChangeIsCertified(env: Env, cfg: Config, s: State, v: Vote, at: Instant, order: Ordering)
    requires Validates(env, cfg) && TalliesOk(env, s) && Ordered(order)
    requires Engine.Step(env, s, OnVote(v, at, order)).chain != s.chain
    requires s.proposed.Some? && s.proposed.value.header.height > 0 && s.precommits.Some?
    ensures var votes := VotesWith(s.precommits.value, v);
      && TwoThirds(ActivePower(env.validators, votes), env.validators.total)
      && forall a :: a in votes && a in ActiveSet(env.validators) ==>
           env.verify(env.validators.members[a].publicKey, s.proposed.value.header.hash, votes[a].signature)
  {
    ChainChangesOnlyOnDecision(env, s, v, at, order);
    var votes := VotesWith(s.precommits.value, v);
    var power := env.validators.members[v.voter].power;
    CountedVotes(env, s.precommits.value, v, power);
    OrderIn(order, votes);
    var sealed := Sealed(s.proposed.value, votes, order(votes));
    AcceptedHasCertificate(env, cfg, s.chain, sealed, at.seconds);
    CertificateAccepted(env.verify, env.validators, AddVote(s.precommits.value, v, power), sealed.header.hash,
                        order(votes));
  }

  lemma AcceptedHasCertificate(env: Env, cfg: Config, c: Chain, blk: Block, now: int)
    requires Validates(env, cfg) && env.accept(now, c, blk).Some? && blk.header.height > 0
    ensures CommitsOk(env.verify, env.validators, blk.header.hash, blk.commits)
  {
  }

  // ------------------------------------------------------------------ a quorum decides, in any order

  lemma {:induction false} ReachFront(env: Env, s: State, e: Event, es: seq<Event>)
    requires AllPossible([e] + es) && AllPossible(es) && Possible(e)
    ensures Reach(env, s, [e] + es) == Reach(env, Engine.Step(env, s, e), es)
  {
    var all := [e] + es;
    if es == [] {
      assert all[..0] == [] && all[0] == e;
    } else {
      var init := es[..|es| - 1];
      assert all[..|all| - 1] == [e] + init;
      ReachFront(env, s, e, init);
    }
  }

  /** The node collects precommits for `blk` and has none for anything else. */
  ghost predicate Collects(s: State, blk: Block) {
    && s.proposed == Some(blk) && blk.header.height == s.chain.tipHeight + 1
    && s.precommits.Some? && s.precommits.value.height == blk.header.height && s.precommits.value.round == s.round
    && AllName(s.precommits.value.votes, blk.header.hash)
  }

  ghost predicate Polling(env: Env, s: State, blk: Block) { Steady(env, s) && Collects(s, blk) }

  /** A validator's precommit for `blk` arrives while `blk` is valid on the tip. */
  ghost predicate Ballot(env: Env, cfg: Config, c: Chain, round: u32, blk: Block, e: Event) {
    && e.OnVote? && Ordered(e.order) && e.vote.kind == Precommit && e.vote.blockHash == blk.header.hash
    && e.vote.height == c.tipHeight + 1 && e.vote.round == round && e.vote.voter in env.validators.members
    && env.verify(env.validators.members[e.vote.voter].publicKey, e.vote.blockHash, e.vote.signature)
    && ReadyBlock(env, cfg, c, blk, e.at.seconds)
  }

  ghost predicate Ballots(env: Env, cfg: Config, c: Chain, round: u32, blk: Block, es: seq<Event>) {
    forall i :: 0 <= i < |es| ==> Ballot(env, cfg, c, round, blk, es[i])
  }

  function Voters(es: seq<Event>): set<Address> { set i | 0 <= i < |es| && es[i].OnVote? :: es[i].vote.voter }

  lemma ActiveIsVoted(vs: Validators, votes: map<Address, Vote>)
    requires AllActive(vs)
    ensures ActivePower(vs, votes) == VotedPower(vs, votes)
  {
    forall a | a in vs.members ensures a in ActiveSet(vs) {
      assert vs.members[a].active;
    }
    assert Restrict(Powers(vs.members), votes.Keys * ActiveSet(vs)) == Restrict(Powers(vs.members), votes.Keys);
  }

  lemma QuorumIsTwoThirds(vs: Validators, votes: map<Address, Vote>, voters: set<Address>)
    requires Sound(vs) && voters <= votes.Keys && 3 * PowerOf(vs, voters) > 2 * vs.total
    ensures TwoThirds(VotedPower(vs, votes), vs.total)
  {
    PowerMonotone(vs, voters, votes.Keys);
    PowerBounds(vs, votes.Keys);
    TwoThirdsExact(PowerOf(vs, votes.Keys), vs.total);
  }

  /** One ballot: either it decides, or the node keeps polling with one vote more. */
  lemma BallotCounts(env: Env, cfg: Config, s: State, blk: Block, e: Event)
    requires Validates(env, cfg) && AllActive(env.validators) && Polling(env, s, blk)
    requires Ballot(env, cfg, s.chain, s.round, blk, e)
    ensures var s', votes := Engine.Step(env, s, e), VotesWith(s.precommits.value, e.vote);
      && votes.Keys == s.precommits.value.votes.Keys + {e.vote.voter}
      && if TwoThirds(VotedPower(env.validators, votes), env.validators.total)
         then s'.chain.tipHeight == s.chain.tipHeight + 1 && HoldsBlock(s'.chain, blk)
         else Polling(env, s', blk) && s'.chain == s.chain && s'.round == s.round && s'.precommits.value.votes == votes
  {
    var v, votes := e.vote, VotesWith(s.precommits.value, e.vote);
    assert Heard(env, s, v);
    HeardPrecommit(env, s, v, e.at, e.order);
    ActiveIsVoted(env.validators, votes);
    if TwoThirds(VotedPower(env.validators, votes), env.validators.total) {
      DecidingVoteCommits(env, cfg, s, v, e.at, e.order, blk);
    } else {
      StillPolling(env, s, blk, e);
    }
  }

  /** The chain holds `blk` at its height, whatever its certificate. */
  ghost predicate HoldsBlock(c: Chain, blk: Block) {
    match BlockAt(c.store, blk.header.height)
    case None => false
    case Some(b) => b == blk.(commits := b.commits)
  }

  lemma StillPolling(env: Env, s: State, blk: Block, e: Event)
    requires Polling(env, s, blk) && e.OnVote? && Ordered(e.order) && Heard(env, s, e.vote) && e.vote.kind == Precommit
    requires e.vote.blockHash == blk.header.hash
    requires var votes := VotesWith(s.precommits.value, e.vote);
      !TwoThirds(VotedPower(env.validators, votes), env.validators.total)
    ensures Polling(env, Engine.Step(env, s, e), blk)
  {
    var power := env.validators.members[e.vote.voter].power;
    HeardIsRelevant(env, s, e.vote);
    CountedVotes(env, s.precommits.value, e.vote, power);
    VoteTallies(env, s, e.vote, e.at, e.order);
  }

  /** With the ballots to come, the voters have more than two thirds. */
  ghost predicate QuorumToCome(vs: Validators, votes: map<Address, Vote>, es: seq<Event>) {
    3 * PowerOf(vs, votes.Keys + Voters(es)) > 2 * vs.total
  }

  lemma MoreToCome(vs: Validators, votes: map<Address, Vote>, votes': map<Address, Vote>, e: Event, rest: seq<Event>)
    requires Sound(vs) && e.OnVote? && votes'.Keys == votes.Keys + {e.vote.voter} && QuorumToCome(vs, votes, [e] + rest)
    ensures QuorumToCome(vs, votes', rest)
    ensures rest == [] ==> TwoThirds(VotedPower(vs, votes'), vs.total)
  {
    VotersSplit(e, rest);
    assert votes.Keys + Voters([e] + rest) == votes'.Keys + Voters(rest);
    if rest == [] {
      QuorumIsTwoThirds(vs, votes', votes'.Keys + Voters(rest));
    }
  }

  /** After `i` events the chain has grown by `blk`. */
  ghost predicate CommitsAfter(env: Env, s: State, blk: Block, es: seq<Event>, i: nat)
    requires AllPossible(es)
  {
    i <= |es| && var c := Reach(env, s, es[..i]).chain; c.tipHeight == s.chain.tipHeight + 1 && HoldsBlock(c, blk)
  }

  lemma CommitsAtOnce(env: Env, s: State, blk: Block, e: Event, rest: seq<Event>)
    requires AllPossible([e] + rest) && Possible(e)
    requires var c := Engine.Step(env, s, e).chain; c.tipHeight == s.chain.tipHeight + 1 && HoldsBlock(c, blk)
    ensures CommitsAfter(env, s, blk, [e] + rest, 1)
  {
    assert ([e] + rest)[..1] == [e] && [e][..0] == [] && [e][0] == e;
    assert Reach(env, s, [e]) == Engine.Step(env, Reach(env, s, []), e);
  }

  lemma CommitsLater(env: Env, s: State, blk: Block, e: Event, rest: seq<Event>, i: nat)
    requires AllPossible([e] + rest) && AllPossible(rest) && Possible(e) && Engine.Step(env, s, e).chain == s.chain
    requires CommitsAfter(env, Engine.Step(env, s, e), blk, rest, i)
    ensures CommitsAfter(env, s, blk, [e] + rest, i + 1)
  {
    assert ([e] + rest)[..i + 1] == [e] + rest[..i];
    ReachFront(env, s, e, rest[..i]);
  }

  /** Precommits for the proposed block by validators with more than two thirds of the power commit
      it, in whatever order they arrive. */
  lemma {:induction false} QuorumCommits(env: Env, cfg: Config, s: State, blk: Block, es: seq<Event>) returns (i: nat)
    requires Validates(env, cfg) && AllActive(env.validators) && Sound(env.validators) && Polling(env, s, blk)
    requires es != [] && AllPossible(es) && Ballots(env, cfg, s.chain, s.round, blk, es)
    requires QuorumToCome(env.validators, s.precommits.value.votes, es)
    ensures i > 0 && CommitsAfter(env, s, blk, es, i)
    decreases |es|, 1
  {
    assert es == [es[0]] + es[1..];
    assert Ballot(env, cfg, s.chain, s.round, blk, es[0]);
    i := QuorumCommitsFrom(env, cfg, s, blk, es[0], es[1..]);
  }

  lemma {:induction false} QuorumCommitsFrom(env: Env, cfg: Config, s: State, blk: Block, e: Event, rest: seq<Event>)
    returns (i: nat)
    requires Validates(env, cfg) && AllActive(env.validators) && Sound(env.validators) && Polling(env, s, blk)
    requires AllPossible([e] + rest) && AllPossible(rest) && Possible(e)
    requires Ballot(env, cfg, s.chain, s.round, blk, e) && Ballots(env, cfg, s.chain, s.round, blk, rest)
    requires QuorumToCome(env.validators, s.precommits.value.votes, [e] + rest)
    ensures i > 0 && CommitsAfter(env, s, blk, [e] + rest, i)
    decreases |rest| + 1, 0
  {
    var s', votes := Engine.Step(env, s, e), VotesWith(s.precommits.value, e.vote);
    BallotCounts(env, cfg, s, blk, e);
    MoreToCome(env.validators, s.precommits.value.votes, votes, e, rest);
    if TwoThirds(VotedPower(env.validators, votes), env.validators.total) {
      CommitsAtOnce(env, s, blk, e, rest);
      i := 1;
    } else {
      i := QuorumCommits(env, cfg, s', blk, rest);
      CommitsLater(env, s, blk, e, rest, i);
      i := i + 1;
    }
  }

  lemma VotersSplit(e: Event, rest: seq<Event>)
    requires e.OnVote?
    ensures Voters([e] + rest) == {e.vote.voter} + Voters(rest)
  {
    var es := [e] + rest;
    assert es[0] == e && forall i :: 0 <= i < |rest| ==> es[i + 1] == rest[i];
    forall a ensures a in Voters(es) <==> a == e.vote.voter || a in Voters(rest) {
      if a in Voters(es) {
        var i :| 0 <= i < |es| && es[i].OnVote? && es[i].vote.voter == a;
        assert i > 0 ==> es[i] == rest[i - 1];
      }
      if a in Voters(rest) {
        var i :| 0 <= i < |rest| && rest[i].OnVote? && rest[i].vote.voter == a;
        assert es[i + 1].vote.voter == a;
      }
    }
  }

  /** So it is in every reachable state. */
  lemma ReachableQuorumCommits(env: Env, cfg: Config, c: Chain, before: seq<Event>, blk: Block, es: seq<Event>)
    returns (i: nat)
    requires Validates(env, cfg) && AllActive(env.validators) && Sound(env.validators) && Registered(env)
    requires ActiveSet(env.validators) != {} && Addressed(c.store) && AllPossible(before) && AllOwnSigned(env, before)
    requires es != [] && AllPossible(es)
    requires var s := Reach(env, Start(c), before);
      && Collects(s, blk) && Ballots(env, cfg, s.chain, s.round, blk, es)
      && QuorumToCome(env.validators, s.precommits.value.votes, es)
    ensures i > 0 && CommitsAfter(env, Reach(env, Start(c), before), blk, es, i)
  {
    ReachableSteady(env, cfg, c, before);
    i := QuorumCommits(env, cfg, Reach(env, Start(c), before), blk, es);
  }

  // ------------------------------------------------------------------ prevotes and proposals

  /** What counting the prevote `v` does: two thirds of prevotes, and nothing less, queue a precommit
      for the hash of the vote that completed them. */
  ghost predicate PrevoteCounted(env: Env, s: State, v: Vote, s': State) {
    if s.prevotes.None? then s' == s else
    var votes := VotesWith(s.prevotes.value, v);
    var decided := TwoThirds(VotedPower(env.validators, votes), env.validators.total);
    && s'.prevotes.Some? && s'.prevotes.value.votes == votes
    && s' == s.(prevotes := s'.prevotes,
                casts := if decided && env.local.Some?
                         then s.casts + multiset{Cast(Precommit, v.blockHash, s.height, s.round)} else s.casts,
                phase := if decided && s.phase == Prevoting then Precommitting else s.phase)
  }

  lemma CountingPrevote(env: Env, s: State, v: Vote, power: u64, at: Instant, order: Ordering)
    requires TalliesOk(env, s) && Ordered(order) && v.kind == Prevote
    requires Counted(env.verify, env.validators, v, power)
    ensures PrevoteCounted(env, s, v, Count(env, s, v, power, at, order))
  {
    if s.prevotes.Some? {
      CountedVotes(env, s.prevotes.value, v, power);
    }
  }

  lemma PrevotesQueuePrecommit(env: Env, s: State, v: Vote, at: Instant, order: Ordering)
    requires TalliesOk(env, s) && Ordered(order) && Heard(env, s, v) && v.kind == Prevote
    ensures PrevoteCounted(env, s, v, Engine.Step(env, s, OnVote(v, at, order)))
  {
    HeardIsRelevant(env, s, v);
    CountingPrevote(env, s, v, env.validators.members[v.voter].power, at, order);
  }

  /** A queued vote is counted like any other if the node is still where it was decided on, and is
      dropped otherwise. Nothing else is ever cast. */
  lemma QueuedVote(env: Env, s: State, c: Cast, signature: Option<Signature>, at: Instant, order: Ordering)
    requires TalliesOk(env, s) && Ordered(order) && Registered(env) && OwnSigned(env, OnCast(c, signature, at, order))
    ensures var s', rest := Engine.Step(env, s, OnCast(c, signature, at, order)), s.(casts := s.casts - multiset{c});
      if c !in s.casts || env.local.None? then s' == s
      else if c.height != s.height || c.round != s.round || signature.None? then s' == rest
      else
        var v := Vote(c.height, c.round, c.kind, c.hash, env.local.value.address, signature.value, at.seconds);
        if c.kind == Prevote then PrevoteCounted(env, rest, v, s') else PrecommitCounted(env, rest, v, at, order, s')
  {
    if c in s.casts && env.local.Some? && c.height == s.height && c.round == s.round && signature.Some? {
      OwnVoteCounted(env, s.(casts := s.casts - multiset{c}), c, signature.value, at, order);
    }
  }

  lemma OwnVoteCounted(env: Env, s: State, c: Cast, sig: Signature, at: Instant, order: Ordering)
    requires TalliesOk(env, s) && Ordered(order) && Registered(env) && env.local.Some?
    requires OwnSigned(env, OnCast(c, Some(sig), at, order))
    ensures var v, power := OwnVote(env.local.value, c, sig, at), env.local.value.power;
      if c.kind == Prevote then PrevoteCounted(env, s, v, Count(env, s, v, power, at, order))
      else PrecommitCounted(env, s, v, at, order, Count(env, s, v, power, at, order))
  {
    var v := OwnVote(env.local.value, c, sig, at);
    if c.kind == Prevote {
      CountingPrevote(env, s, v, env.local.value.power, at, order);
    } else {
      CountingPrecommit(env, s, v, env.local.value.power, at, order);
    }
  }

  /** The voting on `blk` has begun: nothing is counted yet and the node will prevote for `hash`. */
  ghost predicate VotingBegins(env: Env, s: State, s': State, height: u64, round: u32, blk: Block, hash: Hash) {
    && s'.chain == s.chain && s'.proposed == Some(blk) && s'.height == height && s'.round == round
    && s'.prevotes == Some(Tally(height, round, Prevote, map[], 0))
    && s'.precommits == Some(Tally(height, round, Precommit, map[], 0))
    && s'.casts == s.casts + (if env.local.Some? then multiset{Cast(Prevote, hash, height, round)} else multiset{})
  }

  /** A proposal is taken up exactly if it is for the height after the tip, by the expected proposer
      of its round, and valid; the node then votes on it. A valid proposer's invalid block still moves
      the node to its round, and any other proposal changes nothing. */
  lemma ProposalTakenUp(env: Env, s: State, height: u64, round: u32, hash: Hash, blk: Block, now: int)
    ensures var s' := Engine.Step(env, s, OnProposal(height, round, hash, blk, now));
      if height != s.chain.tipHeight + 1 || env.select(height, round, PrevHash(s.chain)) != Some(blk.proposer)
      then s' == s
      else if !env.valid(now, s.chain, blk) then s' == s.(height := height, round := round)
      else s'.phase == Prevoting && VotingBegins(env, s, s', height, round, blk, hash)
  {
  }

  lemma ProposingBegins(env: Env, s: State, built: Block)
    ensures var s' := ProposeOnTick(env, s, Sends, built);
      s'.phase == Prevoting && VotingBegins(env, s, s', s.height, s.round, built, built.header.hash)
  {
  }

  lemma TurnIsTaken(env: Env, s: State, net: Net, built: Block)
    requires env.local.Some? && s.height == s.chain.tipHeight + 1
    requires env.select(s.height, s.round, PrevHash(s.chain)) == Some(env.local.value.address)
    requires s.proposed.Some? ==> s.proposed.value.header.height != s.height
    ensures TakeTurn(env, s, net, built) == ProposeOnTick(env, s, net, built)
  {
    assert FollowChain(s) == s;
  }

  /** On its turn, with nothing proposed for this height yet, a node that can send proposes `built`
      and votes on it. */
  lemma TickProposes(env: Env, s: State, built: Block, started: int, ended: int)
    requires env.local.Some? && ActiveSet(env.validators) != {} && !(s.lastBlock > 0 && started - s.lastBlock < 1000)
    requires s.height == s.chain.tipHeight + 1
    requires env.select(s.height, s.round, PrevHash(s.chain)) == Some(env.local.value.address)
    requires s.proposed.Some? ==> s.proposed.value.header.height != s.height
    ensures var s' := Engine.Step(env, s, OnTick(Sends, built, started, ended));
      s'.phase == Prevoting && VotingBegins(env, s, s', s.height, s.round, built, built.header.hash)
  {
    TurnIsTaken(env, s, Sends, built);
    ProposingBegins(env, s, built);
  }

  /** A node that cannot send proposes all the same, but does not vote; without peers it does not even
      open the voting. */
  lemma TickProposesUnsent(env: Env, s: State, net: Net, built: Block, started: int, ended: int)
    requires env.local.Some? && ActiveSet(env.validators) != {} && !(s.lastBlock > 0 && started - s.lastBlock < 1000)
    requires s.height == s.chain.tipHeight + 1 && net != Sends
    requires env.select(s.height, s.round, PrevHash(s.chain)) == Some(env.local.value.address)
    requires s.proposed.Some? ==> s.proposed.value.header.height != s.height
    ensures var s' := Engine.Step(env, s, OnTick(net, built, started, ended));
      && s'.phase == Proposing && s'.proposed == Some(built) && s'.chain == s.chain && s'.casts == s.casts
      && s'.height == s.height && s'.round == s.round
      && if net == NoPeers then s'.prevotes == s.prevotes && s'.precommits == s.precommits
         else && s'.prevotes == Some(Tally(s.height, s.round, Prevote, map[], 0))
              && s'.precommits == Some(Tally(s.height, s.round, Precommit, map[], 0))
  {
    TurnIsTaken(env, s, net, built);
  }

  /** Nothing happens within a second of the last block, nor twice for one height. */
  lemma TickDoesNothing(env: Env, s: State, net: Net, built: Block, started: int, ended: int)
    requires || (s.lastBlock > 0 && started - s.lastBlock < 1000)
             || (&& env.local.Some? && ActiveSet(env.validators) != {} && s.height == s.chain.tipHeight + 1
                 && env.select(s.height, s.round, PrevHash(s.chain)) == Some(env.local.value.address)
                 && s.proposed.Some? && s.proposed.value.header.height == s.height)
    ensures Engine.Step(env, s, OnTick(net, built, started, ended)) == s
  {
    assert s.height == s.chain.tipHeight + 1 ==> FollowChain(s) == s;
  }

  /** A node that is elsewhere acts as if it were in round 0 of the height after the tip. */
  lemma TickCatchesUp(env: Env, s: State, net: Net, built: Block, started: int, ended: int)
    requires ActiveSet(env.validators) != {} && !(s.lastBlock > 0 && started - s.lastBlock < 1000)
    requires s.height != Wrap(s.chain.tipHeight + 1)
    ensures Engine.Step(env, s, OnTick(net, built, started, ended))
         == Engine.Step(env, s.(height := Wrap(s.chain.tipHeight + 1), round := 0), OnTick(net, built, started, ended))
  {
    var t := s.(height := Wrap(s.chain.tipHeight + 1), round := 0);
    assert FollowChain(s) == t && FollowChain(t) == t;
  }

  /** A live timeout that makes it the node's turn does the same in the next round; on another's turn
      it leaves nothing proposed and no votes. */
  lemma TimeoutPassesTurn(env: Env, s: State, built: Block)
    requires s.timeouts < 2
    ensures var s' := Engine.Step(env, s, OnTimeout(s.height, s.round, Sends, built, Nothing));
      var round := (s.round + 1) % TWO32;
      if env.local.Some? && env.select(s.height, round, PrevHash(s.chain)) == Some(env.local.value.address)
      then VotingBegins(env, s, s', s.height, round, built, built.header.hash)
      else && s'.chain == s.chain && s'.height == s.height && s'.round == round && s'.casts == s.casts
           && s'.proposed == None && s'.prevotes == None && s'.precommits == None
  {
    NotYetThird(env, s, s.height, Sends, built, Nothing);
  }

  /** A validator waiting for its next height gets empty vote sets for it. */
  lemma TickAwaits(env: Env, s: State, net: Net, built: Block, started: int, ended: int, a: Address)
    requires ActiveSet(env.validators) != {} && !(s.lastBlock > 0 && started - s.lastBlock < 1000)
    requires s.height == s.chain.tipHeight + 1 && env.select(s.height, s.round, PrevHash(s.chain)) == Some(a)
    requires env.local.Some? ==> env.local.value.address != a
    ensures var s' := Engine.Step(env, s, OnTick(net, built, started, ended));
      if s.prevotes.Some? && s.prevotes.value.height == s.height then s' == s
      else s' == s.(prevotes := Some(Tally(s.height, 0, Prevote, map[], 0)),
                    precommits := Some(Tally(s.height, 0, Precommit, map[], 0)))
  {
  }

  /** Without active validators a node that is not too early adds its own block and goes to the next
      height, and stays as it is if the block cannot be added. */
  lemma SoloProduces(env: Env, s: State, net: Net, built: Block, started: int, ended: int)
    requires ActiveSet(env.validators) == {}
    ensures var s' := Engine.Step(env, s, OnTick(net, built, started, ended));
      if (s.lastBlock > 0 && started - s.lastBlock < 1000) || env.add(s.chain, built).None? then s' == s
      else s' == s.(chain := env.add(s.chain, built).value, lastBlock := ended,
                    height := Wrap(built.header.height + 1), round := 0, phase := Idle)
  {
  }

  /** The choice of a proposer is seeded with the hash of the block at the tip. */
  lemma SeedIsTip(verify: Verifier, vs: Option<Validators>, c: Chain)
    requires LinkedChain(verify, vs, c)
    ensures c.tipHeight > 0 ==>
      StoredAt(c.store, c.tipHeight) && PrevHash(c) == Stored(c.store, c.tipHeight).header.ContentHash()
    ensures c.tipHeight == 0 ==> PrevHash(c) == ZeroHash
  {
    LinkedIsHashed(verify, vs, c, c.tipHeight);
  }

  /** The node has followed the chain. */
  ghost predicate FollowsChain(s: State, s': State) {
    && s'.chain.tipHeight >= s.chain.tipHeight
    && (s'.chain.tipHeight > s.chain.tipHeight ==>
          s'.height == Wrap(s'.chain.tipHeight + 1) && s'.round == 0 && s'.phase == Idle)
    && s'.proposed == s.proposed && s'.prevotes == s.prevotes && s'.precommits == s.precommits
  }

  lemma SyncStep(env: Env, p: Chain -> bool, s: State, blk: Block, clock: Clock)
    requires KeepsAtTip(env.accept, p) && KeepsOnImport(env.accept, p) && p(s.chain) && PendingKeyed(s.pending)
    ensures var s' := Engine.Step(env, s, OnBlock(blk, clock));
      p(s'.chain) && PendingKeyed(s'.pending) && FollowsChain(s, s')
  {
    HandleAtTip(env.accept, p, clock, Sync(s.chain, s.pending, None), blk);
  }

  /** When blocks from peers make the chain grow, the node goes to the height after the new tip, and
      the chain stays linked. */
  lemma SyncMovesOn(env: Env, cfg: Config, s: State, blk: Block, clock: Clock)
    requires Validates(env, cfg) && LinkedChain(cfg.verify, Some(env.validators), s.chain) && PendingKeyed(s.pending)
    ensures var s' := Engine.Step(env, s, OnBlock(blk, clock));
      && LinkedChain(cfg.verify, Some(env.validators), s'.chain) && PendingKeyed(s'.pending)
      && FollowsChain(s, s')
  {
    var p: Chain -> bool := c => LinkedChain(cfg.verify, Some(env.validators), c);
    AcceptKeepsLinks(cfg, Some(env.validators), p);
    SyncStep(env, p, s, blk, clock);
  }
}
