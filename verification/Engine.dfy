/** One validator node as a state machine: the handlers of consensus/engine.go with the block
    handler of app/app.go. Each handler runs atomically; sleeping goroutines are steps that the
    environment may take at any time. */
module Engine {
  import opened Basics
  import opened Types
  import opened ValidatorSets
  import opened Quorum
  import opened Validation
  import opened Replay
  import opened BlockSync

  datatype Phase = Idle | Proposing | Prevoting | Precommitting | Committing

  /** A vote that was decided on and will be cast after a delay. */
  datatype Cast = Cast(kind: VoteKind, hash: Hash, height: u64, round: u32)

  datatype State = State(
    chain: Chain, pending: map<int, Block>,
    phase: Phase, height: u64, round: u32,
    prevotes: Option<Tally>, precommits: Option<Tally>, proposed: Option<Block>,
    timeouts: nat, casts: multiset<Cast>, lastBlock: int)

  /** The validator this node votes as, with the power it was registered with. */
  datatype Local = Local(address: Address, power: u64)

  /** What is fixed: the validator set, the local validator and the foreign calls. `accept`
      validates a block with its certificate and adds it, `valid` validates it without, and `add`
      adds it without validating. */
  datatype Env = Env(
    verify: Verifier, validators: Validators, local: Option<Local>,
    select: (int, int, Hash) -> Option<Address>, accept: Acceptor, valid: Checker, add: Adder)

  /** Two clock readings: the time of a block or vote in seconds, and that of a commit in
      milliseconds. */
  datatype Instant = Instant(seconds: int, millis: int)

  /** Blocks that arrive from peers one after the other, each with the clock while it is handled. */
  datatype Arrivals = Nothing | AndThen(earlier: Arrivals, blk: Block, clock: Clock)

  const BLOCK_INTERVAL := 1000

  /** Whether a proposal can be sent to peers. */
  datatype Net = NoPeers | Fails | Sends

  /** One order of visiting each of the votes of a set. */
  type Ordering = map<Address, Vote> -> seq<Address>

  ghost predicate Ordered(order: Ordering) { forall votes :: Enumerates(order(votes), votes) }

  // ------------------------------------------------------------------ handlers

  function Fresh(height: u64, round: u32, kind: VoteKind): Option<Tally> { Some(Tally(height, round, kind, map[], 0)) }

  function FreshSets(s: State, height: u64, round: u32): State {
    s.(prevotes := Fresh(height, round, Prevote), precommits := Fresh(height, round, Precommit))
  }

  function NoSets(s: State): State { s.(proposed := None, prevotes := None, precommits := None) }

  /** The hash that seeds the choice of a proposer. */
  function PrevHash(c: Chain): Hash {
    if c.tipHeight == 0 then ZeroHash
    else match BlockAt(c.store, c.tipHeight) case None => ZeroHash case Some(b) => b.header.hash
  }

  function NextRound(s: State): State { s.(round := (s.round + 1) % 0x1_0000_0000) }

  /** `UpdateHeight`. */
  function GoTo(s: State, height: u64): State { s.(height := height, round := 0, phase := Idle) }

  function CastVote(env: Env, s: State, kind: VoteKind, hash: Hash): State {
    if env.local.None? then s else s.(casts := s.casts + multiset{Cast(kind, hash, s.height, s.round)})
  }

  /** For the next height and by the proposer of its round. The block's own height and hash are not
      compared with the message. */
  predicate Timely(env: Env, s: State, height: u64, round: u32, blk: Block) {
    && height > s.chain.tipHeight && height == Wrap(s.chain.tipHeight + 1)
    && env.select(height, round, PrevHash(s.chain)) == Some(blk.proposer)
  }

  function StartVoting(env: Env, s: State, hash: Hash, blk: Block): State {
    CastVote(env, FreshSets(s.(proposed := Some(blk), phase := Prevoting), s.height, s.round), Prevote, hash)
  }

  function HandleProposal(env: Env, s: State, height: u64, round: u32, hash: Hash, blk: Block, now: int): State {
    if !Timely(env, s, height, round, blk) then s else
    var moved := s.(height := height, round := round);
    if env.valid(now, s.chain, blk) then StartVoting(env, moved, hash, blk) else moved
  }

  /** Commits the proposed block with the precommits as its certificate. The certificate stays on
      the block when it is refused. */
  function Commit(env: Env, s: State, at: Instant, order: Ordering): State
    requires s.proposed.Some? && s.precommits.Some?
    requires Enumerates(order(s.precommits.value.votes), s.precommits.value.votes)
  {
    var votes := s.precommits.value.votes;
    EnumeratesVotes(order(votes), votes);
    var blk := s.proposed.value.(commits := CommitsIn(votes, order(votes)));
    Conclude(env, s.(timeouts := 0, phase := Committing, proposed := Some(blk)), blk, at)
  }

  /** Adds a committed block and notes the time, or changes nothing. */
  function Adopt(env: Env, s: State, blk: Block, at: Instant): (State, bool) {
    match env.accept(at.seconds, s.chain, blk)
    case None => (s, false)
    case Some(c) => (s.(chain := c, lastBlock := at.millis), true)
  }

  function Conclude(env: Env, s: State, blk: Block, at: Instant): State {
    var (t, ok) := Adopt(env, s, blk, at);
    if ok then NoSets(GoTo(t, Wrap(blk.header.height + 1))) else NextRound(t)
  }

  lemma EnumeratesVotes(order: seq<Address>, votes: map<Address, Vote>)
    requires Enumerates(order, votes)
    ensures forall i :: 0 <= i < |order| ==> order[i] in votes
  {
    assert forall i :: 0 <= i < |order| ==> order[i] in Elems(order);
  }

  function CountPrevote(env: Env, s: State, v: Vote, power: u64): State {
    if s.prevotes.None? then s else
    var t := AddVote(s.prevotes.value, v, power);
    var counted := s.(prevotes := Some(t));
    if !TwoThirds(t.power, env.validators.total) then counted else
    CastVote(env, counted.(phase := if s.phase == Prevoting then Precommitting else s.phase), Precommit, v.blockHash)
  }

  ghost function CountPrecommit(env: Env, s: State, v: Vote, power: u64, at: Instant, order: Ordering): State
    requires Ordered(order)
  {
    if s.precommits.None? then s else
    var t := AddVote(s.precommits.value, v, power);
    var counted := s.(precommits := Some(t));
    if TwoThirds(t.power, env.validators.total) && s.proposed.Some? then Commit(env, counted, at, order) else counted
  }

  ghost function Count(env: Env, s: State, v: Vote, power: u64, at: Instant, order: Ordering): State
    requires Ordered(order)
  {
    if v.kind == Prevote then CountPrevote(env, s, v, power) else CountPrecommit(env, s, v, power, at, order)
  }

  /** A validly signed vote by a validator for the next height and this round. */
  predicate Relevant(env: Env, s: State, v: Vote) {
    && v.height > s.chain.tipHeight && v.height == Wrap(s.chain.tipHeight + 1) && v.round == s.round
    && Signed(env.verify, env.validators, v.blockHash, v.voter, v.signature)
  }

  ghost function HandleVote(env: Env, s: State, v: Vote, at: Instant, order: Ordering): State
    requires Ordered(order)
  {
    if !Relevant(env, s, v) then s
    else Count(env, s, v, env.validators.members[v.voter].power, at, order)
  }

  /** A delayed vote is signed and cast, unless the node has moved on. */
  ghost function FireCast(env: Env, s: State, c: Cast, signature: Option<Signature>, at: Instant,
                          order: Ordering): State
    requires Ordered(order)
  {
    if c !in s.casts || env.local.None? then s else
    var rest := s.(casts := s.casts - multiset{c});
    if s.height != c.height || s.round != c.round then rest else
    match signature
    case None => rest
    case Some(sig) => Count(env, rest, OwnVote(env.local.value, c, sig, at), env.local.value.power, at, order)
  }

  function OwnVote(l: Local, c: Cast, sig: Signature, at: Instant): Vote {
    Vote(c.height, c.round, c.kind, c.hash, l.address, sig, at.seconds)
  }

  /** `broadcastProposalInternal`, which does not touch the phase. */
  function Announce(env: Env, s: State, net: Net): State {
    if net == NoPeers || s.proposed.None? then s else
    var ready := FreshSets(s, s.height, s.round);
    if net == Fails then ready else CastVote(env, ready, Prevote, s.proposed.value.header.hash)
  }

  /** `built` is the block that `SetBlock` assembled and this node signed. */
  function ProposeOnTimeout(env: Env, s: State, net: Net, built: Block): State {
    Announce(env, s.(phase := Proposing, proposed := Some(built)), net)
  }

  /** The next round begins with nothing proposed and no votes. */
  function LeaveRound(s: State): State { NoSets(NextRound(s)) }

  function NewRound(env: Env, s: State, height: u64, net: Net, built: Block): State {
    var next := LeaveRound(s);
    if env.local.Some? && env.select(height, next.round, PrevHash(s.chain)) == Some(env.local.value.address)
    then ProposeOnTimeout(env, next, net, built) else next
  }

  /** The chain has grown behind the engine's back. */
  function CatchUp(s: State): State { NoSets(s.(height := Wrap(s.chain.tipHeight + 1), round := 0)) }

  /** After the third timeout in a row: the height is read twice, and blocks may arrive in between. */
  function Resync(env: Env, s: State, height: u64, net: Net, built: Block, arrivals: Arrivals): State {
    var later := ReceiveAll(env, s.(timeouts := 0), arrivals);
    if later.chain.tipHeight > s.chain.tipHeight then CatchUp(later) else NewRound(env, later, height, net, built)
  }

  function Timeout(env: Env, s: State, height: u64, round: u32, net: Net, built: Block, arrivals: Arrivals): State {
    if s.height != height || s.round != round then s.(timeouts := 0)
    else LiveTimeout(env, s, height, net, built, arrivals)
  }

  function LiveTimeout(env: Env, s: State, height: u64, net: Net, built: Block, arrivals: Arrivals): State {
    if s.timeouts + 1 >= 3 then Resync(env, s, height, net, built, arrivals)
    else NewRound(env, s.(timeouts := s.timeouts + 1), height, net, built)
  }

  lemma NotYetThird(env: Env, s: State, height: u64, net: Net, built: Block, arrivals: Arrivals)
    requires s.timeouts + 1 < 3
    ensures LiveTimeout(env, s, height, net, built, arrivals)
      == NewRound(env, s.(timeouts := s.timeouts + 1), height, net, built)
  {
  }

  /** `proposeBlock` and `broadcastProposal`. */
  function ProposeOnTick(env: Env, s: State, net: Net, built: Block): State {
    var proposed := s.(phase := Proposing, proposed := Some(built));
    if net != Sends then Announce(env, proposed, net) else Announce(env, proposed.(phase := Prevoting), net)
  }

  /** The engine goes to the height after the tip if it is elsewhere. */
  function FollowChain(s: State): State {
    var next := Wrap(s.chain.tipHeight + 1);
    if s.height != next then s.(height := next, round := 0) else s
  }

  function AwaitProposal(s: State): State {
    if s.prevotes.None? || s.prevotes.value.height != s.height then FreshSets(s, s.height, 0) else s
  }

  function MyTurn(env: Env, s: State, net: Net, built: Block): State {
    if s.proposed.Some? && s.proposed.value.header.height == s.height then s else ProposeOnTick(env, s, net, built)
  }

  /** Without active validators a node adds its own blocks. */
  function Solo(env: Env, s: State, built: Block, ended: int): State {
    var (t, ok) := AdoptOwn(env, s, built, ended);
    if ok then GoTo(t, Wrap(built.header.height + 1)) else t
  }

  function AdoptOwn(env: Env, s: State, built: Block, ended: int): (State, bool) {
    match env.add(s.chain, built)
    case None => (s, false)
    case Some(c) => (s.(chain := c, lastBlock := ended), true)
  }

  function TakeTurn(env: Env, s: State, net: Net, built: Block): State {
    var here := FollowChain(s);
    match env.select(here.height, here.round, PrevHash(here.chain))
    case None => here
    case Some(a) =>
      if env.local.Some? && a == env.local.value.address then MyTurn(env, here, net, built) else AwaitProposal(here)
  }

  predicate TooEarly(s: State, started: int) { s.lastBlock > 0 && started - s.lastBlock < BLOCK_INTERVAL }

  /** `runRound`, with the clock at its start and after adding a block. */
  function Tick(env: Env, s: State, net: Net, built: Block, started: int, ended: int): State {
    if TooEarly(s, started) then s
    else if ActiveSet(env.validators) == {} then Solo(env, s, built, ended)
    else TakeTurn(env, s, net, built)
  }

  function ReceiveBlock(env: Env, s: State, blk: Block, clock: Clock): State {
    var r := Handle(env.accept, clock, Sync(s.chain, s.pending, None), blk);
    var synced := s.(chain := r.chain, pending := r.pending);
    match r.next case None => synced case Some(h) => GoTo(synced, h)
  }

  function ReceiveAll(env: Env, s: State, arrivals: Arrivals): State {
    match arrivals
    case Nothing => s
    case AndThen(earlier, blk, clock) => ReceiveBlock(env, ReceiveAll(env, s, earlier), blk, clock)
  }

  // ------------------------------------------------------------------ runs

  datatype Event =
    | OnProposal(height: u64, round: u32, hash: Hash, blk: Block, now: int)
    | OnVote(vote: Vote, at: Instant, order: Ordering)
    | OnCast(cast: Cast, signature: Option<Signature>, at: Instant, order: Ordering)
    | OnTimeout(height: u64, round: u32, net: Net, built: Block, arrivals: Arrivals)
    | OnTick(net: Net, built: Block, started: int, ended: int)
    | OnBlock(blk: Block, clock: Clock)

  ghost predicate Possible(e: Event) { (e.OnVote? || e.OnCast?) ==> Ordered(e.order) }

  ghost function Step(env: Env, s: State, e: Event): State
    requires Possible(e)
  {
    match e
    case OnProposal(height, round, hash, blk, now) => HandleProposal(env, s, height, round, hash, blk, now)
    case OnVote(v, at, order) => HandleVote(env, s, v, at, order)
    case OnCast(c, signature, at, order) => FireCast(env, s, c, signature, at, order)
    case OnTimeout(height, round, net, built, arrivals) => Timeout(env, s, height, round, net, built, arrivals)
    case OnTick(net, built, started, ended) => Tick(env, s, net, built, started, ended)
    case OnBlock(blk, clock) => ReceiveBlock(env, s, blk, clock)
  }

  ghost predicate AllPossible(es: seq<Event>) { forall i :: 0 <= i < |es| ==> Possible(es[i]) }

  ghost function Reach(env: Env, s: State, es: seq<Event>): State
    requires AllPossible(es)
  {
    if es == [] then s else Step(env, Reach(env, s, es[..|es| - 1]), es[|es| - 1])
  }

  function Start(c: Chain): State {
    State(c, map[], Idle, Wrap(c.tipHeight + 1), 0, None, None, None, 0, multiset{}, 0)
  }

  // ------------------------------------------------------------------ what holds of the chain

  /** A property of the chain that adding accepted blocks keeps is kept by every handler. */
  ghost predicate Kept(accept: Acceptor, p: Chain -> bool) {
    forall now, c, blk :: KeptAt(accept, p, now, c, blk)
  }

  ghost predicate KeptAt(accept: Acceptor, p: Chain -> bool, now: int, c: Chain, blk: Block) {
    p(c) && accept(now, c, blk).Some? ==> p(accept(now, c, blk).value)
  }

  lemma {:induction false} DrainKeeps(accept: Acceptor, p: Chain -> bool, clock: Clock, s: Sync, height: u64)
    requires Kept(accept, p) && p(s.chain)
    ensures p(Drain(accept, clock, s, height).chain)
    decreases |s.pending|
  {
    var next := Wrap(height + 1);
    if next in s.pending {
      var blk := s.pending[next];
      var rest := s.pending - {next};
      assert rest.Keys == s.pending.Keys - {next};
      var r := accept(clock(next), s.chain, blk);
      assert KeptAt(accept, p, clock(next), s.chain, blk);
      if r.Some? {
        DrainKeeps(accept, p, clock, Sync(r.value, rest, Some(Wrap(blk.header.height + 1))), blk.header.height);
      }
    }
  }

  lemma HandleKeeps(accept: Acceptor, p: Chain -> bool, clock: Clock, s: Sync, blk: Block)
    requires Kept(accept, p) && p(s.chain)
    ensures p(Handle(accept, clock, s, blk).chain)
  {
    var h: int := blk.header.height;
    var r := accept(clock(h), s.chain, blk);
    assert KeptAt(accept, p, clock(h), s.chain, blk);
    if r.Some? {
      DrainKeeps(accept, p, clock, Sync(r.value, s.pending, Some(Wrap(h + 1))), h);
    }
  }

  lemma CountKeeps(env: Env, p: Chain -> bool, s: State, v: Vote, power: u64, at: Instant, order: Ordering)
    requires Kept(env.accept, p) && p(s.chain) && Ordered(order)
    ensures p(Count(env, s, v, power, at, order).chain)
  {
    if s.proposed.Some? && s.precommits.Some? {
      var votes := AddVote(s.precommits.value, v, power).votes;
      assert Enumerates(order(votes), votes);
      EnumeratesVotes(order(votes), votes);
      assert KeptAt(env.accept, p, at.seconds, s.chain, s.proposed.value.(commits := CommitsIn(votes, order(votes))));
    }
  }

  lemma ReceiveKeeps(env: Env, p: Chain -> bool, s: State, blk: Block, clock: Clock)
    requires Kept(env.accept, p) && p(s.chain)
    ensures p(ReceiveBlock(env, s, blk, clock).chain)
  {
    HandleKeeps(env.accept, p, clock, Sync(s.chain, s.pending, None), blk);
  }

  lemma {:induction false} ReceiveAllKeeps(env: Env, p: Chain -> bool, s: State, arrivals: Arrivals)
    requires Kept(env.accept, p) && p(s.chain)
    ensures p(ReceiveAll(env, s, arrivals).chain)
  {
    if arrivals != Nothing {
      ReceiveAllKeeps(env, p, s, arrivals.earlier);
      ReceiveKeeps(env, p, ReceiveAll(env, s, arrivals.earlier), arrivals.blk, arrivals.clock);
    }
  }

  lemma CastKeeps(env: Env, p: Chain -> bool, s: State, c: Cast, signature: Option<Signature>, at: Instant,
                  order: Ordering)
    requires Kept(env.accept, p) && p(s.chain) && Ordered(order)
    ensures p(FireCast(env, s, c, signature, at, order).chain)
  {
    if env.local.Some? && signature.Some? {
      var l := env.local.value;
      CountKeeps(env, p, s.(casts := s.casts - multiset{c}), OwnVote(l, c, signature.value, at), l.power, at, order);
    }
  }

  lemma NewRoundChain(env: Env, s: State, height: u64, net: Net, built: Block)
    ensures NewRound(env, s, height, net, built).chain == s.chain
  {
  }

  lemma ResyncChain(env: Env, s: State, height: u64, net: Net, built: Block, arrivals: Arrivals)
    ensures Resync(env, s, height, net, built, arrivals).chain == ReceiveAll(env, s.(timeouts := 0), arrivals).chain
  {
    NewRoundChain(env, ReceiveAll(env, s.(timeouts := 0), arrivals), height, net, built);
  }

  /** The chain after a timeout is the one after the arrivals, if there are any. */
  lemma TimeoutChain(env: Env, s: State, height: u64, round: u32, net: Net, built: Block, arrivals: Arrivals)
    ensures var r := Timeout(env, s, height, round, net, built, arrivals);
      r.chain == s.chain || r.chain == ReceiveAll(env, s.(timeouts := 0), arrivals).chain
  {
    if s.height == height && s.round == round {
      if s.timeouts + 1 >= 3 {
        ResyncChain(env, s, height, net, built, arrivals);
      } else {
        NotYetThird(env, s, height, net, built, arrivals);
        NewRoundChain(env, s.(timeouts := s.timeouts + 1), height, net, built);
      }
    }
  }

  lemma TickChain(env: Env, s: State, net: Net, built: Block, started: int, ended: int)
    requires ActiveSet(env.validators) != {}
    ensures Tick(env, s, net, built, started, ended).chain == s.chain
  {
  }

  lemma StepKeeps(env: Env, p: Chain -> bool, s: State, e: Event)
    requires ActiveSet(env.validators) != {} && Kept(env.accept, p) && p(s.chain) && Possible(e)
    ensures p(Step(env, s, e).chain)
  {
    match e
    case OnVote(v, at, order) =>
      if v.voter in env.validators.members {
        CountKeeps(env, p, s, v, env.validators.members[v.voter].power, at, order);
      }
    case OnCast(c, signature, at, order) => CastKeeps(env, p, s, c, signature, at, order);
    case OnBlock(blk, clock) => ReceiveKeeps(env, p, s, blk, clock);
    case OnTimeout(height, round, net, built, arrivals) =>
      ReceiveAllKeeps(env, p, s.(timeouts := 0), arrivals);
      TimeoutChain(env, s, height, round, net, built, arrivals);
    case OnTick(net, built, started, ended) => TickChain(env, s, net, built, started, ended);
    case OnProposal(height, round, hash, blk, now) =>
  }

  lemma {:induction false} RunKeeps(env: Env, p: Chain -> bool, s: State, es: seq<Event>)
    requires ActiveSet(env.validators) != {} && Kept(env.accept, p) && p(s.chain) && AllPossible(es)
    ensures p(Reach(env, s, es).chain)
  {
    if es != [] {
      RunKeeps(env, p, s, es[..|es| - 1]);
      StepKeeps(env, p, Reach(env, s, es[..|es| - 1]), es[|es| - 1]);
    }
  }

  // ------------------------------------------------------------------ what holds of the tallies

  /** The local voter is registered with the power it has in the set, or with none. */
  ghost predicate Registered(env: Env) {
    env.local.Some? ==>
      var l := env.local.value;
      l.power == if l.address in env.validators.members then env.validators.members[l.address].power else 0
  }

  /** A signature by a local validator of the set verifies under the key that the set holds. */
  ghost predicate OwnSigned(env: Env, e: Event) {
    e.OnCast? && e.signature.Some? && env.local.Some? && env.local.value.address in env.validators.members ==>
      Signed(env.verify, env.validators, e.cast.hash, env.local.value.address, e.signature.value)
  }

  ghost predicate AllOwnSigned(env: Env, es: seq<Event>) { forall i :: 0 <= i < |es| ==> OwnSigned(env, es[i]) }

  ghost predicate SetsOk(env: Env, a: Option<Tally>, b: Option<Tally>) {
    && (a.Some? <==> b.Some?)
    && (a.Some? ==>
          && TallyInv(env.verify, env.validators, a.value) && TallyInv(env.verify, env.validators, b.value)
          && a.value.kind == Prevote && b.value.kind == Precommit
          && a.value.height == b.value.height && a.value.round == b.value.round)
  }

  /** The vote sets come and go together, for one height and round, and count what they hold. */
  ghost predicate TalliesOk(env: Env, s: State) { SetsOk(env, s.prevotes, s.precommits) }

  /** The vote sets are kept, dropped or started again. */
  predicate Resets(s: State, r: State) {
    || (r.prevotes == s.prevotes && r.precommits == s.precommits)
    || (r.prevotes == None && r.precommits == None)
    || (r.prevotes.Some? &&
        var t := r.prevotes.value;
        r.prevotes == Fresh(t.height, t.round, Prevote) && r.precommits == Fresh(t.height, t.round, Precommit))
  }

  lemma ResetOk(env: Env, s: State, r: State)
    requires TalliesOk(env, s) && Resets(s, r)
    ensures TalliesOk(env, r)
  {
    if r.prevotes.Some? {
      var t := r.prevotes.value;
      EmptyTallyInv(env.verify, env.validators, t.height, t.round, Prevote);
      EmptyTallyInv(env.verify, env.validators, t.height, t.round, Precommit);
    }
  }

  lemma ProposalResets(env: Env, s: State, height: u64, round: u32, hash: Hash, blk: Block, now: int)
    ensures Resets(s, HandleProposal(env, s, height, round, hash, blk, now))
  {
  }

  lemma {:induction false} ReceiveAllSets(env: Env, s: State, arrivals: Arrivals)
    ensures var r := ReceiveAll(env, s, arrivals); r.prevotes == s.prevotes && r.precommits == s.precommits
  {
    if arrivals != Nothing {
      ReceiveAllSets(env, s, arrivals.earlier);
    }
  }

  lemma NewRoundResets(env: Env, s: State, height: u64, net: Net, built: Block)
    ensures Resets(s, NewRound(env, s, height, net, built))
  {
  }

  lemma SameSets(s: State, t: State, r: State)
    requires Resets(t, r) && t.prevotes == s.prevotes && t.precommits == s.precommits
    ensures Resets(s, r)
  {
  }

  lemma ResyncResets(env: Env, s: State, height: u64, net: Net, built: Block, arrivals: Arrivals)
    ensures Resets(s, Resync(env, s, height, net, built, arrivals))
  {
    var later := ReceiveAll(env, s.(timeouts := 0), arrivals);
    ReceiveAllSets(env, s.(timeouts := 0), arrivals);
    NewRoundResets(env, later, height, net, built);
    SameSets(s, later, NewRound(env, later, height, net, built));
  }

  lemma CountedResets(env: Env, s: State, height: u64, net: Net, built: Block)
    ensures Resets(s, NewRound(env, s.(timeouts := s.timeouts + 1), height, net, built))
  {
    var counted := s.(timeouts := s.timeouts + 1);
    NewRoundResets(env, counted, height, net, built);
    SameSets(s, counted, NewRound(env, counted, height, net, built));
  }

  lemma TimeoutResets(env: Env, s: State, height: u64, round: u32, net: Net, built: Block, arrivals: Arrivals)
    ensures Resets(s, Timeout(env, s, height, round, net, built, arrivals))
  {
    if s.height == height && s.round == round {
      if s.timeouts + 1 >= 3 {
        ResyncResets(env, s, height, net, built, arrivals);
      } else {
        NotYetThird(env, s, height, net, built, arrivals);
        CountedResets(env, s, height, net, built);
      }
    }
  }

  lemma TakeTurnResets(env: Env, s: State, net: Net, built: Block)
    ensures Resets(s, TakeTurn(env, s, net, built))
  {
  }

  lemma TickResets(env: Env, s: State, net: Net, built: Block, started: int, ended: int)
    ensures Resets(s, Tick(env, s, net, built, started, ended))
  {
    TakeTurnResets(env, s, net, built);
  }

  /** Counting a vote adds it to the set of its kind, or ends with no sets at all. */
  lemma CountSets(env: Env, s: State, v: Vote, power: u64, at: Instant, order: Ordering)
    requires Ordered(order) && s.prevotes.Some? && s.precommits.Some?
    ensures var r := Count(env, s, v, power, at, order);
      || (r.prevotes == None && r.precommits == None)
      || (v.kind == Prevote && r.prevotes == Some(AddVote(s.prevotes.value, v, power)) && r.precommits == s.precommits)
      || (v.kind == Precommit && r.prevotes == s.prevotes
        && r.precommits == Some(AddVote(s.precommits.value, v, power)))
  {
  }

  lemma AddOk(env: Env, a: Tally, b: Tally, v: Vote, power: u64)
    requires SetsOk(env, Some(a), Some(b)) && Counted(env.verify, env.validators, v, power)
    ensures SetsOk(env, Some(AddVote(a, v, power)), Some(b)) && SetsOk(env, Some(a), Some(AddVote(b, v, power)))
  {
    AddVoteKeepsTally(env.verify, env.validators, a, v, power);
    AddVoteKeepsTally(env.verify, env.validators, b, v, power);
  }

  lemma CountOk(env: Env, s: State, v: Vote, power: u64, at: Instant, order: Ordering)
    requires TalliesOk(env, s) && Ordered(order) && Counted(env.verify, env.validators, v, power)
    ensures TalliesOk(env, Count(env, s, v, power, at, order))
  {
    if s.prevotes.Some? {
      CountSets(env, s, v, power, at, order);
      AddOk(env, s.prevotes.value, s.precommits.value, v, power);
    }
  }

  lemma VoteTallies(env: Env, s: State, v: Vote, at: Instant, order: Ordering)
    requires TalliesOk(env, s) && Ordered(order)
    ensures TalliesOk(env, HandleVote(env, s, v, at, order))
  {
    if Relevant(env, s, v) {
      CountOk(env, s, v, env.validators.members[v.voter].power, at, order);
    }
  }

  lemma CastTallies(env: Env, s: State, c: Cast, signature: Option<Signature>, at: Instant, order: Ordering)
    requires Registered(env) && TalliesOk(env, s) && Ordered(order) && OwnSigned(env, OnCast(c, signature, at, order))
    ensures TalliesOk(env, FireCast(env, s, c, signature, at, order))
  {
    if env.local.Some? && signature.Some? {
      var l := env.local.value;
      var v := OwnVote(l, c, signature.value, at);
      assert Counted(env.verify, env.validators, v, l.power);
      CountOk(env, s.(casts := s.casts - multiset{c}), v, l.power, at, order);
    }
  }

  lemma StepTallies(env: Env, s: State, e: Event)
    requires Registered(env) && TalliesOk(env, s) && Possible(e) && OwnSigned(env, e)
    ensures TalliesOk(env, Step(env, s, e))
  {
    match e
    case OnProposal(height, round, hash, blk, now) =>
      ProposalResets(env, s, height, round, hash, blk, now);
      ResetOk(env, s, Step(env, s, e));
    case OnVote(v, at, order) => VoteTallies(env, s, v, at, order);
    case OnCast(c, signature, at, order) => CastTallies(env, s, c, signature, at, order);
    case OnTimeout(height, round, net, built, arrivals) =>
      TimeoutResets(env, s, height, round, net, built, arrivals);
      ResetOk(env, s, Step(env, s, e));
    case OnTick(net, built, started, ended) =>
      TickResets(env, s, net, built, started, ended);
      ResetOk(env, s, Step(env, s, e));
    case OnBlock(blk, clock) =>
  }

  lemma {:induction false} RunTallies(env: Env, c: Chain, es: seq<Event>)
    requires Registered(env) && AllPossible(es) && AllOwnSigned(env, es)
    ensures TalliesOk(env, Reach(env, Start(c), es))
  {
    if es != [] {
      RunTallies(env, c, es[..|es| - 1]);
      StepTallies(env, Reach(env, Start(c), es[..|es| - 1]), es[|es| - 1]);
    }
  }

  /** The state has precommits, all for `hash`, and `order` is one order of visiting them. */
  ghost predicate AllFor(s: State, hash: Hash, order: seq<Address>) {
    && s.precommits.Some? && Enumerates(order, s.precommits.value.votes)
    && (forall i :: 0 <= i < |order| ==> order[i] in s.precommits.value.votes)
    && (forall a :: a in s.precommits.value.votes ==> s.precommits.value.votes[a].blockHash == hash)
  }

  /** In every reachable state, if all precommits name the same hash, the certificate built from them
      in any order passes exactly if the active voters have two thirds. */
  lemma ReachableCertificate(env: Env, c: Chain, es: seq<Event>, hash: Hash, order: seq<Address>)
    requires Registered(env) && AllPossible(es) && AllOwnSigned(env, es) && env.validators.members != map[]
    requires AllFor(Reach(env, Start(c), es), hash, order)
    ensures var t := Reach(env, Start(c), es).precommits.value;
      CommitsOk(env.verify, env.validators, hash, CommitsIn(t.votes, order)) <==>
      TwoThirds(ActivePower(env.validators, t.votes), env.validators.total)
  {
    RunTallies(env, c, es);
    CertificateCountsActive(env.verify, env.validators, Reach(env, Start(c), es).precommits.value, hash, order);
  }

  /** So with all members active the running count has two thirds exactly when that certificate
      passes. */
  lemma ReachableCountsAgree(env: Env, c: Chain, es: seq<Event>, hash: Hash, order: seq<Address>)
    requires Registered(env) && AllPossible(es) && AllOwnSigned(env, es) && env.validators.members != map[]
    requires AllActive(env.validators) && AllFor(Reach(env, Start(c), es), hash, order)
    ensures var t := Reach(env, Start(c), es).precommits.value;
      TwoThirds(t.power, env.validators.total) <==>
      CommitsOk(env.verify, env.validators, hash, CommitsIn(t.votes, order))
  {
    RunTallies(env, c, es);
    CountsAgree(env.verify, env.validators, Reach(env, Start(c), es).precommits.value, hash, order);
  }
}
