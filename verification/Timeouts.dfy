/** Round timeouts and the rotation of proposers: `handleRoundTimeout` in consensus/engine.go with
    consensus/selection.go. */
module Timeouts {
  import opened Basics
  import opened Types
  import opened ValidatorSets
  import opened Selection
  import opened Engine

  /** A timer that was started for the round the node is still in. */
  predicate Live(s: State, e: Event) { e.OnTimeout? && e.height == s.height && e.round == s.round }

  lemma NewRoundMoves(env: Env, s: State, height: u64, net: Net, built: Block)
    ensures var r := NewRound(env, s, height, net, built);
      r.chain == s.chain && r.height == s.height && r.round == (s.round + 1) % TWO32
  {
  }

  /** A live timeout advances the round by exactly one unless blocks arrive meanwhile, a stale one
      not at all, and neither touches the height or the chain. */
  lemma TimeoutMoves(env: Env, s: State, e: Event)
    requires e.OnTimeout? && (Live(s, e) ==> e.arrivals == Nothing)
    ensures var r := Step(env, s, e);
      && r.chain == s.chain && r.height == s.height
      && r.round == (if Live(s, e) then (s.round + 1) % TWO32 else s.round)
  {
    if Live(s, e) {
      if s.timeouts + 1 < 3 {
        NotYetThird(env, s, e.height, e.net, e.built, e.arrivals);
        NewRoundMoves(env, s.(timeouts := s.timeouts + 1), e.height, e.net, e.built);
      } else {
        NewRoundMoves(env, s.(timeouts := 0), e.height, e.net, e.built);
      }
    }
  }

  /** The third timeout in a row goes to the height after the tip if the chain has grown during it. */
  lemma GrowthNoticed(env: Env, s: State, e: Event)
    requires Live(s, e) && s.timeouts >= 2
    requires ReceiveAll(env, s.(timeouts := 0), e.arrivals).chain.tipHeight > s.chain.tipHeight
    ensures var r := Step(env, s, e);
      r.chain.tipHeight > s.chain.tipHeight && r.height == Wrap(r.chain.tipHeight + 1) && r.round == 0
  {
  }

  /** The chain stays, nothing but timeouts moves the round, and no block arrives during one. */
  ghost predicate Quiet(env: Env, s: State, es: seq<Event>)
    requires AllPossible(es)
  {
    es == [] ||
    (var init, e := es[..|es| - 1], es[|es| - 1];
     && Quiet(env, s, init)
     && QuietStep(env, Reach(env, s, init), e))
  }

  ghost predicate QuietStep(env: Env, s: State, e: Event)
    requires Possible(e)
  {
    if e.OnTimeout? then e.arrivals == Nothing else SamePlace(s, Step(env, s, e))
  }

  predicate SamePlace(s: State, r: State) { r.chain == s.chain && r.height == s.height && r.round == s.round }

  ghost function Lives(env: Env, s: State, es: seq<Event>): nat
    requires AllPossible(es)
  {
    if es == [] then 0 else
    var init := es[..|es| - 1];
    Lives(env, s, init) + if Live(Reach(env, s, init), es[|es| - 1]) then 1 else 0
  }

  /** The same chain and height, `d` rounds on. */
  predicate Ahead(s: State, r: State, d: nat) { r.chain == s.chain && r.height == s.height && r.round == s.round + d }

  lemma AheadBy(s: State, r: State, q: State, d: nat, live: bool)
    requires Ahead(s, r, d) && s.round + d + (if live then 1 else 0) < TWO32
    requires q.chain == r.chain && q.height == r.height && q.round == if live then (r.round + 1) % TWO32 else r.round
    ensures Ahead(s, q, d + if live then 1 else 0)
  {
  }

  lemma AheadStep(env: Env, s: State, r: State, e: Event, d: nat)
    requires Ahead(s, r, d) && Possible(e) && QuietStep(env, r, e)
    requires s.round + d + (if Live(r, e) then 1 else 0) < TWO32
    ensures Ahead(s, Step(env, r, e), d + if Live(r, e) then 1 else 0)
  {
    if e.OnTimeout? {
      TimeoutMoves(env, r, e);
    }
    AheadBy(s, r, Step(env, r, e), d, Live(r, e));
  }

  /** The round is the number of live timeouts further on. */
  lemma {:induction false} RoundCounts(env: Env, s: State, es: seq<Event>)
    requires AllPossible(es) && Quiet(env, s, es) && s.round + Lives(env, s, es) < TWO32
    ensures Ahead(s, Reach(env, s, es), Lives(env, s, es))
  {
    if es != [] {
      var init, e := es[..|es| - 1], es[|es| - 1];
      RoundCounts(env, s, init);
      AheadStep(env, s, Reach(env, s, init), e, Lives(env, s, init));
    }
  }

  /** Every round in between is passed through. */
  lemma {:induction false} Passes(env: Env, s: State, es: seq<Event>, k: nat) returns (i: nat)
    requires AllPossible(es) && k <= Lives(env, s, es)
    ensures i <= |es| && Lives(env, s, es[..i]) == k
  {
    if k == Lives(env, s, es) {
      i := |es|;
      assert es[..i] == es;
    } else {
      i := Passes(env, s, es[..|es| - 1], k);
      assert es[..|es| - 1][..i] == es[..i];
    }
  }

  lemma {:induction false} QuietPrefix(env: Env, s: State, es: seq<Event>, i: nat)
    requires AllPossible(es) && Quiet(env, s, es) && i <= |es|
    ensures Quiet(env, s, es[..i]) && Lives(env, s, es[..i]) <= Lives(env, s, es)
  {
    if i == |es| {
      assert es[..i] == es;
    } else {
      QuietPrefix(env, s, es[..|es| - 1], i);
      assert es[..|es| - 1][..i] == es[..i];
    }
  }

  /** The proposer that the node expects in its round, or `m` rounds later. */
  ghost function Expected(env: Env, s: State): Option<Address> { ExpectedIn(env, s, 0) }

  ghost function ExpectedIn(env: Env, s: State, m: nat): Option<Address> {
    env.select(s.height, s.round + m, PrevHash(s.chain))
  }

  lemma AheadExpects(env: Env, s: State, r: State, d: nat)
    requires Ahead(s, r, d)
    ensures Expected(env, r) == ExpectedIn(env, s, d)
  {
  }

  /** From this round on the choice goes around the roster, starting at slot `x`. */
  ghost predicate Rotates(env: Env, s: State, x: nat) {
    forall k: nat :: k < |Roster(env.validators)| ==> TurnAt(env, s, x, k)
  }

  ghost predicate TurnAt(env: Env, s: State, x: nat, k: nat)
    requires k < |Roster(env.validators)|
  {
    var q := Roster(env.validators);
    ExpectedIn(env, s, k) == Some(q[Slot(|q|, x, k)])
  }

  function Chosen(env: Env, height: u64, round: u32, prev: Hash): Option<Address> { env.select(height, round, prev) }

  ghost predicate ChoosesRoundRobin(env: Env) {
    forall height: u64, round: u32, prev ::
      Chosen(env, height, round, prev) == RoundRobin(env.validators, height, round)
  }

  /** `seed` and `base` are the hashes of the seed with and without the round. */
  ghost predicate ChoosesHybrid(env: Env, seed: (int, int, Hash) -> u64, base: (int, Hash) -> u64) {
    forall height: u64, round: u32, prev ::
      Chosen(env, height, round, prev) == Hybrid(env.validators, round, seed(height, round, prev), base(height, prev))
  }

  /** Round-robin mode, as long as neither counter wraps. */
  lemma RoundRobinRotates(env: Env, s: State)
    requires ChoosesRoundRobin(env)
    requires var n := |Roster(env.validators)|; s.round + n <= TWO32 && s.height + s.round + n <= TWO64
    ensures Rotates(env, s, s.height + s.round)
  {
    var q, x := Roster(env.validators), s.height + s.round;
    forall k: nat | k < |q| ensures TurnAt(env, s, x, k) {
      WrapSmall(s.height + (s.round + k));
      assert ExpectedIn(env, s, k) == Chosen(env, s.height, s.round + k, PrevHash(s.chain));
    }
  }

  /** Hybrid mode, from round 1 on. */
  lemma HybridRotates(env: Env, s: State, seed: (int, int, Hash) -> u64, base: (int, Hash) -> u64) returns (x: nat)
    requires ChoosesHybrid(env, seed, base) && s.round >= 1
    requires var n := |Roster(env.validators)|; n > 0 && s.round + n <= TWO32
    ensures Rotates(env, s, x)
  {
    var q := Roster(env.validators);
    var b := base(s.height, PrevHash(s.chain)) % |q|;
    x := b + s.round;
    forall k: nat | k < |q| ensures TurnAt(env, s, x, k) {
      WrapSmall(b + (s.round + k));
      assert ExpectedIn(env, s, k) == Chosen(env, s.height, s.round + k, PrevHash(s.chain));
    }
  }

  lemma RosterSlot(vs: Validators, a: Address) returns (i: nat)
    requires a in ActiveSet(vs)
    ensures i < |Roster(vs)| && Roster(vs)[i] == a && forall j :: 0 <= j < |Roster(vs)| && Roster(vs)[j] == a ==> j == i
  {
    var q := Roster(vs);
    assert a in Elems(q);
    i :| 0 <= i < |q| && q[i] == a;
    AscendingNoDup(q);
  }

  /** Exactly one of `n` consecutive rounds has the validator as expected proposer. */
  lemma OneTurn(env: Env, s: State, x: nat, a: Address) returns (k: nat)
    requires Rotates(env, s, x) && a in ActiveSet(env.validators)
    ensures k < |Roster(env.validators)|
    ensures forall m: nat :: m < |Roster(env.validators)| ==> (ExpectedIn(env, s, m) == Some(a) <==> m == k)
  {
    var q := Roster(env.validators);
    var i := RosterSlot(env.validators, a);
    k := OneOfConsecutive(|q|, x, i);
    forall m: nat | m < |q| ensures ExpectedIn(env, s, m) == Some(a) <==> m == k {
      assert TurnAt(env, s, x, m);
      assert q[Slot(|q|, x, m)] == a <==> Slot(|q|, x, m) == i;
    }
  }

  /** Where a prefix of a quiet run leads. */
  lemma PrefixExpects(env: Env, s: State, es: seq<Event>, i: nat)
    requires AllPossible(es) && Quiet(env, s, es) && s.round + Lives(env, s, es) < TWO32 && i <= |es|
    ensures Lives(env, s, es[..i]) <= Lives(env, s, es)
    ensures Ahead(s, Reach(env, s, es[..i]), Lives(env, s, es[..i]))
    ensures Expected(env, Reach(env, s, es[..i])) == ExpectedIn(env, s, Lives(env, s, es[..i]))
  {
    QuietPrefix(env, s, es, i);
    RoundCounts(env, s, es[..i]);
    AheadExpects(env, s, Reach(env, s, es[..i]), Lives(env, s, es[..i]));
  }

  /** The node expects `a` to propose in round `s.round + k` and in no other of the run, and is in that
      round after `i` events. */
  ghost predicate ProposesOnce(env: Env, s: State, es: seq<Event>, a: Address, k: nat, i: nat)
    requires AllPossible(es)
  {
    && i <= |es| && InRound(env, s, es, a, k, i) && forall j :: 0 <= j <= |es| ==> OnlyThen(env, s, es, a, k, j)
  }

  ghost predicate InRound(env: Env, s: State, es: seq<Event>, a: Address, k: nat, i: nat)
    requires AllPossible(es) && i <= |es|
  {
    Reach(env, s, es[..i]).round == s.round + k && Expected(env, Reach(env, s, es[..i])) == Some(a)
  }

  ghost predicate OnlyThen(env: Env, s: State, es: seq<Event>, a: Address, k: nat, j: nat)
    requires AllPossible(es) && j <= |es|
  {
    Expected(env, Reach(env, s, es[..j])) == Some(a) ==> Reach(env, s, es[..j]).round == s.round + k
  }

  /** While the chain does not grow and only timeouts move the round, `n` consecutive rounds make
      every active validator the expected proposer in exactly one of them, and that round is reached. */
  lemma TimeoutsReachEveryone(env: Env, s: State, es: seq<Event>, x: nat, a: Address) returns (k: nat, i: nat)
    requires AllPossible(es) && Quiet(env, s, es) && Rotates(env, s, x) && a in ActiveSet(env.validators)
    requires Lives(env, s, es) == |Roster(env.validators)| - 1 && s.round + |Roster(env.validators)| <= TWO32
    ensures ProposesOnce(env, s, es, a, k, i)
  {
    k := OneTurn(env, s, x, a);
    i := Passes(env, s, es, k);
    PrefixExpects(env, s, es, i);
    forall j | 0 <= j <= |es| ensures OnlyThen(env, s, es, a, k, j) {
      PrefixExpects(env, s, es, j);
    }
  }

  /** In round-robin mode, from any round as long as neither counter wraps. */
  lemma RoundRobinReachesEveryone(env: Env, s: State, es: seq<Event>, a: Address) returns (k: nat, i: nat)
    requires AllPossible(es) && Quiet(env, s, es) && ChoosesRoundRobin(env) && a in ActiveSet(env.validators)
    requires var n := |Roster(env.validators)|;
      Lives(env, s, es) == n - 1 && s.round + n <= TWO32 && s.height + s.round + n <= TWO64
    ensures ProposesOnce(env, s, es, a, k, i)
  {
    RoundRobinRotates(env, s);
    k, i := TimeoutsReachEveryone(env, s, es, s.height + s.round, a);
  }

  /** In hybrid mode, from any round but the first. */
  lemma HybridReachesEveryone(env: Env, s: State, es: seq<Event>, seed: (int, int, Hash) -> u64,
                              base: (int, Hash) -> u64,
                              a: Address) returns (k: nat, i: nat)
    requires AllPossible(es) && Quiet(env, s, es) && ChoosesHybrid(env, seed, base) && a in ActiveSet(env.validators)
    requires s.round >= 1
    requires var n := |Roster(env.validators)|; Lives(env, s, es) == n - 1 && s.round + n <= TWO32
    ensures ProposesOnce(env, s, es, a, k, i)
  {
    var x := HybridRotates(env, s, seed, base);
    k, i := TimeoutsReachEveryone(env, s, es, x, a);
  }
}
