/** Who is a validator, told from the history of stakes: consensus/staking.go with the rebuild of
    the set in consensus/validator.go and the loader in consensus/consensus.go. */
module Elections {
  import opened Basics
  import opened Types
  import opened ValidatorSets

  /** The address has staked. */
  predicate Known(ops: seq<Op>, a: Address) { exists i :: 0 <= i < |ops| && ops[i].Stake? && ops[i].who == a }

  /** What its stakes, less its withdrawals, come to. A withdrawal of more than there is does not happen. */
  function Staked(ops: seq<Op>, a: Address): u64 {
    if ops == [] then 0 else
    var before := Staked(ops[..|ops| - 1], a);
    match ops[|ops| - 1]
    case Stake(who, n, _) => if who == a then Wrap(before + n) else before
    case Unstake(who, n) => if who == a && n <= before then before - n else before
    case _ => before
  }

  /** The first key that came with one of its stakes. */
  function KeyOf(ops: seq<Op>, a: Address): PublicKey {
    if ops == [] then "" else
    var before := KeyOf(ops[..|ops| - 1], a);
    var op := ops[|ops| - 1];
    if before == "" && op.Stake? && op.who == a then op.key else before
  }

  /** The operation withdraws all that the address has. */
  predicate Empties(before: seq<Op>, op: Op, a: Address) {
    op.Unstake? && op.who == a && Known(before, a) && op.amount == Staked(before, a)
  }

  /** Some withdrawal took everything. */
  predicate Emptied(ops: seq<Op>, a: Address) { exists i :: 0 <= i < |ops| && Empties(ops[..i], ops[i], a) }

  lemma KnownNext(init: seq<Op>, op: Op, a: Address)
    ensures Known(init + [op], a) <==> Known(init, a) || (op.Stake? && op.who == a)
  {
    var ops := init + [op];
    assert ops[|init|] == op && forall i :: 0 <= i < |init| ==> ops[i] == init[i];
    if Known(init, a) {
      var i :| 0 <= i < |init| && init[i].Stake? && init[i].who == a;
      assert ops[i] == init[i];
    }
  }

  lemma EmptiedNext(init: seq<Op>, op: Op, a: Address)
    ensures Emptied(init + [op], a) <==> Emptied(init, a) || Empties(init, op, a)
  {
    var ops := init + [op];
    assert ops[|init|] == op && ops[..|init|] == init;
    assert forall i :: 0 <= i < |init| ==> ops[i] == init[i] && ops[..i] == init[..i];
    if Emptied(init, a) {
      var i :| 0 <= i < |init| && Empties(init[..i], init[i], a);
      assert Empties(ops[..i], ops[i], a);
    }
    if Emptied(ops, a) {
      var i :| 0 <= i < |ops| && Empties(ops[..i], ops[i], a);
      assert i < |init| ==> Empties(init[..i], init[i], a);
    }
  }

  /** The set holds of the address what its history says. */
  ghost predicate Recalled(s: Stakers, ops: seq<Op>, a: Address) {
    && (a in s.members <==> Known(ops, a))
    && if a in s.members then s.members[a] == Staker(KeyOf(ops, a), Staked(ops, a), !Emptied(ops, a))
       else Staked(ops, a) == 0 && KeyOf(ops, a) == "" && !Emptied(ops, a)
  }

  lemma StakeRecalled(s: Stakers, init: seq<Op>, op: Op, a: Address)
    requires Recalled(s, init, a) && op.Stake?
    ensures Recalled(AddStaker(s, op.who, op.amount, op.key), init + [op], a)
  {
    KnownNext(init, op, a);
    EmptiedNext(init, op, a);
    assert (init + [op])[..|init|] == init;
  }

  lemma UnstakeRecalled(s: Stakers, init: seq<Op>, op: Op, a: Address)
    requires Recalled(s, init, a) && op.Unstake?
    ensures match RemoveStaker(s, op.who, op.amount)
      case None => Recalled(s, init + [op], a)
      case Some(t) => Recalled(t, init + [op], a)
  {
    KnownNext(init, op, a);
    EmptiedNext(init, op, a);
    assert (init + [op])[..|init|] == init;
  }

  lemma RecalledNext(s: Accounts, init: seq<Op>, op: Op, a: Address)
    requires Recalled(s.stakers, init, a)
    ensures Recalled(Apply(s, op).stakers, init + [op], a)
  {
    if op.Stake? {
      StakeRecalled(s.stakers, init, op, a);
    } else if op.Unstake? {
      UnstakeRecalled(s.stakers, init, op, a);
    } else {
      KnownNext(init, op, a);
      EmptiedNext(init, op, a);
      assert (init + [op])[..|init|] == init;
    }
  }

  /** After any operations, the set knows exactly the addresses that staked, each with the balance of
      its stakes and withdrawals and its first key, and active unless it once withdrew everything. */
  lemma {:induction false} StakersRemember(ops: seq<Op>, a: Address)
    ensures Recalled(Run(ops).stakers, ops, a)
  {
    if ops != [] {
      var init, op := ops[..|ops| - 1], ops[|ops| - 1];
      assert ops == init + [op];
      StakersRemember(init, a);
      RecalledNext(Run(init), init, op, a);
    }
  }

  /** After `before` the operation is carried out. */
  predicate ChangesStakes(before: seq<Op>, op: Op) {
    op.Stake? || (op.Unstake? && Known(before, op.who) && op.amount <= Staked(before, op.who))
  }

  /** The address has the minimum stake and never withdrew everything. */
  predicate Elected(ops: seq<Op>, a: Address) { Known(ops, a) && Staked(ops, a) >= 1000 && !Emptied(ops, a) }

  /** After a change of stakes the validators are exactly the elected, each with its stake as power
      and its key. */
  lemma ElectedExactly(init: seq<Op>, op: Op, a: Address)
    requires ChangesStakes(init, op)
    ensures var ops := init + [op];
      var members := Run(ops).validators.members;
      && (a in members <==> Elected(ops, a))
      && (a in members ==> members[a] == Validator(KeyOf(ops, a), Staked(ops, a), true))
  {
    var ops := init + [op];
    assert ops[..|init|] == init;
    StakersRemember(init, op.who);
    StakersRemember(ops, a);
  }

  lemma {:induction false} EmptiedStays(ops: seq<Op>, i: nat, a: Address)
    requires i <= |ops| && Emptied(ops[..i], a)
    ensures Emptied(ops, a)
  {
    var k :| 0 <= k < i && Empties(ops[..i][..k], ops[..i][k], a);
    assert ops[..i][..k] == ops[..k];
  }

  /** An address that once withdrew everything is never again among the validators that a change of
      stakes yields, whatever it stakes afterwards. */
  lemma NeverElectedAgain(init: seq<Op>, op: Op, i: nat, a: Address)
    requires ChangesStakes(init, op) && i <= |init| && Emptied(init[..i], a)
    ensures a !in Run(init + [op]).validators.members
  {
    assert (init + [op])[..i] == init[..i];
    EmptiedStays(init + [op], i, a);
    ElectedExactly(init, op, a);
  }

  // ------------------------------------------------------------------ loaded sets

  /** Entry `i` is the last one for its address. */
  predicate LastFor(es: seq<Option<Entry>>, i: nat, a: Address) {
    && i < |es| && es[i].Some? && es[i].value.address == a
    && forall j :: i < j < |es| && es[j].Some? ==> es[j].value.address != a
  }

  lemma {:induction false} LoadedIf(es: seq<Option<Entry>>, i: nat, a: Address)
    requires None !in es && LastFor(es, i, a)
    ensures a in LoadGenesis(es).members && LoadGenesis(es).members[a] == es[i].value.validator.(active := true)
  {
    var init := es[..|es| - 1];
    if i < |init| {
      assert LastFor(init, i, a);
      assert es[|init|].Some?;
      LoadedIf(init, i, a);
    }
  }

  /** A configuration that parses gives each of its addresses the last entry for it, activated, and
      nobody else. */
  lemma {:induction false} LoadedExactly(es: seq<Option<Entry>>, a: Address)
    requires None !in es
    ensures a in LoadGenesis(es).members <==> exists i: nat :: LastFor(es, i, a)
    ensures forall i: nat :: LastFor(es, i, a) ==>
      a in LoadGenesis(es).members && LoadGenesis(es).members[a] == es[i].value.validator.(active := true)
  {
    forall i: nat | LastFor(es, i, a)
      ensures a in LoadGenesis(es).members && LoadGenesis(es).members[a] == es[i].value.validator.(active := true)
    {
      LoadedIf(es, i, a);
    }
    if a in LoadGenesis(es).members {
      LoadKeys(es, a);
      var i :| 0 <= i < |es| && es[i].Some? && es[i].value.address == a;
      var k := LastAfter(es, i, a);
    }
  }

  lemma {:induction false} LastAfter(es: seq<Option<Entry>>, i: nat, a: Address) returns (k: nat)
    requires i < |es| && es[i].Some? && es[i].value.address == a
    ensures LastFor(es, k, a)
    decreases |es| - i
  {
    if j :| i < j < |es| && es[j].Some? && es[j].value.address == a {
      k := LastAfter(es, j, a);
    } else {
      k := i;
    }
  }
}
