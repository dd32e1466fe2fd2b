/** Staker and validator sets and their power totals: consensus/staking.go,
    consensus/validator.go and the loaders in consensus/consensus.go. */
module ValidatorSets {
  import opened Basics
  import opened Types

  const MIN_STAKE: u64 := 1000

  /** A member; its address is its key in the set. */
  datatype Validator = Validator(publicKey: PublicKey, power: u64, active: bool)
  datatype Validators = Validators(members: map<Address, Validator>, total: u64)

  datatype Staker = Staker(publicKey: PublicKey, amount: u64, active: bool)
  datatype Stakers = Stakers(members: map<Address, Staker>, total: u64)

  /** One configured validator. */
  datatype Entry = Entry(address: Address, validator: Validator)

  function Powers(m: map<Address, Validator>): (r: map<Address, int>)
    ensures forall a :: a in r ==> r[a] >= 0
  {
    map a | a in m :: m[a].power
  }

  function Amounts(m: map<Address, Staker>): (r: map<Address, int>)
    ensures forall a :: a in r ==> r[a] >= 0
  {
    map a | a in m :: m[a].amount
  }

  /** The exact sums that the running totals are meant to be. */
  ghost function PowerSum(v: Validators): int { MapSum(Powers(v.members)) }
  ghost function StakeSum(s: Stakers): int { MapSum(Amounts(s.members)) }

  function ActiveSet(vs: Validators): set<Address> { set a | a in vs.members && vs.members[a].active }

  // ------------------------------------------------------------------ operations on values

  function AddStaker(s: Stakers, a: Address, amount: u64, key: PublicKey): Stakers {
    var entry :=
      if a in s.members then
        var known := s.members[a];
        known.(amount := Wrap(known.amount + amount),
               publicKey := if |known.publicKey| == 0 && |key| > 0 then key else known.publicKey)
      else Staker(key, amount, true);
    Stakers(s.members[a := entry], Wrap(s.total + amount))
  }

  function RemoveStaker(s: Stakers, a: Address, amount: u64): Option<Stakers> {
    if a !in s.members || s.members[a].amount < amount then None else
    var left: u64 := s.members[a].amount - amount;
    var entry := s.members[a].(amount := left, active := s.members[a].active && left != 0);
    Some(Stakers(s.members[a := entry], Wrap(s.total - amount)))
  }

  predicate Eligible(st: Staker, minStake: u64) { st.active && st.amount >= minStake }

  function EligibleMembers(s: Stakers, minStake: u64): map<Address, Validator> {
    map a | a in s.members && Eligible(s.members[a], minStake) ::
      Validator(s.members[a].publicKey, s.members[a].amount, true)
  }

  ghost function FromStakers(s: Stakers, minStake: u64): Validators {
    Validators(EligibleMembers(s, minStake), Wrap(MapSum(Powers(EligibleMembers(s, minStake)))))
  }

  function AddValidator(v: Validators, a: Address, x: Validator): Validators {
    Validators(v.members[a := x], Wrap(v.total + x.power))
  }

  function RemoveValidator(v: Validators, a: Address): Validators {
    if a in v.members then Validators(v.members - {a}, Wrap(v.total - v.members[a].power)) else v
  }

  /** Loading from configuration; `None` is an entry whose address or key does not parse, at which
      loading stops with an error. */
  function LoadGenesis(entries: seq<Option<Entry>>): Validators {
    if entries == [] then Validators(map[], 0) else
    var before := LoadGenesis(entries[..|entries| - 1]);
    if None in entries then before else
    var e := entries[|entries| - 1].value;
    AddValidator(before, e.address, e.validator.(active := true))
  }

  // ------------------------------------------------------------------ the mutable sets

  class StakerSet {
    var stakers: map<Address, Staker>
    var totalStaked: u64

    function Value(): Stakers reads this { Stakers(stakers, totalStaked) }

    constructor ()
      ensures Value() == Stakers(map[], 0)
    {
      stakers, totalStaked := map[], 0;
    }

    method Add(address: Address, amount: u64, key: PublicKey)
      modifies this
      ensures Value() == AddStaker(old(Value()), address, amount, key)
    {
      if address in stakers {
        var existing := stakers[address];
        existing := existing.(amount := Wrap(existing.amount + amount));
        if |existing.publicKey| == 0 && |key| > 0 {
          existing := existing.(publicKey := key);
        }
        stakers := stakers[address := existing];
        totalStaked := Wrap(totalStaked + amount);
        return;
      }
      stakers := stakers[address := Staker(key, amount, true)];
      totalStaked := Wrap(totalStaked + amount);
    }

    method Remove(address: Address, amount: u64) returns (ok: bool)
      modifies this
      ensures ok == RemoveStaker(old(Value()), address, amount).Some?
      ensures ok ==> Value() == RemoveStaker(old(Value()), address, amount).value
      ensures !ok ==> Value() == old(Value())
    {
      if address !in stakers {
        return false;
      }
      var staker := stakers[address];
      if staker.amount < amount {
        return false;
      }
      staker := staker.(amount := staker.amount - amount);
      totalStaked := Wrap(totalStaked - amount);
      if staker.amount == 0 {
        staker := staker.(active := false);
      }
      stakers := stakers[address := staker];
      ok := true;
    }
  }

  class ValidatorSet {
    var members: map<Address, Validator>
    var totalPower: u64

    function Value(): Validators reads this { Validators(members, totalPower) }

    constructor ()
      ensures Value() == Validators(map[], 0)
    {
      members, totalPower := map[], 0;
    }

    method Add(address: Address, x: Validator)
      modifies this
      ensures Value() == AddValidator(old(Value()), address, x)
    {
      members := members[address := x];
      totalPower := Wrap(totalPower + x.power);
    }

    method Remove(address: Address)
      modifies this
      ensures Value() == RemoveValidator(old(Value()), address)
    {
      if address in members {
        totalPower := Wrap(totalPower - members[address].power);
        members := members - {address};
      }
    }

    /** Rebuilds the set from the stakers, visiting them in any order. */
    method UpdateFromStakers(s: StakerSet, minStake: u64)
      modifies this
      ensures Value() == FromStakers(s.Value(), minStake)
    {
      var source := s.stakers;
      ghost var goal := EligibleMembers(s.Value(), minStake);
      members := map[];
      totalPower := 0;
      var todo: set<Address> := source.Keys;
      assert goal - todo == map[] && Powers(map[]) == map[];
      while todo != {}
        invariant todo <= source.Keys && source == s.stakers
        invariant members == goal - todo
        invariant totalPower == Wrap(MapSum(Powers(goal - todo)))
        decreases todo
      {
        var a := Pick(todo);
        var staker := source[a];
        RebuildStep(goal, todo, a);
        if Eligible(staker, minStake) {
          members := members[a := Validator(staker.publicKey, staker.amount, true)];
          totalPower := Wrap(totalPower + staker.amount);
        }
        todo := todo - {a};
      }
      assert goal - {} == goal;
    }

    method LoadFromConfig(entries: seq<Option<Entry>>) returns (ok: bool)
      modifies this
      ensures Value() == LoadGenesis(entries)
      ensures ok <==> None !in entries
    {
      members := map[];
      totalPower := 0;
      for i := 0 to |entries|
        invariant None !in entries[..i]
        invariant Value() == LoadGenesis(entries[..i])
      {
        assert entries[..i + 1][..i] == entries[..i];
        if entries[i] == None {
          LoadStops(entries, i);
          return false;
        }
        Add(entries[i].value.address, entries[i].value.validator.(active := true));
      }
      assert entries[..|entries|] == entries;
      ok := true;
    }
  }

  /** Taking `a` off the work list adds its entry, if it has one, and its power. */
  lemma RebuildStep(goal: map<Address, Validator>, todo: set<Address>, a: Address)
    requires a in todo
    ensures a in goal ==>
      goal - (todo - {a}) == (goal - todo)[a := goal[a]]
      && Wrap(MapSum(Powers(goal - (todo - {a})))) == Wrap(Wrap(MapSum(Powers(goal - todo))) + goal[a].power)
    ensures a !in goal ==> goal - (todo - {a}) == goal - todo
  {
    if a in goal {
      assert goal - (todo - {a}) == (goal - todo)[a := goal[a]];
      MapSumInsert(Powers(goal - todo), a, goal[a].power);
      assert Powers(goal - (todo - {a})) == Powers(goal - todo)[a := goal[a].power];
    } else {
      assert goal - (todo - {a}) == goal - todo;
    }
  }

  lemma {:induction false} LoadStops(entries: seq<Option<Entry>>, i: nat)
    requires i < |entries| && entries[i] == None
    ensures LoadGenesis(entries) == LoadGenesis(entries[..i])
    decreases |entries|
  {
    var init := entries[..|entries| - 1];
    if i < |entries| - 1 {
      LoadStops(init, i);
      assert init[..i] == entries[..i];
    }
  }

  // ------------------------------------------------------------------ accounting over runs

  datatype Accounts = Accounts(stakers: Stakers, validators: Validators)

  datatype Op =
    | Stake(who: Address, amount: u64, key: PublicKey)
    | Unstake(who: Address, amount: u64)
    | Join(who: Address, validator: Validator)
    | Leave(who: Address)
    | Load(entries: seq<Option<Entry>>)

  ghost function Apply(s: Accounts, op: Op): Accounts {
    match op
    case Stake(a, n, key) =>
      var st := AddStaker(s.stakers, a, n, key);
      Accounts(st, FromStakers(st, MIN_STAKE))
    case Unstake(a, n) =>
      (match RemoveStaker(s.stakers, a, n)
       case None => s
       case Some(st) => Accounts(st, FromStakers(st, MIN_STAKE)))
    case Join(a, v) => s.(validators := AddValidator(s.validators, a, v))
    case Leave(a) => s.(validators := RemoveValidator(s.validators, a))
    case Load(es) => s.(validators := LoadGenesis(es))
  }

  ghost function Run(ops: seq<Op>): Accounts {
    if ops == [] then Accounts(Stakers(map[], 0), Validators(map[], 0))
    else Apply(Run(ops[..|ops| - 1]), ops[|ops| - 1])
  }

  lemma WrappedUpdate(sum: int, x: int, n: int)
    ensures Congruent(sum - x + Wrap(x + n), sum + n)
  {
  }

  lemma AmountsAfterStake(s: Stakers, a: Address, n: u64, key: PublicKey)
    ensures Amounts(AddStaker(s, a, n, key).members)
         == Amounts(s.members)[a := if a in s.members then Wrap(s.members[a].amount + n) else n]
  {
  }

  lemma AddStakerSum(s: Stakers, a: Address, n: u64, key: PublicKey)
    ensures Congruent(StakeSum(AddStaker(s, a, n, key)), StakeSum(s) + n)
  {
    var m := Amounts(s.members);
    AmountsAfterStake(s, a, n, key);
    if a in s.members {
      MapSumUpdate(m, a, Wrap(m[a] + n));
      WrappedUpdate(MapSum(m), m[a], n);
    } else {
      MapSumInsert(m, a, n);
    }
  }

  lemma RemoveStakerSum(s: Stakers, a: Address, n: u64)
    requires RemoveStaker(s, a, n).Some?
    ensures StakeSum(RemoveStaker(s, a, n).value) == StakeSum(s) - n
  {
    var m := Amounts(s.members);
    assert Amounts(RemoveStaker(s, a, n).value.members) == m[a := m[a] - n];
    MapSumUpdate(m, a, m[a] - n);
  }

  ghost predicate StakeBalanced(s: Stakers) { Congruent(s.total, StakeSum(s)) }

  lemma StakeStaysBalanced(s: Stakers, a: Address, n: u64, key: PublicKey)
    requires StakeBalanced(s)
    ensures StakeBalanced(AddStaker(s, a, n, key))
  {
    var t := AddStaker(s, a, n, key);
    AddStakerSum(s, a, n, key);
    CongruentStep(s.total, StakeSum(s), n, StakeSum(t));
  }

  lemma UnstakeStaysBalanced(s: Stakers, a: Address, n: u64)
    requires StakeBalanced(s) && RemoveStaker(s, a, n).Some?
    ensures StakeBalanced(RemoveStaker(s, a, n).value)
  {
    var t := RemoveStaker(s, a, n).value;
    RemoveStakerSum(s, a, n);
    CongruentStep(s.total, StakeSum(s), -(n as int), StakeSum(t));
  }

  lemma {:induction false} RunBalanced(ops: seq<Op>)
    ensures StakeBalanced(Run(ops).stakers)
  {
    if ops == [] {
      assert Amounts(Run(ops).stakers.members) == map[];
    } else {
      var p := Run(ops[..|ops| - 1]).stakers;
      RunBalanced(ops[..|ops| - 1]);
      match ops[|ops| - 1]
      case Stake(a, n, key) => StakeStaysBalanced(p, a, n, key);
      case Unstake(a, n) =>
        if RemoveStaker(p, a, n).Some? {
          UnstakeStaysBalanced(p, a, n);
        }
      case _ =>
    }
  }

  /** Whatever stakes and unstakes happened, the running total is the sum of the stakes modulo 2^64,
      so it is the sum itself exactly when that sum fits in 64 bits. */
  lemma TotalStakedIsSum(ops: seq<Op>)
    ensures StakeBalanced(Run(ops).stakers)
    ensures Run(ops).stakers.total == StakeSum(Run(ops).stakers) <==> StakeSum(Run(ops).stakers) < TWO64
  {
    RunBalanced(ops);
    BalancedIsExact(Run(ops).stakers);
  }

  lemma BalancedIsExact(s: Stakers)
    requires StakeBalanced(s)
    ensures s.total == StakeSum(s) <==> StakeSum(s) < TWO64
  {
    MapSumNonNegative(Amounts(s.members));
    CongruentExact(s.total, StakeSum(s));
  }

  /** A set rebuilt from the stakers never has more power than is staked. */
  lemma EligibleAtMostStaked(s: Stakers, minStake: u64)
    ensures 0 <= MapSum(Powers(EligibleMembers(s, minStake))) <= StakeSum(s)
  {
    var chosen := EligibleMembers(s, minStake).Keys;
    assert Powers(EligibleMembers(s, minStake)) == Restrict(Amounts(s.members), chosen);
    MapSumSubset(Amounts(s.members), chosen);
  }

  lemma RebuiltTotal(s: Stakers, minStake: u64)
    requires s.total == StakeSum(s)
    ensures var v := FromStakers(s, minStake); v.total == PowerSum(v) <= s.total
  {
    EligibleAtMostStaked(s, minStake);
  }

  lemma AddValidatorSum(v: Validators, a: Address, x: Validator)
    ensures PowerSum(AddValidator(v, a, x))
         == PowerSum(v) + x.power - (if a in v.members then v.members[a].power else 0)
  {
    var m := Powers(v.members);
    assert Powers(AddValidator(v, a, x).members) == m[a := x.power];
    if a in v.members {
      MapSumUpdate(m, a, x.power);
    } else {
      MapSumInsert(m, a, x.power);
    }
  }

  lemma RemoveValidatorSum(v: Validators, a: Address)
    requires a in v.members
    ensures PowerSum(RemoveValidator(v, a)) == PowerSum(v) - v.members[a].power
    ensures 0 <= v.members[a].power <= PowerSum(v)
  {
    var m := Powers(v.members);
    MapSumRemove(m, a);
    assert Powers(v.members - {a}) == m - {a};
    MapSumNonNegative(m - {a});
  }

  /** No addition in this step pushes a total past 64 bits. */
  ghost predicate Fits(s: Accounts, op: Op) {
    match op
    case Stake(a, n, key) => StakeSum(s.stakers) + n < TWO64
    case Join(a, v) => s.validators.total + v.power < TWO64
    case Load(es) => EntrySum(es) < TWO64
    case _ => true
  }

  /** This step adds no address that is already a member. */
  predicate AddsNewOnly(s: Accounts, op: Op) {
    match op
    case Join(a, v) => a !in s.validators.members
    case Load(es) => Distinct(es)
    case _ => true
  }

  ghost predicate FitsAll(ops: seq<Op>) {
    ops == [] || (FitsAll(ops[..|ops| - 1]) && Fits(Run(ops[..|ops| - 1]), ops[|ops| - 1]))
  }

  ghost predicate AddsNewOnlyAll(ops: seq<Op>) {
    ops == [] || (AddsNewOnlyAll(ops[..|ops| - 1]) && AddsNewOnly(Run(ops[..|ops| - 1]), ops[|ops| - 1]))
  }

  function EntrySum(es: seq<Option<Entry>>): nat {
    if es == [] then 0 else
    EntrySum(es[..|es| - 1]) + (if es[|es| - 1].Some? then es[|es| - 1].value.validator.power else 0)
  }

  lemma {:induction false} LoadKeys(es: seq<Option<Entry>>, a: Address)
    requires a in LoadGenesis(es).members
    ensures exists i :: 0 <= i < |es| && es[i].Some? && es[i].value.address == a
  {
    var init := es[..|es| - 1];
    if a in LoadGenesis(init).members {
      LoadKeys(init, a);
      var i :| 0 <= i < |init| && init[i].Some? && init[i].value.address == a;
      assert es[i] == init[i];
    } else {
      assert es[|es| - 1].Some?;
    }
  }

  /** The addresses that parse are all different. */
  predicate Distinct(es: seq<Option<Entry>>) {
    forall i, j :: 0 <= i < j < |es| && es[i].Some? && es[j].Some? ==> es[i].value.address != es[j].value.address
  }

  /** Adding one more keeps the total at or above the sum, and equal to it for a new address. */
  lemma JoinedTotal(v: Validators, a: Address, x: Validator)
    requires PowerSum(v) <= v.total && v.total + x.power < TWO64
    ensures var w := AddValidator(v, a, x); PowerSum(w) <= w.total == v.total + x.power
    ensures a !in v.members && v.total == PowerSum(v) ==> AddValidator(v, a, x).total == PowerSum(AddValidator(v, a, x))
  {
    AddValidatorSum(v, a, x);
  }

  lemma NotLoadedBefore(es: seq<Option<Entry>>, init: seq<Option<Entry>>, e: Entry)
    requires es == init + [Some(e)] && Distinct(es)
    ensures e.address !in LoadGenesis(init).members && Distinct(init)
  {
    assert es[|init|] == Some(e) && forall i :: 0 <= i < |init| ==> es[i] == init[i];
    if e.address in LoadGenesis(init).members {
      LoadKeys(init, e.address);
    }
  }

  lemma {:induction false} LoadTotal(es: seq<Option<Entry>>)
    requires EntrySum(es) < TWO64
    ensures var v := LoadGenesis(es); PowerSum(v) <= v.total <= EntrySum(es)
    ensures Distinct(es) ==> LoadGenesis(es).total == PowerSum(LoadGenesis(es))
  {
    if es == [] {
      assert Powers(LoadGenesis(es).members) == map[];
    } else {
      var init, last := es[..|es| - 1], es[|es| - 1];
      assert es == init + [last];
      LoadTotal(init);
      if None !in es {
        JoinedTotal(LoadGenesis(init), last.value.address, last.value.validator.(active := true));
        if Distinct(es) {
          NotLoadedBefore(es, init, last.value);
        }
      } else if Distinct(es) {
        assert Distinct(init);
      }
    }
  }

  /** Over any sequence of operations that fits in 64 bits the validator total is at least the sum
      of the powers, so removing a validator never underflows; and it is exactly the sum as long as
      no address is added twice. */
  lemma {:induction false} TotalPowerCoversSum(ops: seq<Op>)
    requires FitsAll(ops)
    ensures var s := Run(ops); s.stakers.total == StakeSum(s.stakers) && PowerSum(s.validators) <= s.validators.total
    ensures AddsNewOnlyAll(ops) ==> Run(ops).validators.total == PowerSum(Run(ops).validators)
  {
    if ops == [] {
      assert Powers(Run(ops).validators.members) == map[];
      assert Amounts(Run(ops).stakers.members) == map[];
    } else {
      var init, op := ops[..|ops| - 1], ops[|ops| - 1];
      TotalPowerCoversSum(init);
      TotalStepCoversSum(Run(init), op);
    }
  }

  lemma TotalStepCoversSum(s: Accounts, op: Op)
    requires Fits(s, op) && s.stakers.total == StakeSum(s.stakers) && PowerSum(s.validators) <= s.validators.total
    ensures var t := Apply(s, op);
      t.stakers.total == StakeSum(t.stakers) && PowerSum(t.validators) <= t.validators.total
    ensures AddsNewOnly(s, op) && s.validators.total == PowerSum(s.validators) ==>
      Apply(s, op).validators.total == PowerSum(Apply(s, op).validators)
  {
    match op {
      case Stake(a, n, key) =>
        var st := AddStaker(s.stakers, a, n, key);
        AddStakerSum(s.stakers, a, n, key);
        AddStakerExact(s.stakers, a, n, key);
        RebuiltTotal(st, MIN_STAKE);
      case Unstake(a, n) =>
        if RemoveStaker(s.stakers, a, n).Some? {
          RemoveStakerSum(s.stakers, a, n);
          MapSumNonNegative(Amounts(RemoveStaker(s.stakers, a, n).value.members));
          RebuiltTotal(RemoveStaker(s.stakers, a, n).value, MIN_STAKE);
        }
      case Join(a, v) =>
        AddValidatorSum(s.validators, a, v);
      case Leave(a) =>
        if a in s.validators.members {
          RemoveValidatorSum(s.validators, a);
        }
      case Load(es) =>
        LoadTotal(es);
    }
  }

  lemma AddStakerExact(s: Stakers, a: Address, n: u64, key: PublicKey)
    requires StakeSum(s) + n < TWO64
    ensures StakeSum(AddStaker(s, a, n, key)) == StakeSum(s) + n
  {
    var m, m' := Amounts(s.members), Amounts(AddStaker(s, a, n, key).members);
    if a in s.members {
      MapSumRemove(m, a);
      MapSumNonNegative(m - {a});
      assert m' == m[a := m[a] + n];
      MapSumUpdate(m, a, m[a] + n);
    } else {
      assert m' == m[a := n];
      MapSumInsert(m, a, n);
    }
  }

  /** Removal in a run that fits subtracts without wrapping. */
  lemma RemovalNeverUnderflows(ops: seq<Op>, v: Validators, a: Address)
    requires FitsAll(ops) && v == Run(ops).validators && a in v.members
    ensures RemoveValidator(v, a).total == v.total - v.members[a].power
    ensures RemoveValidator(v, a).total >= PowerSum(RemoveValidator(v, a)) >= 0
  {
    TotalPowerCoversSum(ops);
    RemoveValidatorSum(v, a);
  }
}
