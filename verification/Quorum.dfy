/** Counting votes and checking commit certificates: consensus/type.go and
    `ValidateCommitSignatures` in consensus/consensus.go. */
module Quorum {
  import opened Basics
  import opened Types
  import opened ValidatorSets

  /** Signature verification is a foreign call: any predicate. An unparsable key verifies nothing. */
  type Verifier = (PublicKey, Hash, Signature) -> bool

  datatype VoteKind = Prevote | Precommit

  datatype Vote = Vote(height: u64, round: u32, kind: VoteKind, blockHash: Hash, voter: Address,
                       signature: Signature, timestamp: int)

  /** The contents of a vote set. */
  datatype Tally = Tally(height: u64, round: u32, kind: VoteKind, votes: map<Address, Vote>, power: u64)

  /** The vote is for the height, round and kind of the set. */
  predicate Matches(t: Tally, v: Vote) { v.height == t.height && v.round == t.round && v.kind == t.kind }

  predicate Takes(t: Tally, v: Vote) { Matches(t, v) && v.voter !in t.votes }

  function AddVote(t: Tally, v: Vote, power: u64): Tally {
    if Takes(t, v) then t.(votes := t.votes[v.voter := v], power := Wrap(t.power + power)) else t
  }

  predicate TwoThirds(voted: u64, total: u64) { Wrap(voted * 3) > Wrap(total * 2) }

  /** Without wrap-around the test is the two-thirds test. */
  lemma TwoThirdsExact(power: int, total: u64)
    requires 0 <= power <= total && 3 * total < TWO64
    ensures TwoThirds(Wrap(power), total) <==> 3 * power > 2 * total
  {
    WrapSmall(power);
    WrapSmall(3 * power);
    WrapSmall(2 * total);
  }

  class VoteSet {
    const height: u64
    const round: u32
    const kind: VoteKind
    var votes: map<Address, Vote>
    var votedPower: u64

    function Value(): Tally reads this { Tally(height, round, kind, votes, votedPower) }

    constructor (height: u64, round: u32, kind: VoteKind)
      ensures Value() == Tally(height, round, kind, map[], 0)
    {
      this.height, this.round, this.kind := height, round, kind;
      votes, votedPower := map[], 0;
    }

    method Add(vote: Vote, power: u64) returns (added: bool)
      modifies this
      ensures Value() == AddVote(old(Value()), vote, power)
      ensures added == Takes(old(Value()), vote)
    {
      if vote.height != height || vote.round != round || vote.kind != kind {
        return false;
      }
      if vote.voter in votes {
        return false;
      }
      votes := votes[vote.voter := vote];
      votedPower := Wrap(votedPower + power);
      added := true;
    }
  }

  // ------------------------------------------------------------------ the certificate check

  datatype Scan = Scan(ok: bool, seen: set<Address>, power: u64)

  predicate ActiveMember(vs: Validators, a: Address) { a in vs.members && vs.members[a].active }

  predicate Signed(verify: Verifier, vs: Validators, hash: Hash, a: Address, sig: Signature) {
    a in vs.members && verify(vs.members[a].publicKey, hash, sig)
  }

  function ScanOne(verify: Verifier, vs: Validators, hash: Hash, s: Scan, c: CommitSignature): Scan {
    if !s.ok || c.validator in s.seen || !ActiveMember(vs, c.validator) then s
    else if !Signed(verify, vs, hash, c.validator, c.signature) then s.(ok := false)
    else Scan(true, s.seen + {c.validator}, Wrap(s.power + vs.members[c.validator].power))
  }

  function ScanCommits(verify: Verifier, vs: Validators, hash: Hash, cs: seq<CommitSignature>): Scan {
    if cs == [] then Scan(true, {}, 0)
    else ScanOne(verify, vs, hash, ScanCommits(verify, vs, hash, cs[..|cs| - 1]), cs[|cs| - 1])
  }

  predicate CommitsOk(verify: Verifier, vs: Validators, hash: Hash, cs: seq<CommitSignature>) {
    vs.members == map[] ||
    (var s := ScanCommits(verify, vs, hash, cs); s.ok && TwoThirds(s.power, vs.total))
  }

  method ValidateCommitSignatures(verify: Verifier, vs: Validators, hash: Hash, cs: seq<CommitSignature>)
    returns (ok: bool)
    ensures ok == CommitsOk(verify, vs, hash, cs)
  {
    if vs.members == map[] {
      return true;
    }
    var votedPower: u64 := 0;
    var seen: set<Address> := {};
    for i := 0 to |cs|
      invariant ScanCommits(verify, vs, hash, cs[..i]) == Scan(true, seen, votedPower)
    {
      assert cs[..i + 1][..i] == cs[..i];
      var c := cs[i];
      if c.validator in seen {
        continue;
      }
      if c.validator !in vs.members || !vs.members[c.validator].active {
        continue;
      }
      if !verify(vs.members[c.validator].publicKey, hash, c.signature) {
        ScanStaysBad(verify, vs, hash, cs, i + 1);
        return false;
      }
      votedPower := Wrap(votedPower + vs.members[c.validator].power);
      seen := seen + {c.validator};
    }
    assert cs[..|cs|] == cs;
    ok := !(Wrap(votedPower * 3) <= Wrap(vs.total * 2));
  }

  lemma {:induction false} ScanStaysBad(verify: Verifier, vs: Validators, hash: Hash, cs: seq<CommitSignature>, i: nat)
    requires i <= |cs| && !ScanCommits(verify, vs, hash, cs[..i]).ok
    ensures !ScanCommits(verify, vs, hash, cs).ok
    decreases |cs|
  {
    if i < |cs| {
      assert cs[..|cs| - 1][..i] == cs[..i];
      ScanStaysBad(verify, vs, hash, cs[..|cs| - 1], i);
    } else {
      assert cs[..i] == cs;
    }
  }

  // ------------------------------------------------------------------ what a certificate proves

  ghost function PowerOf(vs: Validators, s: set<Address>): int { MapSum(Restrict(Powers(vs.members), s)) }

  /** The validators whose valid signature on `hash` the list contains. */
  ghost function Signers(verify: Verifier, vs: Validators, hash: Hash, cs: seq<CommitSignature>): set<Address> {
    set a | a in vs.members && exists c :: c in cs && c.validator == a && Signed(verify, vs, hash, a, c.signature)
  }

  /** The total covers the powers (as the loaders guarantee) and tripling it does not wrap. */
  ghost predicate Sound(vs: Validators) { PowerSum(vs) <= vs.total && 3 * vs.total < TWO64 }

  lemma PowerBounds(vs: Validators, s: set<Address>)
    ensures 0 <= PowerOf(vs, s) <= PowerSum(vs)
  {
    MapSumSubset(Powers(vs.members), s);
  }

  lemma PowerInsert(vs: Validators, s: set<Address>, a: Address)
    requires a !in s
    ensures PowerOf(vs, s + {a}) == PowerOf(vs, s) + (if a in vs.members then vs.members[a].power else 0)
  {
    var m := Powers(vs.members);
    if a in vs.members {
      MapSumInsert(Restrict(m, s), a, m[a]);
      assert Restrict(m, s + {a}) == Restrict(m, s)[a := m[a]];
    } else {
      assert Restrict(m, s + {a}) == Restrict(m, s);
    }
  }

  lemma PowerMonotone(vs: Validators, s: set<Address>, t: set<Address>)
    requires s <= t
    ensures PowerOf(vs, s) <= PowerOf(vs, t)
  {
    var m := Powers(vs.members);
    MapSumSubset(Restrict(m, t), s);
    assert Restrict(Restrict(m, t), s) == Restrict(m, s);
  }

  /** Two sets overlap by at least what their powers exceed the whole. */
  lemma PowerOverlap(vs: Validators, s: set<Address>, t: set<Address>)
    ensures PowerOf(vs, s) + PowerOf(vs, t) <= PowerSum(vs) + PowerOf(vs, s * t)
  {
    var m := Powers(vs.members);
    MapSumSplit(Restrict(m, s), t);
    assert Restrict(Restrict(m, s), t) == Restrict(m, s * t);
    MapSumSplit(Restrict(m, s + t), t);
    assert Restrict(Restrict(m, s + t), t) == Restrict(m, t);
    assert Restrict(m, s + t) - t == Restrict(m, s) - t;
    PowerBounds(vs, s + t);
  }

  lemma SignersGrow(verify: Verifier, vs: Validators, hash: Hash, cs: seq<CommitSignature>, c: CommitSignature)
    ensures Signers(verify, vs, hash, cs) <= Signers(verify, vs, hash, cs + [c])
    ensures Signed(verify, vs, hash, c.validator, c.signature) ==> c.validator in Signers(verify, vs, hash, cs + [c])
  {
    assert c in cs + [c];
    assert forall x :: x in cs ==> x in cs + [c];
  }

  lemma {:induction false} ScanSeesSigners(verify: Verifier, vs: Validators, hash: Hash, cs: seq<CommitSignature>)
    ensures ScanCommits(verify, vs, hash, cs).seen <= Signers(verify, vs, hash, cs)
  {
    if cs != [] {
      var init, c := cs[..|cs| - 1], cs[|cs| - 1];
      ScanSeesSigners(verify, vs, hash, init);
      assert cs == init + [c];
      SignersGrow(verify, vs, hash, init, c);
    }
  }

  lemma {:induction false} ScanCounts(verify: Verifier, vs: Validators, hash: Hash, cs: seq<CommitSignature>)
    ensures var s := ScanCommits(verify, vs, hash, cs); s.power == Wrap(PowerOf(vs, s.seen))
  {
    if cs == [] {
      PowerOfNone(vs);
    } else {
      var init, c := cs[..|cs| - 1], cs[|cs| - 1];
      ScanCounts(verify, vs, hash, init);
      var s := ScanCommits(verify, vs, hash, init);
      if c.validator !in s.seen {
        PowerInsert(vs, s.seen, c.validator);
        if c.validator in vs.members {
          WrapAdd(PowerOf(vs, s.seen), vs.members[c.validator].power);
        }
      }
    }
  }

  lemma PowerOfNone(vs: Validators)
    ensures PowerOf(vs, {}) == 0
  {
    assert Restrict(Powers(vs.members), {}) == map[];
  }

  /** An accepted certificate carries valid signatures by more than two thirds of the power. */
  lemma CertificateHasQuorum(verify: Verifier, vs: Validators, hash: Hash, cs: seq<CommitSignature>)
    requires Sound(vs) && vs.members != map[] && CommitsOk(verify, vs, hash, cs)
    ensures 3 * PowerOf(vs, Signers(verify, vs, hash, cs)) > 2 * vs.total
  {
    ScanCounts(verify, vs, hash, cs);
    ScanSeesSigners(verify, vs, hash, cs);
    var seen := ScanCommits(verify, vs, hash, cs).seen;
    PowerBounds(vs, seen);
    TwoThirdsExact(PowerOf(vs, seen), vs.total);
    PowerMonotone(vs, seen, Signers(verify, vs, hash, cs));
  }

  /** Two accepted certificates share signers with more than a third of the power. */
  lemma CertificatesIntersect(verify: Verifier, vs: Validators, h1: Hash, c1: seq<CommitSignature>,
                              h2: Hash, c2: seq<CommitSignature>)
    requires Sound(vs) && vs.members != map[]
    requires CommitsOk(verify, vs, h1, c1) && CommitsOk(verify, vs, h2, c2)
    ensures 3 * PowerOf(vs, Signers(verify, vs, h1, c1) * Signers(verify, vs, h2, c2)) > vs.total
  {
    CertificateHasQuorum(verify, vs, h1, c1);
    CertificateHasQuorum(verify, vs, h2, c2);
    PowerOverlap(vs, Signers(verify, vs, h1, c1), Signers(verify, vs, h2, c2));
  }

  // ------------------------------------------------------------------ the two counts agree

  /** The weight with which a vote may enter a tally: a member's own power behind its valid
      signature, or nothing for a voter outside the set. */
  predicate Counted(verify: Verifier, vs: Validators, v: Vote, power: u64) {
    if v.voter in vs.members then
      power == vs.members[v.voter].power && Signed(verify, vs, v.blockHash, v.voter, v.signature)
    else power == 0
  }

  /** What every tally kept by the engine satisfies: it counts the power of its voters, each once, by
      votes for its height, round and kind with valid signatures. */
  ghost predicate TallyInv(verify: Verifier, vs: Validators, t: Tally) {
    && t.power == Wrap(PowerOf(vs, t.votes.Keys))
    && forall a :: a in t.votes ==>
         t.votes[a].voter == a && Matches(t, t.votes[a])
         && (a in vs.members ==> Signed(verify, vs, t.votes[a].blockHash, a, t.votes[a].signature))
  }

  lemma EmptyTallyInv(verify: Verifier, vs: Validators, height: u64, round: u32, kind: VoteKind)
    ensures TallyInv(verify, vs, Tally(height, round, kind, map[], 0))
  {
    assert Restrict(Powers(vs.members), {}) == map[];
  }

  lemma AddVoteKeepsTally(verify: Verifier, vs: Validators, t: Tally, v: Vote, power: u64)
    requires TallyInv(verify, vs, t) && Counted(verify, vs, v, power)
    ensures TallyInv(verify, vs, AddVote(t, v, power))
  {
    if Takes(t, v) {
      PowerInsert(vs, t.votes.Keys, v.voter);
      WrapAdd(PowerOf(vs, t.votes.Keys), power);
      assert t.votes[v.voter := v].Keys == t.votes.Keys + {v.voter};
    }
  }

  function CommitOf(v: Vote): CommitSignature { CommitSignature(v.voter, v.signature, v.timestamp) }

  /** `order` lists the voters once each: one run of the map iteration that builds a certificate. */
  predicate Enumerates(order: seq<Address>, votes: map<Address, Vote>) {
    NoDup(order) && Elems(order) == votes.Keys
  }

  function CommitsIn(votes: map<Address, Vote>, order: seq<Address>): seq<CommitSignature>
    requires forall i :: 0 <= i < |order| ==> order[i] in votes
  {
    seq(|order|, i requires 0 <= i < |order| => CommitOf(votes[order[i]]))
  }

  ghost predicate AllActive(vs: Validators) { forall a :: a in vs.members ==> vs.members[a].active }

  /** Every active voter of `s` has a signature that is valid for `hash`. */
  predicate AllSigned(verify: Verifier, vs: Validators, hash: Hash, votes: map<Address, Vote>, s: set<Address>)
    requires s <= votes.Keys
  {
    forall a :: a in s && a in ActiveSet(vs) ==> Signed(verify, vs, hash, a, votes[a].signature)
  }

  /** The scan of the votes of `voters`. */
  ghost predicate ScanMatches(verify: Verifier, vs: Validators, hash: Hash, votes: map<Address, Vote>,
                              voters: set<Address>, s: Scan)
    requires voters <= votes.Keys
  {
    && s.ok == AllSigned(verify, vs, hash, votes, voters)
    && s.seen <= voters
    && (s.ok ==> s.seen == voters * ActiveSet(vs))
  }

  lemma ScanOneMatches(verify: Verifier, vs: Validators, hash: Hash, votes: map<Address, Vote>, voters: set<Address>,
                       s: Scan, a: Address)
    requires voters <= votes.Keys && a in votes && a !in voters && votes[a].voter == a
    requires ScanMatches(verify, vs, hash, votes, voters, s)
    ensures ScanMatches(verify, vs, hash, votes, voters + {a}, ScanOne(verify, vs, hash, s, CommitOf(votes[a])))
  {
  }

  lemma {:induction false} ScanOfVotes(verify: Verifier, vs: Validators, hash: Hash, votes: map<Address, Vote>,
                                       order: seq<Address>)
    requires NoDup(order)
    requires forall i :: 0 <= i < |order| ==> order[i] in votes && votes[order[i]].voter == order[i]
    ensures ScanMatches(verify, vs, hash, votes, Elems(order), ScanCommits(verify, vs, hash, CommitsIn(votes, order)))
  {
    var cs := CommitsIn(votes, order);
    if order != [] {
      var init, a := order[..|order| - 1], order[|order| - 1];
      assert order == init + [a];
      NoDupSnoc(init, a);
      ScanOfVotes(verify, vs, hash, votes, init);
      assert cs[..|cs| - 1] == CommitsIn(votes, init);
      assert Elems(order) == Elems(init) + {a};
      ScanOneMatches(verify, vs, hash, votes, Elems(init), ScanCommits(verify, vs, hash, CommitsIn(votes, init)), a);
    }
  }

  /** The count that the certificate check arrives at: inactive voters do not enter. */
  ghost function ActivePower(vs: Validators, votes: map<Address, Vote>): u64 {
    Wrap(PowerOf(vs, votes.Keys * ActiveSet(vs)))
  }

  /** For any tally and any set, a certificate built from the votes in any order is accepted exactly
      if the set is empty, or the active voters have two thirds and each of them has signed `hash`. */
  lemma CertificateAccepted(verify: Verifier, vs: Validators, t: Tally, hash: Hash, order: seq<Address>)
    requires TallyInv(verify, vs, t) && Enumerates(order, t.votes)
    ensures CommitsOk(verify, vs, hash, CommitsIn(t.votes, order)) <==>
      || vs.members == map[]
      || (TwoThirds(ActivePower(vs, t.votes), vs.total) && AllSigned(verify, vs, hash, t.votes, t.votes.Keys))
  {
    assert forall i :: 0 <= i < |order| ==> order[i] in Elems(order);
    ScanOfVotes(verify, vs, hash, t.votes, order);
    ScanCounts(verify, vs, hash, CommitsIn(t.votes, order));
  }

  /** When every vote names the block, the certificate is accepted exactly if the active voters have
      two thirds, although the tally counts the inactive ones as well. */
  lemma CertificateCountsActive(verify: Verifier, vs: Validators, t: Tally, hash: Hash, order: seq<Address>)
    requires vs.members != map[] && TallyInv(verify, vs, t) && Enumerates(order, t.votes)
    requires forall a :: a in t.votes ==> t.votes[a].blockHash == hash
    ensures CommitsOk(verify, vs, hash, CommitsIn(t.votes, order)) <==> TwoThirds(ActivePower(vs, t.votes), vs.total)
  {
    CertificateAccepted(verify, vs, t, hash, order);
  }

  /** With all members active the tally counts the same. */
  lemma AllCount(verify: Verifier, vs: Validators, t: Tally)
    requires AllActive(vs) && TallyInv(verify, vs, t)
    ensures t.power == ActivePower(vs, t.votes)
  {
    forall a | a in vs.members ensures a in ActiveSet(vs) {
      assert vs.members[a].active;
    }
    assert Restrict(Powers(vs.members), t.votes.Keys * ActiveSet(vs)) == Restrict(Powers(vs.members), t.votes.Keys);
  }

  /** So the two counts agree when every vote names the block and all members are active, whatever
      wraps. */
  lemma CountsAgree(verify: Verifier, vs: Validators, t: Tally, hash: Hash, order: seq<Address>)
    requires vs.members != map[] && AllActive(vs)
    requires TallyInv(verify, vs, t) && Enumerates(order, t.votes)
    requires forall a :: a in t.votes ==> t.votes[a].blockHash == hash
    ensures TwoThirds(t.power, vs.total) <==> CommitsOk(verify, vs, hash, CommitsIn(t.votes, order))
  {
    AllCount(verify, vs, t);
    CertificateCountsActive(verify, vs, t, hash, order);
  }

  // ------------------------------------------------------------------ where they do not

  /** A signature that is valid for one hash only. */
  function OneHash(key: PublicKey, hash: Hash, sig: Signature): bool { sig >= 0 && hash == Other(sig) }

  const ALONE: Validators := Validators(map[1 := Validator("key", 1, true)], 1)

  function VoteFor(sig: nat): Vote { Vote(1, 0, Precommit, Other(sig), 1, sig, 0) }

  function TallyFor(sig: nat): Tally { Tally(1, 0, Precommit, map[1 := VoteFor(sig)], 1) }

  lemma PowerAlone()
    ensures PowerOf(ALONE, {1}) == 1
  {
    PowerOfNone(ALONE);
    PowerInsert(ALONE, {}, 1);
    assert {} + {1} == {1 as Address};
  }

  lemma TallyAlone(sig: nat)
    ensures TallyInv(OneHash, ALONE, TallyFor(sig)) && TwoThirds(TallyFor(sig).power, ALONE.total)
  {
    PowerAlone();
    assert TallyFor(sig).votes.Keys == {1};
  }

  /** The only validator votes for one hash: the tally has two thirds, and yet the certificate from it
      is refused for another hash. */
  lemma OtherHashRefused()
    ensures var t := TallyFor(5); var order := [1];
      && TallyInv(OneHash, ALONE, t) && Enumerates(order, t.votes) && TwoThirds(t.power, ALONE.total)
      && CommitsOk(OneHash, ALONE, Other(5), CommitsIn(t.votes, order))
      && !CommitsOk(OneHash, ALONE, Other(6), CommitsIn(t.votes, order))
  {
    var t := TallyFor(5);
    var order: seq<Address> := [1];
    TallyAlone(5);
    assert Elems(order) == {1} == t.votes.Keys;
    CertificateAccepted(OneHash, ALONE, t, Other(5), order);
    CertificateAccepted(OneHash, ALONE, t, Other(6), order);
    AllCount(OneHash, ALONE, t);
    assert 1 in t.votes.Keys && 1 in ActiveSet(ALONE);
  }
}
