/** Per-peer message limits: p2p/ratelimit.go. Times are seconds and tokens are real numbers. */
module RateLimit {
  import opened Basics

  datatype Kind = GetBlocks | NewTx | Proposal | VoteMessage | Unlimited(code: nat)

  datatype Limits = Limits(rate: real, burst: real, ban: real, blocks: int, txs: int, proposals: int, votes: int)

  datatype Counter = Counter(count: int, start: real)

  datatype Peer = Peer(tokens: real, lastRefill: real, counters: map<Kind, Counter>, bannedUntil: Option<real>)

  datatype Verdict = Verdict(peer: Peer, allowed: bool)

  const STALE_AFTER: real := 600.0

  function LimitOf(cfg: Limits, kind: Kind): int {
    match kind
    case GetBlocks => cfg.blocks
    case NewTx => cfg.txs
    case Proposal => cfg.proposals
    case VoteMessage => cfg.votes
    case Unlimited(_) => 0
  }

  function Min(x: real, y: real): real { if x > y then y else x }

  function Gain(cfg: Limits, elapsed: real): real { elapsed * cfg.rate }

  function NewPeer(cfg: Limits, now: real): Peer { Peer(cfg.burst, now, map[], None) }

  /** The counter that a message at `now` is counted in: a new window when there is none or it is a
      second old. */
  function Window(counters: map<Kind, Counter>, kind: Kind, now: real): Counter {
    if kind in counters && now - counters[kind].start < 1.0 then counters[kind] else Counter(0, now)
  }

  function CheckType(cfg: Limits, p: Peer, kind: Kind, now: real): Verdict {
    if LimitOf(cfg, kind) == 0 then Verdict(p, true) else
    var c := Window(p.counters, kind, now);
    if c.count >= LimitOf(cfg, kind) then Verdict(p.(counters := p.counters[kind := c]), false)
    else Verdict(p.(counters := p.counters[kind := c.(count := c.count + 1)]), true)
  }

  function Banned(p: Peer, now: real): bool { p.bannedUntil.Some? && now < p.bannedUntil.value }

  function Refilled(cfg: Limits, p: Peer, now: real): Peer {
    p.(tokens := Min(p.tokens + Gain(cfg, now - p.lastRefill), cfg.burst), lastRefill := now)
  }

  function AllowPeer(cfg: Limits, p: Peer, kind: Kind, now: real): Verdict {
    if Banned(p, now) then Verdict(p, false) else
    var q := Refilled(cfg, p, now);
    if q.tokens < 1.0 then Verdict(q.(bannedUntil := Some(now + cfg.ban)), false) else
    var v := CheckType(cfg, q, kind, now);
    if v.allowed then v.(peer := v.peer.(tokens := v.peer.tokens - 1.0)) else v
  }

  type Peers = map<string, Peer>

  function PeerIn(cfg: Limits, m: Peers, id: string, now: real): Peer { if id in m then m[id] else NewPeer(cfg, now) }

  function Allow(cfg: Limits, m: Peers, id: string, kind: Kind, now: real): (Peers, bool) {
    var v := AllowPeer(cfg, PeerIn(cfg, m, id, now), kind, now);
    (m[id := v.peer], v.allowed)
  }

  function Cleanup(m: Peers, now: real): Peers { map id | id in m && now - m[id].lastRefill <= STALE_AFTER :: m[id] }

  class RateLimiter {
    const cfg: Limits
    var peers: Peers

    constructor (cfg: Limits)
      ensures this.cfg == cfg && peers == map[]
    {
      this.cfg := cfg;
      peers := map[];
    }

    method AllowMessage(id: string, kind: Kind, now: real) returns (allowed: bool)
      modifies this
      ensures (peers, allowed) == Allow(cfg, old(peers), id, kind, now)
    {
      if id !in peers {
        peers := peers[id := NewPeer(cfg, now)];
      }
      var p := peers[id];
      if p.bannedUntil.Some? && now < p.bannedUntil.value {
        assert peers == old(peers)[id := p];
        return false;
      }
      var tokens := p.tokens + Gain(cfg, now - p.lastRefill);
      if tokens > cfg.burst {
        tokens := cfg.burst;
      }
      p := p.(tokens := tokens, lastRefill := now);
      if tokens < 1.0 {
        p := p.(bannedUntil := Some(now + cfg.ban));
        peers := peers[id := p];
        assert peers == old(peers)[id := p];
        return false;
      }
      var v := CheckMessageType(p, kind, now);
      p, allowed := v.peer, v.allowed;
      if allowed {
        p := p.(tokens := p.tokens - 1.0);
      }
      peers := peers[id := p];
      assert peers == old(peers)[id := p];
    }

    method CheckMessageType(p: Peer, kind: Kind, now: real) returns (v: Verdict)
      ensures v == CheckType(cfg, p, kind, now)
    {
      var limit := LimitOf(cfg, kind);
      if limit == 0 {
        return Verdict(p, true);
      }
      var c := if kind in p.counters then p.counters[kind] else Counter(0, now);
      if now - c.start >= 1.0 {
        c := Counter(0, now);
      }
      if c.count >= limit {
        return Verdict(p.(counters := p.counters[kind := c]), false);
      }
      v := Verdict(p.(counters := p.counters[kind := c.(count := c.count + 1)]), true);
    }

    method CleanupStale(now: real)
      modifies this
      ensures peers == Cleanup(old(peers), now)
    {
      var todo := peers.Keys;
      var kept := peers;
      while todo != {}
        invariant todo <= peers.Keys && peers == old(peers)
        invariant kept == map id | id in peers && (id in todo || now - peers[id].lastRefill <= STALE_AFTER) :: peers[id]
        decreases todo
      {
        var id := Pick(todo);
        if now - peers[id].lastRefill > STALE_AFTER {
          kept := kept - {id};
        }
        todo := todo - {id};
      }
      peers := kept;
    }
  }

  // ------------------------------------------------------------------ what can be observed of a peer

  /** A peer as the next message at the present time will find it. */
  datatype View = View(tokens: real, counters: map<Kind, Counter>, bannedUntil: Option<real>)

  function Unexpired(counters: map<Kind, Counter>, now: real): map<Kind, Counter> {
    map k | k in counters && now - counters[k].start < 1.0 :: counters[k]
  }

  function StillBanned(until: Option<real>, now: real): Option<real> {
    if until.Some? && now < until.value then until else None
  }

  function ViewOf(cfg: Limits, p: Peer, now: real): View {
    View(Refilled(cfg, p, now).tokens, Unexpired(p.counters, now), StillBanned(p.bannedUntil, now))
  }

  /** A peer never seen. */
  function NewView(cfg: Limits): View { View(cfg.burst, map[], None) }

  function ViewIn(cfg: Limits, m: Peers, id: string, now: real): View {
    if id in m then ViewOf(cfg, m[id], now) else NewView(cfg)
  }

  function Aged(cfg: Limits, v: View, elapsed: real, now: real): View {
    View(Min(v.tokens + Gain(cfg, elapsed), cfg.burst), Unexpired(v.counters, now), StillBanned(v.bannedUntil, now))
  }

  /** The reference: what a message does to a view. */
  function AllowView(cfg: Limits, v: View, kind: Kind, now: real): (View, bool) {
    if v.bannedUntil.Some? then (v, false)
    else if v.tokens < 1.0 then (v.(bannedUntil := StillBanned(Some(now + cfg.ban), now)), false)
    else if LimitOf(cfg, kind) == 0 then (v.(tokens := v.tokens - 1.0), true)
    else
      var c := if kind in v.counters then v.counters[kind] else Counter(0, now);
      if c.count >= LimitOf(cfg, kind) then (v.(counters := v.counters[kind := c]), false)
      else (v.(counters := v.counters[kind := c.(count := c.count + 1)], tokens := v.tokens - 1.0), true)
  }

  predicate Sensible(cfg: Limits) { cfg.rate >= 0.0 && cfg.burst >= 0.0 }

  /** A full bucket, an expired ban and expired windows after ten minutes. */
  predicate Forgettable(cfg: Limits) { cfg.burst <= cfg.rate * STALE_AFTER && cfg.ban <= STALE_AFTER }

  /** What every stored peer satisfies. */
  ghost predicate PeerOk(cfg: Limits, p: Peer, now: real) {
    && 0.0 <= p.tokens <= cfg.burst && p.lastRefill <= now
    && (p.bannedUntil.Some? ==> p.bannedUntil.value <= p.lastRefill + cfg.ban)
    && (forall k :: k in p.counters ==> p.counters[k].start <= p.lastRefill)
  }

  lemma GainAdd(cfg: Limits, x: real, y: real)
    ensures Gain(cfg, x) + Gain(cfg, y) == Gain(cfg, x + y)
  {
  }

  lemma GainGrows(cfg: Limits, x: real, y: real)
    requires cfg.rate >= 0.0 && x <= y
    ensures Gain(cfg, x) <= Gain(cfg, y) && (x >= 0.0 ==> Gain(cfg, x) >= 0.0)
  {
  }

  lemma NoGain(cfg: Limits)
    ensures Gain(cfg, 0.0) == 0.0
  {
  }

  /** Looking later is looking now and waiting. */
  lemma ViewAges(cfg: Limits, p: Peer, now: real, later: real)
    requires Sensible(cfg) && now <= later
    ensures Aged(cfg, ViewOf(cfg, p, now), later - now, later) == ViewOf(cfg, p, later)
  {
    GainAdd(cfg, now - p.lastRefill, later - now);
    GainGrows(cfg, 0.0, later - now);
    assert Unexpired(Unexpired(p.counters, now), later) == Unexpired(p.counters, later);
  }

  lemma AgedTwice(cfg: Limits, v: View, x: real, t: real, y: real, u: real)
    requires Sensible(cfg) && x >= 0.0 && y >= 0.0 && t <= u
    ensures Aged(cfg, Aged(cfg, v, x, t), y, u) == Aged(cfg, v, x + y, u)
  {
    GainAdd(cfg, x, y);
    GainGrows(cfg, 0.0, y);
    assert Unexpired(Unexpired(v.counters, t), u) == Unexpired(v.counters, u);
  }

  lemma NewAges(cfg: Limits, elapsed: real, now: real)
    requires Sensible(cfg) && elapsed >= 0.0
    ensures Aged(cfg, NewView(cfg), elapsed, now) == NewView(cfg)
  {
    GainGrows(cfg, 0.0, elapsed);
    assert Unexpired(map[], now) == map[];
  }

  lemma WindowIsView(counters: map<Kind, Counter>, kind: Kind, now: real, c: Counter)
    requires c.start == now || (kind in counters && c.start == counters[kind].start && now - c.start < 1.0)
    ensures Unexpired(counters[kind := c], now) == Unexpired(counters, now)[kind := c]
  {
  }

  lemma CheckMatches(cfg: Limits, p: Peer, kind: Kind, now: real)
    ensures var v := CheckType(cfg, p, kind, now);
      var live := Unexpired(p.counters, now);
      var c := if kind in live then live[kind] else Counter(0, now);
      && v.peer == p.(counters := v.peer.counters)
      && (LimitOf(cfg, kind) == 0 ==> v.allowed && v.peer == p)
      && (LimitOf(cfg, kind) != 0 ==>
            && v.allowed == (c.count < LimitOf(cfg, kind))
            && Unexpired(v.peer.counters, now) == live[kind := if v.allowed then c.(count := c.count + 1) else c])
  {
    var c := Window(p.counters, kind, now);
    WindowIsView(p.counters, kind, now, c);
    WindowIsView(p.counters, kind, now, c.(count := c.count + 1));
  }

  /** A message does to the view of a peer what the reference says. */
  lemma AllowMatches(cfg: Limits, p: Peer, kind: Kind, now: real)
    ensures var v := AllowPeer(cfg, p, kind, now);
      (ViewOf(cfg, v.peer, now), v.allowed) == AllowView(cfg, ViewOf(cfg, p, now), kind, now)
  {
    NoGain(cfg);
    CheckMatches(cfg, Refilled(cfg, p, now), kind, now);
  }

  lemma AllowKeepsOk(cfg: Limits, p: Peer, kind: Kind, now: real)
    requires Sensible(cfg) && PeerOk(cfg, p, now)
    ensures PeerOk(cfg, AllowPeer(cfg, p, kind, now).peer, now)
  {
    GainGrows(cfg, 0.0, now - p.lastRefill);
  }

  lemma NewPeerIsNew(cfg: Limits, now: real)
    requires Sensible(cfg)
    ensures ViewOf(cfg, NewPeer(cfg, now), now) == NewView(cfg) && PeerOk(cfg, NewPeer(cfg, now), now)
  {
    NoGain(cfg);
    assert Unexpired(map[], now) == map[];
  }

  /** A peer that is old enough to be forgotten looks like one never seen. */
  lemma StaleLooksNew(cfg: Limits, p: Peer, now: real)
    requires Forgettable(cfg) && PeerOk(cfg, p, now) && now - p.lastRefill > STALE_AFTER
    ensures ViewOf(cfg, p, now) == NewView(cfg)
  {
    GainGrows(cfg, STALE_AFTER, now - p.lastRefill);
    assert Gain(cfg, STALE_AFTER) >= cfg.burst;
    assert Unexpired(p.counters, now) == map[];
  }

  // ------------------------------------------------------------------ runs

  datatype Op = Message(id: string, kind: Kind, now: real) | Clean(now: real)

  ghost predicate Clocked(ops: seq<Op>) { forall i, j :: 0 <= i < j < |ops| ==> ops[i].now <= ops[j].now }

  function PeersAfter(cfg: Limits, ops: seq<Op>): Peers {
    if ops == [] then map[] else
    var m := PeersAfter(cfg, ops[..|ops| - 1]);
    match ops[|ops| - 1]
    case Message(id, kind, now) => Allow(cfg, m, id, kind, now).0
    case Clean(now) => Cleanup(m, now)
  }

  /** The verdict on the last operation; cleaning has none. */
  function LastVerdict(cfg: Limits, ops: seq<Op>): Option<bool>
    requires ops != []
  {
    match ops[|ops| - 1]
    case Message(id, kind, now) => Some(Allow(cfg, PeersAfter(cfg, ops[..|ops| - 1]), id, kind, now).1)
    case Clean(_) => None
  }

  /** The allow/deny sequence of a run. */
  function Verdicts(cfg: Limits, ops: seq<Op>): seq<bool> {
    if ops == [] then [] else
    Verdicts(cfg, ops[..|ops| - 1]) + match LastVerdict(cfg, ops) case None => [] case Some(b) => [b]
  }

  function Messages(ops: seq<Op>): seq<Op> {
    if ops == [] then [] else
    Messages(ops[..|ops| - 1]) + if ops[|ops| - 1].Message? then [ops[|ops| - 1]] else []
  }

  /** The reference view of one peer at the time of the last operation. It does not know of cleaning. */
  function Reference(cfg: Limits, ops: seq<Op>, id: string): View
    requires ops != []
    decreases |ops|, 0
  {
    var op := ops[|ops| - 1];
    var v := Later(cfg, ops[..|ops| - 1], id, op.now);
    if op.Message? && op.id == id then AllowView(cfg, v, op.kind, op.now).0 else v
  }

  /** The reference view at a later time. */
  function Later(cfg: Limits, ops: seq<Op>, id: string, now: real): View
    decreases |ops|, 1
  {
    if ops == [] then NewView(cfg) else Aged(cfg, Reference(cfg, ops, id), now - ops[|ops| - 1].now, now)
  }

  // ------------------------------------------------------------------ the run follows the reference

  ghost predicate AllOk(cfg: Limits, m: Peers, now: real) { forall id :: id in m ==> PeerOk(cfg, m[id], now) }

  lemma ViewInAges(cfg: Limits, m: Peers, id: string, now: real, later: real)
    requires Sensible(cfg) && now <= later
    ensures Aged(cfg, ViewIn(cfg, m, id, now), later - now, later) == ViewIn(cfg, m, id, later)
  {
    if id in m {
      ViewAges(cfg, m[id], now, later);
    } else {
      NewAges(cfg, later - now, later);
    }
  }

  lemma AllowTracks(cfg: Limits, m: Peers, id: string, kind: Kind, now: real)
    requires Sensible(cfg) && AllOk(cfg, m, now)
    ensures var (m', allowed) := Allow(cfg, m, id, kind, now);
      && AllOk(cfg, m', now)
      && (ViewIn(cfg, m', id, now), allowed) == AllowView(cfg, ViewIn(cfg, m, id, now), kind, now)
      && (forall other :: other != id ==> ViewIn(cfg, m', other, now) == ViewIn(cfg, m, other, now))
  {
    NewPeerIsNew(cfg, now);
    var p := PeerIn(cfg, m, id, now);
    assert PeerOk(cfg, p, now);
    AllowMatches(cfg, p, kind, now);
    AllowKeepsOk(cfg, p, kind, now);
  }

  lemma CleanTracks(cfg: Limits, m: Peers, id: string, now: real)
    requires Sensible(cfg) && Forgettable(cfg) && AllOk(cfg, m, now)
    ensures AllOk(cfg, Cleanup(m, now), now) && ViewIn(cfg, Cleanup(m, now), id, now) == ViewIn(cfg, m, id, now)
  {
    if id in m && id !in Cleanup(m, now) {
      StaleLooksNew(cfg, m[id], now);
    }
  }

  lemma StaysOk(cfg: Limits, m: Peers, now: real, later: real)
    requires AllOk(cfg, m, now) && now <= later
    ensures AllOk(cfg, m, later)
  {
  }

  ghost predicate NeverCleaned(ops: seq<Op>) { forall i :: 0 <= i < |ops| ==> ops[i].Message? }

  /** Either cleaning forgets nothing that matters, or there is none. */
  ghost predicate Faithful(cfg: Limits, ops: seq<Op>) {
    Sensible(cfg) && Clocked(ops) && (Forgettable(cfg) || NeverCleaned(ops))
  }

  /** Before an operation at `now` the peers look as the reference says. */
  lemma {:induction false} LaterTracks(cfg: Limits, ops: seq<Op>, now: real)
    requires Faithful(cfg, ops) && (ops != [] ==> ops[|ops| - 1].now <= now)
    ensures AllOk(cfg, PeersAfter(cfg, ops), now)
    ensures forall id :: ViewIn(cfg, PeersAfter(cfg, ops), id, now) == Later(cfg, ops, id, now)
    decreases |ops|, 1
  {
    if ops != [] {
      var last := ops[|ops| - 1].now;
      Tracks(cfg, ops);
      StaysOk(cfg, PeersAfter(cfg, ops), last, now);
      forall id ensures ViewIn(cfg, PeersAfter(cfg, ops), id, now) == Later(cfg, ops, id, now) {
        ViewInAges(cfg, PeersAfter(cfg, ops), id, last, now);
      }
    }
  }

  lemma {:induction false} Tracks(cfg: Limits, ops: seq<Op>)
    requires Faithful(cfg, ops) && ops != []
    ensures var now := ops[|ops| - 1].now;
      && AllOk(cfg, PeersAfter(cfg, ops), now)
      && forall id :: ViewIn(cfg, PeersAfter(cfg, ops), id, now) == Reference(cfg, ops, id)
    decreases |ops|, 0
  {
    var init, op := ops[..|ops| - 1], ops[|ops| - 1];
    LaterTracks(cfg, init, op.now);
    var m := PeersAfter(cfg, init);
    match op
    case Message(id, kind, now) => AllowTracks(cfg, m, id, kind, now);
    case Clean(now) =>
      forall id ensures ViewIn(cfg, Cleanup(m, now), id, now) == ViewIn(cfg, m, id, now) {
        CleanTracks(cfg, m, id, now);
      }
      assert AllOk(cfg, Cleanup(m, now), now);
  }

  /** The verdict on a message is the reference's. */
  lemma VerdictTracks(cfg: Limits, ops: seq<Op>)
    requires Faithful(cfg, ops) && ops != [] && ops[|ops| - 1].Message?
    ensures var op := ops[|ops| - 1];
      LastVerdict(cfg, ops) == Some(AllowView(cfg, Later(cfg, ops[..|ops| - 1], op.id, op.now), op.kind, op.now).1)
  {
    var init, op := ops[..|ops| - 1], ops[|ops| - 1];
    LaterTracks(cfg, init, op.now);
    AllowTracks(cfg, PeersAfter(cfg, init), op.id, op.kind, op.now);
  }

  // ------------------------------------------------------------------ cleaning is unobservable

  lemma {:induction false} MessagesClocked(ops: seq<Op>)
    requires Clocked(ops)
    ensures Clocked(Messages(ops)) && NeverCleaned(Messages(ops))
    ensures forall i :: 0 <= i < |Messages(ops)| ==> ops != [] && Messages(ops)[i].now <= ops[|ops| - 1].now
  {
    if ops != [] {
      MessagesClocked(ops[..|ops| - 1]);
    }
  }

  /** Waiting in two steps. */
  lemma LaterAgain(cfg: Limits, ops: seq<Op>, id: string, now: real, later: real)
    requires Sensible(cfg) && (ops != [] ==> ops[|ops| - 1].now <= now) && now <= later
    ensures Aged(cfg, Later(cfg, ops, id, now), later - now, later) == Later(cfg, ops, id, later)
  {
    if ops == [] {
      NewAges(cfg, later - now, later);
    } else {
      var last := ops[|ops| - 1].now;
      AgedTwice(cfg, Reference(cfg, ops, id), now - last, now, later - now, later);
      assert now - last + (later - now) == later - last;
    }
  }

  lemma CleanChangesNothing(cfg: Limits, init: seq<Op>, op: Op, id: string, now: real)
    requires Sensible(cfg) && op.Clean? && (init != [] ==> init[|init| - 1].now <= op.now) && op.now <= now
    ensures Later(cfg, init + [op], id, now) == Later(cfg, init, id, now)
  {
    assert (init + [op])[..|init|] == init;
    LaterAgain(cfg, init, id, op.now, now);
  }

  lemma MessageKeepsEqual(cfg: Limits, s: seq<Op>, t: seq<Op>, op: Op, id: string, now: real)
    requires Later(cfg, s, id, op.now) == Later(cfg, t, id, op.now)
    ensures Later(cfg, s + [op], id, now) == Later(cfg, t + [op], id, now)
  {
    assert (s + [op])[..|s|] == s && (t + [op])[..|t|] == t;
  }

  lemma MessagesSnoc(init: seq<Op>, op: Op)
    ensures Messages(init + [op]) == if op.Message? then Messages(init) + [op] else Messages(init)
  {
    assert (init + [op])[..|init|] == init;
  }

  /** The reference at a later time does not depend on where the run was cleaned. */
  lemma {:induction false} CleaningForgotten(cfg: Limits, ops: seq<Op>, id: string, now: real)
    requires Sensible(cfg) && Clocked(ops) && (ops != [] ==> ops[|ops| - 1].now <= now)
    ensures Later(cfg, ops, id, now) == Later(cfg, Messages(ops), id, now)
    decreases |ops|, 0
  {
    if ops != [] {
      assert ops == ops[..|ops| - 1] + [ops[|ops| - 1]];
      ForgottenOnceMore(cfg, ops[..|ops| - 1], ops[|ops| - 1], id, now);
    }
  }

  lemma {:induction false} ForgottenOnceMore(cfg: Limits, init: seq<Op>, op: Op, id: string, now: real)
    requires Sensible(cfg) && Clocked(init) && (init != [] ==> init[|init| - 1].now <= op.now) && op.now <= now
    ensures Later(cfg, init + [op], id, now) == Later(cfg, Messages(init + [op]), id, now)
    decreases |init|, 1
  {
    MessagesSnoc(init, op);
    if op.Message? {
      CleaningForgotten(cfg, init, id, op.now);
      MessageKeepsEqual(cfg, init, Messages(init), op, id, now);
    } else {
      CleaningForgotten(cfg, init, id, now);
      CleanChangesNothing(cfg, init, op, id, now);
    }
  }

  lemma SameVerdict(cfg: Limits, init: seq<Op>, op: Op)
    requires Sensible(cfg) && Forgettable(cfg) && Clocked(init + [op]) && op.Message?
    ensures LastVerdict(cfg, init + [op]) == LastVerdict(cfg, Messages(init) + [op])
  {
    var ops, ms := init + [op], Messages(init) + [op];
    assert ops[..|ops| - 1] == init && ms[..|ms| - 1] == Messages(init);
    assert Messages(ops) == ms;
    assert Clocked(init) by {
      assert forall i :: 0 <= i < |init| ==> ops[i] == init[i];
    }
    MessagesClocked(ops);
    VerdictTracks(cfg, ops);
    VerdictTracks(cfg, ms);
    CleaningForgotten(cfg, init, op.id, op.now);
  }

  lemma VerdictsSnoc(cfg: Limits, init: seq<Op>, op: Op)
    ensures Verdicts(cfg, init + [op])
         == Verdicts(cfg, init) + match LastVerdict(cfg, init + [op]) case None => [] case Some(b) => [b]
  {
    assert (init + [op])[..|init|] == init;
  }

  /** However cleaning is interleaved with messages, the verdicts are those of the run without it. */
  lemma {:induction false} CleanupUnobservable(cfg: Limits, ops: seq<Op>)
    requires Sensible(cfg) && Forgettable(cfg) && Clocked(ops)
    ensures Verdicts(cfg, ops) == Verdicts(cfg, Messages(ops))
  {
    if ops != [] {
      var init, op := ops[..|ops| - 1], ops[|ops| - 1];
      assert ops == init + [op];
      CleanupUnobservable(cfg, init);
      VerdictsSnoc(cfg, init, op);
      if op.Message? {
        SameVerdict(cfg, init, op);
        VerdictsSnoc(cfg, Messages(init), op);
      } else {
        assert Messages(ops) == Messages(init);
      }
    }
  }

  // ------------------------------------------------------------------ counting over intervals

  predicate Counts(op: Op, id: string, kind: Option<Kind>) {
    op.Message? && op.id == id && (kind.Some? ==> op.kind == kind.value)
  }

  predicate Taken(cfg: Limits, ops: seq<Op>, id: string, kind: Option<Kind>)
    requires ops != []
  {
    Counts(ops[|ops| - 1], id, kind) && LastVerdict(cfg, ops) == Some(true)
  }

  /** How many messages of the peer, or of one kind from it, are allowed from position `i` on. */
  function AllowedFrom(cfg: Limits, ops: seq<Op>, id: string, kind: Option<Kind>, i: nat): nat {
    if |ops| <= i then 0 else
    AllowedFrom(cfg, ops[..|ops| - 1], id, kind, i) + if Taken(cfg, ops, id, kind) then 1 else 0
  }

  // ------------------------------------------------------------------ the bound on one kind

  function Windows(m: Peers, id: string, now: real): map<Kind, Counter> {
    if id in m then Unexpired(m[id].counters, now) else map[]
  }

  /** No window was opened after the last refill, and none counts past its limit. */
  ghost predicate Dated(cfg: Limits, p: Peer, now: real) {
    p.lastRefill <= now && forall k :: k in p.counters ==> CounterOk(cfg, k, p.counters[k], p.lastRefill)
  }

  predicate CounterOk(cfg: Limits, kind: Kind, c: Counter, refilled: real) {
    c.start <= refilled && c.count >= 0 && (LimitOf(cfg, kind) > 0 ==> c.count <= LimitOf(cfg, kind))
  }

  ghost predicate AllDated(cfg: Limits, m: Peers, now: real) { forall id :: id in m ==> Dated(cfg, m[id], now) }

  lemma AllowDated(cfg: Limits, p: Peer, kind: Kind, now: real)
    requires Dated(cfg, p, now)
    ensures Dated(cfg, AllowPeer(cfg, p, kind, now).peer, now)
  {
  }

  lemma {:induction false} RunDated(cfg: Limits, ops: seq<Op>, now: real)
    requires Clocked(ops) && (ops != [] ==> ops[|ops| - 1].now <= now)
    ensures AllDated(cfg, PeersAfter(cfg, ops), now)
  {
    if ops != [] {
      var init, op := ops[..|ops| - 1], ops[|ops| - 1];
      RunDated(cfg, init, op.now);
      if op.Message? {
        var p := PeerIn(cfg, PeersAfter(cfg, init), op.id, op.now);
        assert Dated(cfg, p, op.now);
        AllowDated(cfg, p, op.kind, op.now);
      }
    }
  }

  /** What `n` messages of a limited kind since time `t` leave in the open windows: at most what one
      opened before and one opened since can count. */
  ghost predicate Fits(cfg: Limits, live: map<Kind, Counter>, kind: Kind, n: int, t: real) {
    if kind in live then n <= live[kind].count + (if live[kind].start >= t then LimitOf(cfg, kind) else 0)
    else n <= LimitOf(cfg, kind)
  }

  lemma FitsLater(cfg: Limits, p: Peer, kind: Kind, n: int, t: real, now: real, later: real)
    requires Dated(cfg, p, now) && LimitOf(cfg, kind) > 0 && t <= now <= later < t + 1.0
    requires Fits(cfg, Unexpired(p.counters, now), kind, n, t)
    ensures Fits(cfg, Unexpired(p.counters, later), kind, n, t)
  {
    assert kind in p.counters ==> CounterOk(cfg, kind, p.counters[kind], p.lastRefill);
  }

  lemma FitsIn(cfg: Limits, m: Peers, id: string, kind: Kind, n: int, t: real, now: real, later: real)
    requires AllDated(cfg, m, now) && LimitOf(cfg, kind) > 0 && t <= now <= later < t + 1.0
    requires Fits(cfg, Windows(m, id, now), kind, n, t)
    ensures Fits(cfg, Windows(m, id, later), kind, n, t)
  {
    if id in m {
      FitsLater(cfg, m[id], kind, n, t, now, later);
    }
  }

  /** The windows after a message that was not refused by a ban or for lack of tokens. */
  lemma FitsChecked(cfg: Limits, p: Peer, k: Kind, kind: Kind, n: int, t: real, now: real)
    requires LimitOf(cfg, kind) > 0 && t <= now && Fits(cfg, Unexpired(p.counters, now), kind, n, t)
    ensures var v := CheckType(cfg, p, k, now);
      Fits(cfg, Unexpired(v.peer.counters, now), kind, n + (if v.allowed && k == kind then 1 else 0), t)
  {
    CheckMatches(cfg, p, k, now);
  }

  lemma FitsAllowed(cfg: Limits, p: Peer, k: Kind, kind: Kind, n: int, t: real, now: real)
    requires LimitOf(cfg, kind) > 0 && t <= now && Fits(cfg, Unexpired(p.counters, now), kind, n, t)
    ensures var v := AllowPeer(cfg, p, k, now);
      Fits(cfg, Unexpired(v.peer.counters, now), kind, n + (if v.allowed && k == kind then 1 else 0), t)
  {
    FitsChecked(cfg, Refilled(cfg, p, now), k, kind, n, t, now);
  }

  /** A peer that is cleaned has no open window left. */
  lemma CleanedWindows(cfg: Limits, m: Peers, id: string, now: real)
    requires AllDated(cfg, m, now)
    ensures Windows(Cleanup(m, now), id, now) == Windows(m, id, now)
  {
    if id in m && id !in Cleanup(m, now) {
      var p := m[id];
      forall k | k in p.counters ensures now - p.counters[k].start >= 1.0 {
        assert CounterOk(cfg, k, p.counters[k], p.lastRefill);
      }
      assert Unexpired(p.counters, now) == map[];
    }
  }

  lemma MessageWindows(cfg: Limits, m: Peers, op: Op, id: string, kind: Kind, n: int, t: real)
    requires op.Message? && LimitOf(cfg, kind) > 0 && t <= op.now && Fits(cfg, Windows(m, id, op.now), kind, n, t)
    ensures var (m', allowed) := Allow(cfg, m, op.id, op.kind, op.now);
      Fits(cfg, Windows(m', id, op.now), kind, n + (if allowed && Counts(op, id, Some(kind)) then 1 else 0), t)
  {
    if op.id == id {
      FitsAllowed(cfg, PeerIn(cfg, m, id, op.now), op.kind, kind, n, t, op.now);
    }
  }

  /** One operation. */
  lemma StepWindows(cfg: Limits, init: seq<Op>, op: Op, id: string, kind: Kind, n: int, t: real)
    requires AllDated(cfg, PeersAfter(cfg, init), op.now) && LimitOf(cfg, kind) > 0 && t <= op.now
    requires Fits(cfg, Windows(PeersAfter(cfg, init), id, op.now), kind, n, t)
    ensures var ops := init + [op];
      var n' := n + if Taken(cfg, ops, id, Some(kind)) then 1 else 0;
      Fits(cfg, Windows(PeersAfter(cfg, ops), id, op.now), kind, n', t)
  {
    var m := PeersAfter(cfg, init);
    assert (init + [op])[..|init|] == init;
    match op
    case Message(_, _, _) => MessageWindows(cfg, m, op, id, kind, n, t);
    case Clean(now) => CleanedWindows(cfg, m, id, now);
  }

  lemma AllowedSnoc(cfg: Limits, init: seq<Op>, op: Op, id: string, kind: Option<Kind>, i: nat)
    requires i <= |init|
    ensures AllowedFrom(cfg, init + [op], id, kind, i)
         == AllowedFrom(cfg, init, id, kind, i) + if Taken(cfg, init + [op], id, kind) then 1 else 0
  {
    assert (init + [op])[..|init|] == init;
  }

  lemma FitsAtFirst(cfg: Limits, m: Peers, id: string, kind: Kind, now: real)
    requires AllDated(cfg, m, now) && LimitOf(cfg, kind) > 0
    ensures Fits(cfg, Windows(m, id, now), kind, 0, now)
  {
    if id in m && kind in m[id].counters {
      assert CounterOk(cfg, kind, m[id].counters[kind], m[id].lastRefill);
    }
  }

  ghost predicate FitsAfter(cfg: Limits, ops: seq<Op>, id: string, kind: Kind, i: nat, now: real)
    requires i < |ops|
  {
    Fits(cfg, Windows(PeersAfter(cfg, ops), id, now), kind, AllowedFrom(cfg, ops, id, Some(kind), i), ops[i].now)
  }

  lemma {:induction false} WindowsCount(cfg: Limits, ops: seq<Op>, id: string, kind: Kind, i: nat)
    requires Clocked(ops) && i < |ops| && LimitOf(cfg, kind) > 0 && ops[|ops| - 1].now < ops[i].now + 1.0
    ensures FitsAfter(cfg, ops, id, kind, i, ops[|ops| - 1].now)
    decreases |ops|, 0
  {
    var init, op := ops[..|ops| - 1], ops[|ops| - 1];
    assert ops == init + [op];
    var t := ops[i].now;
    var n := AllowedFrom(cfg, init, id, Some(kind), i);
    WindowsBefore(cfg, init, op, id, kind, i, t);
    RunDated(cfg, init, op.now);
    StepWindows(cfg, init, op, id, kind, n, t);
    AllowedSnoc(cfg, init, op, id, Some(kind), i);
  }

  /** The windows that the last operation finds. */
  lemma {:induction false} WindowsBefore(cfg: Limits, init: seq<Op>, op: Op, id: string, kind: Kind, i: nat, t: real)
    requires Clocked(init) && i <= |init| && LimitOf(cfg, kind) > 0 && op.now < t + 1.0
    requires init != [] ==> init[|init| - 1].now <= op.now
    requires t == if i < |init| then init[i].now else op.now
    ensures Fits(cfg, Windows(PeersAfter(cfg, init), id, op.now), kind, AllowedFrom(cfg, init, id, Some(kind), i), t)
    decreases |init|, 1
  {
    var m := PeersAfter(cfg, init);
    if |init| == i {
      RunDated(cfg, init, op.now);
      FitsAtFirst(cfg, m, id, kind, op.now);
    } else {
      var last := init[|init| - 1].now;
      WindowsCount(cfg, init, id, kind, i);
      RunDated(cfg, init, last);
      FitsIn(cfg, m, id, kind, AllowedFrom(cfg, init, id, Some(kind), i), t, last, op.now);
    }
  }

  /** In any interval shorter than a second at most twice the limit of a kind is allowed, whatever
      the other settings and however often the peers are cleaned. */
  lemma KindBound(cfg: Limits, ops: seq<Op>, id: string, kind: Kind, i: nat)
    requires Clocked(ops) && i < |ops| && LimitOf(cfg, kind) > 0 && ops[|ops| - 1].now < ops[i].now + 1.0
    ensures AllowedFrom(cfg, ops, id, Some(kind), i) <= 2 * LimitOf(cfg, kind)
  {
    var now := ops[|ops| - 1].now;
    WindowsCount(cfg, ops, id, kind, i);
    RunDated(cfg, ops, now);
    var m := PeersAfter(cfg, ops);
    if id in m && kind in m[id].counters {
      assert CounterOk(cfg, kind, m[id].counters[kind], m[id].lastRefill);
    }
  }

  /** The same with each kind's own setting. */
  lemma KindBounds(cfg: Limits, ops: seq<Op>, id: string, i: nat)
    requires Clocked(ops) && i < |ops| && ops[|ops| - 1].now < ops[i].now + 1.0
    ensures cfg.blocks > 0 ==> AllowedFrom(cfg, ops, id, Some(GetBlocks), i) <= 2 * cfg.blocks
    ensures cfg.txs > 0 ==> AllowedFrom(cfg, ops, id, Some(NewTx), i) <= 2 * cfg.txs
    ensures cfg.proposals > 0 ==> AllowedFrom(cfg, ops, id, Some(Proposal), i) <= 2 * cfg.proposals
    ensures cfg.votes > 0 ==> AllowedFrom(cfg, ops, id, Some(VoteMessage), i) <= 2 * cfg.votes
  {
    if cfg.blocks > 0 {
      KindBound(cfg, ops, id, GetBlocks, i);
    }
    if cfg.txs > 0 {
      KindBound(cfg, ops, id, NewTx, i);
    }
    if cfg.proposals > 0 {
      KindBound(cfg, ops, id, Proposal, i);
    }
    if cfg.votes > 0 {
      KindBound(cfg, ops, id, VoteMessage, i);
    }
  }

  // ------------------------------------------------------------------ the verdict on one message

  /** Whether the peer is still banned. */
  predicate BannedIn(m: Peers, id: string, now: real) {
    id in m && m[id].bannedUntil.Some? && now < m[id].bannedUntil.value
  }

  /** How many messages of the kind were allowed in the window that `now` falls in. */
  function CountIn(m: Peers, id: string, kind: Kind, now: real): int {
    if id !in m || kind !in m[id].counters || now - m[id].counters[kind].start >= 1.0 then 0
    else m[id].counters[kind].count
  }

  /** Fewer than `limit` so far; 0 stands for no limit. */
  predicate Below(limit: int, count: int) { limit == 0 || count < limit }

  /** Each kind has its own limit, the other messages have none. */
  predicate BelowLimit(cfg: Limits, kind: Kind, count: int) {
    && (kind == GetBlocks ==> Below(cfg.blocks, count)) && (kind == NewTx ==> Below(cfg.txs, count))
    && (kind == Proposal ==> Below(cfg.proposals, count)) && (kind == VoteMessage ==> Below(cfg.votes, count))
  }

  predicate HasLimit(cfg: Limits, kind: Kind) {
    || (kind == GetBlocks && cfg.blocks != 0) || (kind == NewTx && cfg.txs != 0)
    || (kind == Proposal && cfg.proposals != 0) || (kind == VoteMessage && cfg.votes != 0)
  }

  /** The counter of the kind after `d` more messages: a window lasts a second. */
  predicate CountedIn(before: map<Kind, Counter>, after: map<Kind, Counter>, kind: Kind, now: real, d: int) {
    && kind in after && after - {kind} == before - {kind}
    && if kind in before && now - before[kind].start < 1.0
       then after[kind].start == before[kind].start && after[kind].count == before[kind].count + d
       else after[kind].start == now && after[kind].count == d
  }

  function CountersIn(m: Peers, id: string): map<Kind, Counter> { if id in m then m[id].counters else map[] }

  /** A message is allowed exactly if its peer is not banned, has a token, and is below the limit of
      the kind. Then it costs one token and is counted; without a token the peer is banned. */
  lemma AllowedExactly(cfg: Limits, m: Peers, id: string, kind: Kind, now: real)
    ensures var (m', allowed) := Allow(cfg, m, id, kind, now);
      var tokens := Available(cfg, m, id, now);
      && (allowed <==> !BannedIn(m, id, now) && tokens >= 1.0 && BelowLimit(cfg, kind, CountIn(m, id, kind, now)))
      && id in m' && m' - {id} == m - {id}
      && (BannedIn(m, id, now) ==> m'[id] == m[id])
      && (!BannedIn(m, id, now) ==>
            && m'[id].lastRefill == now && m'[id].tokens == tokens - (if allowed then 1.0 else 0.0)
            && (tokens < 1.0 ==> m'[id].bannedUntil == Some(now + cfg.ban) && m'[id].counters == CountersIn(m, id))
            && (tokens >= 1.0 ==> !BannedIn(m', id, now))
            && (tokens >= 1.0 && HasLimit(cfg, kind) ==>
                  CountedIn(CountersIn(m, id), m'[id].counters, kind, now, if allowed then 1 else 0)))
  {
    NoGain(cfg);
  }

  // ------------------------------------------------------------------ the bound on all messages

  /** The tokens that a message would find. */
  function Available(cfg: Limits, m: Peers, id: string, now: real): real {
    if id in m then Refilled(cfg, m[id], now).tokens else cfg.burst
  }

  ghost predicate Funded(cfg: Limits, p: Peer, now: real) { 0.0 <= p.tokens <= cfg.burst && p.lastRefill <= now }

  ghost predicate AllFunded(cfg: Limits, m: Peers, now: real) { forall id :: id in m ==> Funded(cfg, m[id], now) }

  /** An empty bucket is full again when a peer is cleaned. */
  predicate RefillsInTime(cfg: Limits) { cfg.burst <= cfg.rate * STALE_AFTER }

  lemma AllowFunded(cfg: Limits, p: Peer, kind: Kind, now: real)
    requires Sensible(cfg) && Funded(cfg, p, now)
    ensures Funded(cfg, AllowPeer(cfg, p, kind, now).peer, now)
  {
    GainGrows(cfg, 0.0, now - p.lastRefill);
  }

  lemma {:induction false} RunFunded(cfg: Limits, ops: seq<Op>, now: real)
    requires Sensible(cfg) && Clocked(ops) && (ops != [] ==> ops[|ops| - 1].now <= now)
    ensures AllFunded(cfg, PeersAfter(cfg, ops), now)
  {
    if ops != [] {
      var init, op := ops[..|ops| - 1], ops[|ops| - 1];
      RunFunded(cfg, init, op.now);
      if op.Message? {
        var p := PeerIn(cfg, PeersAfter(cfg, init), op.id, op.now);
        assert Funded(cfg, p, op.now);
        AllowFunded(cfg, p, op.kind, op.now);
      }
    }
  }

  lemma AvailableBounds(cfg: Limits, m: Peers, id: string, now: real)
    requires Sensible(cfg) && AllFunded(cfg, m, now)
    ensures 0.0 <= Available(cfg, m, id, now) <= cfg.burst
  {
    if id in m {
      GainGrows(cfg, 0.0, now - m[id].lastRefill);
    }
  }

  lemma AvailableGrows(cfg: Limits, m: Peers, id: string, now: real, later: real)
    requires Sensible(cfg) && now <= later
    ensures Available(cfg, m, id, later) <= Available(cfg, m, id, now) + Gain(cfg, later - now)
  {
    GainGrows(cfg, 0.0, later - now);
    if id in m {
      GainAdd(cfg, now - m[id].lastRefill, later - now);
      assert now - m[id].lastRefill + (later - now) == later - m[id].lastRefill;
    }
  }

  lemma PeerPays(cfg: Limits, p: Peer, kind: Kind, now: real)
    ensures var v := AllowPeer(cfg, p, kind, now);
      Refilled(cfg, v.peer, now).tokens <= Refilled(cfg, p, now).tokens - (if v.allowed then 1.0 else 0.0)
  {
    NoGain(cfg);
    CheckMatches(cfg, Refilled(cfg, p, now), kind, now);
  }

  lemma MessagePays(cfg: Limits, m: Peers, op: Op, id: string)
    requires op.Message?
    ensures var (m', allowed) := Allow(cfg, m, op.id, op.kind, op.now);
      Available(cfg, m', id, op.now)
      <= Available(cfg, m, id, op.now) - (if allowed && Counts(op, id, None) then 1.0 else 0.0)
  {
    if op.id == id {
      NoGain(cfg);
      PeerPays(cfg, PeerIn(cfg, m, id, op.now), op.kind, op.now);
    }
  }

  /** A cleaned peer's bucket was full. */
  lemma CleanedTokens(cfg: Limits, m: Peers, id: string, now: real)
    requires RefillsInTime(cfg) && Sensible(cfg) && AllFunded(cfg, m, now)
    ensures Available(cfg, Cleanup(m, now), id, now) == Available(cfg, m, id, now)
  {
    if id in m && id !in Cleanup(m, now) {
      GainGrows(cfg, STALE_AFTER, now - m[id].lastRefill);
    }
  }

  /** Cleaned or not, the bound below applies. */
  ghost predicate Bounded(cfg: Limits, ops: seq<Op>) {
    Sensible(cfg) && Clocked(ops) && (RefillsInTime(cfg) || NeverCleaned(ops))
  }

  lemma StepPays(cfg: Limits, init: seq<Op>, op: Op, id: string)
    requires Bounded(cfg, init + [op]) && AllFunded(cfg, PeersAfter(cfg, init), op.now)
    ensures var ops := init + [op];
      Available(cfg, PeersAfter(cfg, ops), id, op.now)
      <= Available(cfg, PeersAfter(cfg, init), id, op.now) - (if Taken(cfg, ops, id, None) then 1.0 else 0.0)
  {
    var m := PeersAfter(cfg, init);
    assert (init + [op])[..|init|] == init && (init + [op])[|init|] == op;
    match op
    case Message(_, _, _) => MessagePays(cfg, m, op, id);
    case Clean(now) => CleanedTokens(cfg, m, id, now);
  }

  /** From `t` on, what was allowed and what is left are within the bound. */
  ghost predicate Paid(cfg: Limits, ops: seq<Op>, id: string, i: nat, t: real, now: real) {
    AllowedFrom(cfg, ops, id, None, i) as real + Available(cfg, PeersAfter(cfg, ops), id, now)
      <= cfg.burst + Gain(cfg, now - t)
  }

  lemma PaidLater(cfg: Limits, ops: seq<Op>, id: string, i: nat, t: real, now: real, later: real)
    requires Sensible(cfg) && Paid(cfg, ops, id, i, t, now) && now <= later
    ensures Paid(cfg, ops, id, i, t, later)
  {
    AvailableGrows(cfg, PeersAfter(cfg, ops), id, now, later);
    GainAdd(cfg, now - t, later - now);
    assert now - t + (later - now) == later - t;
  }

  lemma PaidStep(cfg: Limits, init: seq<Op>, op: Op, id: string, i: nat, t: real)
    requires Bounded(cfg, init + [op]) && AllFunded(cfg, PeersAfter(cfg, init), op.now)
    requires i <= |init| && Paid(cfg, init, id, i, t, op.now)
    ensures Paid(cfg, init + [op], id, i, t, op.now)
  {
    StepPays(cfg, init, op, id);
    AllowedSnoc(cfg, init, op, id, None, i);
  }

  lemma BoundedInit(cfg: Limits, init: seq<Op>, op: Op)
    requires Bounded(cfg, init + [op])
    ensures Bounded(cfg, init) && (init != [] ==> init[|init| - 1].now <= op.now)
  {
    var ops := init + [op];
    assert ops[|init|] == op && forall j :: 0 <= j < |init| ==> ops[j] == init[j];
  }

  /** Tokens pay for what is allowed. */
  lemma {:induction false} TokensPay(cfg: Limits, ops: seq<Op>, id: string, i: nat)
    requires Bounded(cfg, ops) && i < |ops|
    ensures Paid(cfg, ops, id, i, ops[i].now, ops[|ops| - 1].now)
    decreases |ops|, 0
  {
    var init, op := ops[..|ops| - 1], ops[|ops| - 1];
    assert ops == init + [op];
    BoundedInit(cfg, init, op);
    PaidBefore(cfg, init, op, id, i, ops[i].now);
    RunFunded(cfg, init, op.now);
    PaidStep(cfg, init, op, id, i, ops[i].now);
  }

  lemma {:induction false} PaidBefore(cfg: Limits, init: seq<Op>, op: Op, id: string, i: nat, t: real)
    requires Bounded(cfg, init) && i <= |init| && (init != [] ==> init[|init| - 1].now <= op.now)
    requires t == if i < |init| then init[i].now else op.now
    ensures Paid(cfg, init, id, i, t, op.now)
    decreases |init|, 1
  {
    if |init| == i {
      RunFunded(cfg, init, op.now);
      AvailableBounds(cfg, PeersAfter(cfg, init), id, op.now);
      NoGain(cfg);
    } else {
      TokensPay(cfg, init, id, i);
      PaidLater(cfg, init, id, i, t, init[|init| - 1].now, op.now);
    }
  }

  /** In an interval of length `d` that starts with operation `i`, the peer has at most the burst
      and what `d` gains allowed. */
  ghost predicate RateHolds(cfg: Limits, ops: seq<Op>, id: string, i: nat, d: real) {
    Clocked(ops) && i < |ops| && ops[|ops| - 1].now - ops[i].now <= d ==>
      AllowedFrom(cfg, ops, id, None, i) as real <= cfg.burst + Gain(cfg, d)
  }

  /** The bound holds in every run without cleaning, and in every run at all if buckets refill in
      time. */
  lemma RateBound(cfg: Limits, ops: seq<Op>, id: string, i: nat, d: real)
    requires Sensible(cfg) && (RefillsInTime(cfg) || NeverCleaned(ops))
    ensures RateHolds(cfg, ops, id, i, d)
  {
    if Clocked(ops) && i < |ops| && ops[|ops| - 1].now - ops[i].now <= d {
      var now := ops[|ops| - 1].now;
      TokensPay(cfg, ops, id, i);
      RunFunded(cfg, ops, now);
      AvailableBounds(cfg, PeersAfter(cfg, ops), id, now);
      GainGrows(cfg, now - ops[i].now, d);
    }
  }

  // ------------------------------------------------------------------ when cleaning breaks the bound

  /** Messages of an unlimited kind, all at once. */
  function Flood(id: string, now: real, n: nat): seq<Op> {
    if n == 0 then [] else Flood(id, now, n - 1) + [Message(id, Unlimited(0), now)]
  }

  lemma UnlimitedAllowed(cfg: Limits, p: Peer, now: real)
    requires 1.0 <= p.tokens <= cfg.burst && p.lastRefill == now && p.bannedUntil == None
    ensures AllowPeer(cfg, p, Unlimited(0), now) == Verdict(p.(tokens := p.tokens - 1.0), true)
  {
    NoGain(cfg);
  }

  /** The peers after `n` of them. */
  function Flooded(cfg: Limits, m: Peers, id: string, now: real, n: nat): Peers {
    if n == 0 then m else m[id := Peer(cfg.burst - n as real, now, map[], None)]
  }

  lemma FloodNext(ops: seq<Op>, id: string, now: real, n: nat)
    requires n > 0
    ensures ops + Flood(id, now, n) == ops + Flood(id, now, n - 1) + [Message(id, Unlimited(0), now)]
  {
  }

  /** A peer not seen before may send its whole burst at once. */
  lemma {:induction false} FloodAllowed(cfg: Limits, ops: seq<Op>, id: string, now: real, n: nat, i: nat)
    requires id !in PeersAfter(cfg, ops) && n as real <= cfg.burst && i <= |ops|
    ensures AllowedFrom(cfg, ops + Flood(id, now, n), id, None, i) == AllowedFrom(cfg, ops, id, None, i) + n
    ensures PeersAfter(cfg, ops + Flood(id, now, n)) == Flooded(cfg, PeersAfter(cfg, ops), id, now, n)
  {
    if n == 0 {
      assert ops + Flood(id, now, n) == ops;
    } else {
      FloodAllowed(cfg, ops, id, now, n - 1, i);
      var op := Message(id, Unlimited(0), now);
      FloodNext(ops, id, now, n);
      FloodOnce(cfg, ops + Flood(id, now, n - 1), PeersAfter(cfg, ops), op, id, now, n, i);
    }
  }

  lemma FloodOnce(cfg: Limits, before: seq<Op>, m: Peers, op: Op, id: string, now: real, n: nat, i: nat)
    requires n > 0 && n as real <= cfg.burst && id !in m && op == Message(id, Unlimited(0), now) && i <= |before|
    requires PeersAfter(cfg, before) == Flooded(cfg, m, id, now, n - 1)
    ensures AllowedFrom(cfg, before + [op], id, None, i) == AllowedFrom(cfg, before, id, None, i) + 1
    ensures PeersAfter(cfg, before + [op]) == Flooded(cfg, m, id, now, n)
  {
    var p := Peer(cfg.burst - (n - 1) as real, now, map[], None);
    assert PeerIn(cfg, PeersAfter(cfg, before), id, now) == p;
    UnlimitedAllowed(cfg, p, now);
    OneMoreAllowed(cfg, before, op, id, i);
  }

  lemma OneMoreAllowed(cfg: Limits, before: seq<Op>, op: Op, id: string, i: nat)
    requires op.Message? && op.id == id && i <= |before|
    requires AllowPeer(cfg, PeerIn(cfg, PeersAfter(cfg, before), id, op.now), op.kind, op.now).allowed
    ensures AllowedFrom(cfg, before + [op], id, None, i) == AllowedFrom(cfg, before, id, None, i) + 1
    ensures PeersAfter(cfg, before + [op]) == PeersAfter(cfg, before)[
      id := AllowPeer(cfg, PeerIn(cfg, PeersAfter(cfg, before), id, op.now), op.kind, op.now).peer]
  {
    assert (before + [op])[..|before|] == before && (before + [op])[|before|] == op;
  }

  lemma {:induction false} FloodShape(id: string, now: real, n: nat)
    ensures |Flood(id, now, n)| == n && forall j :: 0 <= j < n ==> Flood(id, now, n)[j].now == now
  {
    if n > 0 {
      FloodShape(id, now, n - 1);
    }
  }

  /** A burst, cleaning when it is due, and a burst again. */
  function TwoBursts(id: string, n: nat, later: real): seq<Op> {
    Flood(id, 0.0, n) + [Clean(later)] + Flood(id, later, n)
  }

  lemma TwoBurstsShape(id: string, n: nat, later: real)
    requires 0 < n && later >= 0.0
    ensures var ops := TwoBursts(id, n, later);
      |ops| == 2 * n + 1 && Clocked(ops) && ops[0].now == 0.0 && ops[2 * n].now == later
  {
    FloodShape(id, 0.0, n);
    FloodShape(id, later, n);
    var ops := TwoBursts(id, n, later);
    assert forall j :: 0 <= j < n ==> ops[j] == Flood(id, 0.0, n)[j];
    assert ops[n] == Clean(later);
    assert forall j :: n < j < |ops| ==> ops[j] == Flood(id, later, n)[j - n - 1];
  }

  /** Cleaning forgets the peer that has just spent its burst. */
  lemma FirstBurst(cfg: Limits, id: string, n: nat, later: real)
    requires 0 < n && cfg.burst == n as real && later > STALE_AFTER
    ensures var ops := Flood(id, 0.0, n) + [Clean(later)];
      AllowedFrom(cfg, ops, id, None, 0) == n && id !in PeersAfter(cfg, ops)
  {
    var first := Flood(id, 0.0, n);
    FloodAllowed(cfg, [], id, 0.0, n, 0);
    assert [] + first == first;
    AllowedSnoc(cfg, first, Clean(later), id, None, 0);
    assert (first + [Clean(later)])[..|first|] == first;
  }

  lemma TwoBurstsAllowed(cfg: Limits, id: string, n: nat, later: real)
    requires 0 < n && cfg.burst == n as real && later > STALE_AFTER
    ensures AllowedFrom(cfg, TwoBursts(id, n, later), id, None, 0) == 2 * n
  {
    FirstBurst(cfg, id, n, later);
    FloodAllowed(cfg, Flood(id, 0.0, n) + [Clean(later)], id, later, n, 0);
  }

  lemma Reciprocal(r: real, e: real)
    requires r >= 0.0 && e > 0.0 && e * (r + 1.0) == 1.0
    ensures r * e < 1.0
  {
    assert e * (r + 1.0) == e * r + e;
  }

  /** A second burst just after cleaning is due is more than what was gained. */
  lemma SecondBurstExceeds(cfg: Limits, burst: nat, rate: nat) returns (d: real)
    requires cfg.burst == burst as real && cfg.rate == rate as real && burst > 600 * rate
    ensures d > STALE_AFTER && cfg.burst + Gain(cfg, d) < (2 * burst) as real
  {
    var e := 1.0 / (rate as real + 1.0);
    Reciprocal(rate as real, e);
    d := STALE_AFTER + e;
    GainAdd(cfg, STALE_AFTER, e);
    assert Gain(cfg, STALE_AFTER) == (600 * rate) as real;
    assert Gain(cfg, e) == rate as real * e;
  }

  /** A bucket that does not refill in time breaks the bound. */
  lemma CleaningBreaksBound(cfg: Limits, burst: nat, rate: nat, id: string) returns (ops: seq<Op>, d: real)
    requires cfg.burst == burst as real && cfg.rate == rate as real && burst > 600 * rate
    ensures !RateHolds(cfg, ops, id, 0, d)
  {
    d := SecondBurstExceeds(cfg, burst, rate);
    ops := TwoBursts(id, burst, d);
    TwoBurstsShape(id, burst, d);
    TwoBurstsAllowed(cfg, id, burst, d);
  }

  /** For whole-numbered settings, the bound holds in every run, cleaned or not, exactly if a burst
      is at most what ten minutes gain. */
  lemma RateBoundExactly(cfg: Limits, burst: nat, rate: nat)
    requires cfg.burst == burst as real && cfg.rate == rate as real
    ensures (forall ops, id, i, d :: RateHolds(cfg, ops, id, i, d)) <==> burst <= 600 * rate
  {
    if burst <= 600 * rate {
      assert cfg.rate * STALE_AFTER == (600 * rate) as real;
      forall ops, id, i, d ensures RateHolds(cfg, ops, id, i, d) {
        RateBound(cfg, ops, id, i, d);
      }
    } else {
      var ops, d := CleaningBreaksBound(cfg, burst, rate, "peer");
    }
  }

  function TwoMessages(id: string): seq<Op> {
    [Message(id, Unlimited(0), 0.0), Clean(601.0), Message(id, Unlimited(0), 601.0)]
  }

  lemma TwoMessagesAreBursts(id: string)
    ensures TwoBursts(id, 1, 601.0) == TwoMessages(id)
  {
    assert Flood(id, 0.0, 0) == [] && Flood(id, 601.0, 0) == [];
  }

  /** The smallest such run: no refill, a burst of one, and two messages allowed. */
  lemma CleaningAllowsSecond(cfg: Limits, id: string)
    requires cfg.rate == 0.0 && cfg.burst == 1.0
    ensures Clocked(TwoMessages(id)) && AllowedFrom(cfg, TwoMessages(id), id, None, 0) == 2
    ensures cfg.burst + Gain(cfg, 601.0) == 1.0
  {
    TwoMessagesAreBursts(id);
    TwoBurstsShape(id, 1, 601.0);
    TwoBurstsAllowed(cfg, id, 1, 601.0);
  }

  // ------------------------------------------------------------------ when cleaning can be observed

  /** Cleaning does not show in the verdicts of this run. */
  ghost predicate Unobserved(cfg: Limits, ops: seq<Op>) {
    Clocked(ops) ==> Verdicts(cfg, ops) == Verdicts(cfg, Messages(ops))
  }

  /** All messages come from one peer, at or after time 0. */
  ghost predicate OnlyFrom(ops: seq<Op>, id: string) {
    forall i :: 0 <= i < |ops| ==> ops[i].now >= 0.0 && (ops[i].Message? ==> ops[i].id == id)
  }

  function Trues(bs: seq<bool>): nat {
    if bs == [] then 0 else Trues(bs[..|bs| - 1]) + if bs[|bs| - 1] then 1 else 0
  }

  lemma TruesSnoc(bs: seq<bool>, b: bool)
    ensures Trues(bs + [b]) == Trues(bs) + if b then 1 else 0
  {
    assert (bs + [b])[..|bs|] == bs;
  }

  lemma OneMoreTrue(cfg: Limits, init: seq<Op>, op: Op, id: string)
    requires op.Message? ==> op.id == id
    requires AllowedFrom(cfg, init, id, None, 0) == Trues(Verdicts(cfg, init))
    ensures AllowedFrom(cfg, init + [op], id, None, 0) == Trues(Verdicts(cfg, init + [op]))
  {
    AllowedSnoc(cfg, init, op, id, None, 0);
    VerdictsSnoc(cfg, init, op);
    if op.Message? {
      TruesSnoc(Verdicts(cfg, init), LastVerdict(cfg, init + [op]).value);
    } else {
      assert Verdicts(cfg, init + [op]) == Verdicts(cfg, init);
    }
  }

  lemma {:induction false} AllowedAreTrues(cfg: Limits, ops: seq<Op>, id: string)
    requires OnlyFrom(ops, id)
    ensures AllowedFrom(cfg, ops, id, None, 0) == Trues(Verdicts(cfg, ops))
  {
    if ops != [] {
      AllowedAreTrues(cfg, ops[..|ops| - 1], id);
      OneMoreTrue(cfg, ops[..|ops| - 1], ops[|ops| - 1], id);
      assert ops == ops[..|ops| - 1] + [ops[|ops| - 1]];
    }
  }

  lemma {:induction false} MessagesOnlyFrom(ops: seq<Op>, id: string)
    requires OnlyFrom(ops, id)
    ensures OnlyFrom(Messages(ops), id)
  {
    if ops != [] {
      MessagesOnlyFrom(ops[..|ops| - 1], id);
    }
  }

  /** More messages allowed with cleaning than without shows. */
  lemma MoreIsObserved(cfg: Limits, ops: seq<Op>, id: string)
    requires Clocked(ops) && OnlyFrom(ops, id)
    requires AllowedFrom(cfg, ops, id, None, 0) > AllowedFrom(cfg, Messages(ops), id, None, 0)
    ensures !Unobserved(cfg, ops)
  {
    MessagesOnlyFrom(ops, id);
    AllowedAreTrues(cfg, ops, id);
    AllowedAreTrues(cfg, Messages(ops), id);
  }

  lemma {:induction false} FloodOnlyFrom(id: string, now: real, n: nat)
    requires now >= 0.0
    ensures OnlyFrom(Flood(id, now, n), id) && NeverCleaned(Flood(id, now, n))
  {
    if n > 0 {
      FloodOnlyFrom(id, now, n - 1);
    }
  }

  lemma TwoBurstsOnlyFrom(id: string, n: nat, later: real)
    requires later >= 0.0
    ensures OnlyFrom(TwoBursts(id, n, later), id)
  {
    FloodOnlyFrom(id, 0.0, n);
    FloodOnlyFrom(id, later, n);
  }

  /** Without cleaning the messages of a run that ends at `d` stay within the bound. */
  lemma UncleanedWithin(cfg: Limits, ops: seq<Op>, id: string, d: real)
    requires Sensible(cfg) && Clocked(ops) && OnlyFrom(ops, id) && ops != [] && ops[|ops| - 1].now == d
    ensures AllowedFrom(cfg, Messages(ops), id, None, 0) as real <= cfg.burst + Gain(cfg, d)
  {
    var ms := Messages(ops);
    MessagesClocked(ops);
    MessagesOnlyFrom(ops, id);
    assert d >= 0.0;
    GainGrows(cfg, 0.0, d);
    RateBound(cfg, ms, id, 0, d);
  }

  lemma BurstObserved(cfg: Limits, burst: nat, rate: nat, id: string) returns (ops: seq<Op>)
    requires cfg.burst == burst as real && cfg.rate == rate as real && burst > 600 * rate
    ensures !Unobserved(cfg, ops)
  {
    var d := SecondBurstExceeds(cfg, burst, rate);
    ops := TwoBursts(id, burst, d);
    TwoBurstsShape(id, burst, d);
    TwoBurstsOnlyFrom(id, burst, d);
    TwoBurstsAllowed(cfg, id, burst, d);
    UncleanedWithin(cfg, ops, id, d);
    MoreIsObserved(cfg, ops, id);
  }

  /** A burst and one message more, which is refused. */
  function Overdrawn(id: string, n: nat): seq<Op> { Flood(id, 0.0, n) + [Message(id, Unlimited(0), 0.0)] }

  lemma FloodedOut(cfg: Limits, id: string, n: nat)
    requires 0 < n && cfg.burst == n as real
    ensures PeersAfter(cfg, Flood(id, 0.0, n)) == map[id := Peer(0.0, 0.0, map[], None)]
  {
    FloodAllowed(cfg, [], id, 0.0, n, 0);
    assert [] + Flood(id, 0.0, n) == Flood(id, 0.0, n);
  }

  lemma EmptyIsBanned(cfg: Limits, p: Peer)
    requires p == Peer(0.0, 0.0, map[], None) && cfg.burst >= 0.0
    ensures AllowPeer(cfg, p, Unlimited(0), 0.0) == Verdict(p.(bannedUntil := Some(cfg.ban)), false)
  {
    NoGain(cfg);
  }

  lemma PeersNext(cfg: Limits, init: seq<Op>, op: Op)
    requires op.Message?
    ensures PeersAfter(cfg, init + [op]) == Allow(cfg, PeersAfter(cfg, init), op.id, op.kind, op.now).0
  {
    assert (init + [op])[..|init|] == init;
  }

  lemma OverdrawnIsBanned(cfg: Limits, id: string, n: nat)
    requires 0 < n && cfg.burst == n as real
    ensures PeersAfter(cfg, Overdrawn(id, n)) == map[id := Peer(0.0, 0.0, map[], Some(cfg.ban))]
  {
    FloodedOut(cfg, id, n);
    EmptyIsBanned(cfg, Peer(0.0, 0.0, map[], None));
    PeersNext(cfg, Flood(id, 0.0, n), Message(id, Unlimited(0), 0.0));
  }

  lemma {:induction false} NothingToDrop(ops: seq<Op>)
    requires NeverCleaned(ops)
    ensures Messages(ops) == ops
  {
    if ops != [] {
      NothingToDrop(ops[..|ops| - 1]);
    }
  }

  lemma VerdictAfter(cfg: Limits, init: seq<Op>, id: string, now: real)
    ensures LastVerdict(cfg, init + [Message(id, Unlimited(0), now)])
         == Some(AllowPeer(cfg, PeerIn(cfg, PeersAfter(cfg, init), id, now), Unlimited(0), now).allowed)
  {
    assert (init + [Message(id, Unlimited(0), now)])[..|init|] == init;
  }

  /** The ban still holds at `now`, unless the peer was cleaned. */
  lemma BanForgotten(cfg: Limits, id: string, n: nat, now: real)
    requires 0 < n && cfg.burst == n as real && STALE_AFTER < now < cfg.ban
    ensures LastVerdict(cfg, Overdrawn(id, n) + [Message(id, Unlimited(0), now)]) == Some(false)
    ensures LastVerdict(cfg, Overdrawn(id, n) + [Clean(now)] + [Message(id, Unlimited(0), now)]) == Some(true)
  {
    var over := Overdrawn(id, n);
    OverdrawnIsBanned(cfg, id, n);
    VerdictAfter(cfg, over, id, now);
    assert (over + [Clean(now)])[..|over|] == over;
    assert PeersAfter(cfg, over + [Clean(now)]) == map[];
    VerdictAfter(cfg, over + [Clean(now)], id, now);
    UnlimitedAllowed(cfg, NewPeer(cfg, now), now);
  }

  lemma LastDiffers(a: seq<bool>, b: seq<bool>, x: bool, y: bool)
    requires x != y
    ensures a + [x] != b + [y]
  {
    assert (a + [x])[|a + [x]| - 1] == x && (b + [y])[|b + [y]| - 1] == y;
  }

  lemma BanObserved(cfg: Limits, id: string, n: nat) returns (ops: seq<Op>)
    requires 0 < n && cfg.burst == n as real && cfg.ban > STALE_AFTER
    ensures !Unobserved(cfg, ops)
  {
    var now := (STALE_AFTER + cfg.ban) / 2.0;
    var over, op := Overdrawn(id, n), Message(id, Unlimited(0), now);
    ops := over + [Clean(now)] + [op];
    BanForgotten(cfg, id, n, now);
    OverdrawnShape(id, n, now);
    MessagesSnoc(over + [Clean(now)], op);
    MessagesSnoc(over, Clean(now));
    NothingToDrop(over);
    VerdictsSnoc(cfg, over + [Clean(now)], op);
    VerdictsSnoc(cfg, over, op);
    LastDiffers(Verdicts(cfg, over + [Clean(now)]), Verdicts(cfg, over), true, false);
  }

  lemma OverdrawnShape(id: string, n: nat, now: real)
    requires now >= 0.0
    ensures NeverCleaned(Overdrawn(id, n))
    ensures Clocked(Overdrawn(id, n) + [Clean(now)] + [Message(id, Unlimited(0), now)])
  {
    FloodShape(id, 0.0, n);
    FloodOnlyFrom(id, 0.0, n);
  }

  /** With no burst at all every message is refused. */
  lemma {:induction false} NothingAllowed(cfg: Limits, ops: seq<Op>)
    requires cfg.burst == 0.0
    ensures Verdicts(cfg, ops) == Verdicts(cfg, Messages(ops))
  {
    if ops != [] {
      var init, op := ops[..|ops| - 1], ops[|ops| - 1];
      assert ops == init + [op];
      NothingAllowed(cfg, init);
      VerdictsSnoc(cfg, init, op);
      MessagesSnoc(init, op);
      if op.Message? {
        VerdictsSnoc(cfg, Messages(init), op);
        RefusedWithoutBurst(cfg, init, op);
        RefusedWithoutBurst(cfg, Messages(init), op);
      }
    }
  }

  lemma RefusedWithoutBurst(cfg: Limits, init: seq<Op>, op: Op)
    requires cfg.burst == 0.0 && op.Message?
    ensures LastVerdict(cfg, init + [op]) == Some(false)
  {
    assert (init + [op])[..|init|] == init && (init + [op])[|init|] == op;
  }

  /** For whole-numbered burst and rate, cleaning is unobservable in all runs exactly if there is no
      burst, or a burst is at most what ten minutes gain and a ban at most ten minutes. */
  lemma UnobservableExactly(cfg: Limits, burst: nat, rate: nat)
    requires cfg.burst == burst as real && cfg.rate == rate as real
    ensures (forall ops :: Unobserved(cfg, ops)) <==> burst == 0 || (burst <= 600 * rate && cfg.ban <= STALE_AFTER)
  {
    if burst == 0 {
      forall ops ensures Unobserved(cfg, ops) {
        NothingAllowed(cfg, ops);
      }
    } else if burst > 600 * rate {
      var ops := BurstObserved(cfg, burst, rate, "peer");
    } else if cfg.ban > STALE_AFTER {
      var ops := BanObserved(cfg, "peer", burst);
    } else {
      assert cfg.rate * STALE_AFTER == (600 * rate) as real;
      forall ops ensures Unobserved(cfg, ops) {
        if Clocked(ops) {
          CleanupUnobservable(cfg, ops);
        }
      }
    }
  }
}
