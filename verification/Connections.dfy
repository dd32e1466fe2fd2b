/** Which of two connections between a pair of nodes survives: `addPeer`, `removePeer` and the end
    of `handleHandshake` in p2p/node.go. */
module Connections {

  /** Node ids are fixed-width hex strings, compared as such; read as numbers. */
  type NodeId = int

  /** The id of a peer that has not shaken hands. */
  const NO_ID: NodeId := -1

  /** One end of a connection. */
  datatype Link = Link(id: NodeId, conn: int, inbound: bool)

  type Table = map<NodeId, Link>

  datatype Added = Added(peers: Table, ok: bool, closed: set<int>)

  /** On a duplicate the connection that the lower id dialled wins; the loser is closed. */
  function AddPeer(self: NodeId, peers: Table, p: Link): Added {
    if p.id !in peers then Added(peers[p.id := p], true, {})
    else if p.inbound == (self < p.id) then Added(peers, false, {})
    else Added(peers[p.id := p], true, {peers[p.id].conn})
  }

  /** An end that was replaced does not take its successor with it. */
  function RemovePeer(peers: Table, p: Link): Table {
    if p.id in peers && peers[p.id].conn != p.conn then peers else peers - {p.id}
  }

  class Node {
    const id: NodeId
    var peers: Table
    /** Connections this node has closed. */
    var closed: set<int>

    constructor (id: NodeId)
      ensures this.id == id && peers == map[] && closed == {}
    {
      this.id := id;
      peers, closed := map[], {};
    }

    method Add(p: Link) returns (ok: bool)
      modifies this
      ensures var r := AddPeer(id, old(peers), p); peers == r.peers && ok == r.ok && closed == old(closed) + r.closed
    {
      if p.id in peers {
        var existing := peers[p.id];
        if id < p.id {
          if p.inbound {
            return false;
          }
        } else {
          if !p.inbound {
            return false;
          }
        }
        closed := closed + {existing.conn};
      }
      peers := peers[p.id := p];
      ok := true;
    }

    method HandleHandshake(p: Link)
      modifies this
      ensures var r := AddPeer(id, old(peers), p);
        peers == r.peers && closed == old(closed) + r.closed + if r.ok then {} else {p.conn}
    {
      var ok := Add(p);
      if !ok {
        closed := closed + {p.conn};
      }
    }

    method Remove(p: Link)
      modifies this`peers
      ensures peers == RemovePeer(old(peers), p)
    {
      if p.id in peers {
        if peers[p.id].conn != p.conn {
          return;
        }
      }
      peers := peers - {p.id};
    }
  }

  // ------------------------------------------------------------------ two nodes that dial each other

  /** The connection that the lower id dialled, and the other one. */
  const UP := 1
  const DOWN := 2

  /** One node: its table, the connections whose handshake it has handled, and those whose handler
      has ended. */
  datatype Side = Side(peers: Table, done: set<int>, gone: set<int>)

  datatype Pair = Pair(low: Side, high: Side, closed: set<int>)

  /** The two ids, and what the tables hold besides. */
  datatype Setup = Setup(low: NodeId, high: NodeId, lowOthers: Table, highOthers: Table)
  {
    predicate Valid() {
      NO_ID < low < high && high !in lowOthers && low !in highOthers && NO_ID !in lowOthers && NO_ID !in highOthers
    }
  }

  datatype Event = Handshake(atLow: bool, conn: int) | Closed(atLow: bool, conn: int)

  function LinkAt(u: Setup, atLow: bool, conn: int): Link {
    if atLow then Link(u.high, conn, conn == DOWN) else Link(u.low, conn, conn == UP)
  }

  function SideOf(s: Pair, atLow: bool): Side { if atLow then s.low else s.high }

  function WithSide(s: Pair, atLow: bool, d: Side): Pair { if atLow then s.(low := d) else s.(high := d) }

  predicate Enabled(s: Pair, e: Event) {
    var d := SideOf(s, e.atLow);
    && (e.conn == UP || e.conn == DOWN)
    && match e
       case Handshake(_, c) => c !in d.done && c !in d.gone
       case Closed(_, c) => c in s.closed && c !in d.gone
  }

  function Step(u: Setup, s: Pair, e: Event): Pair {
    var d := SideOf(s, e.atLow);
    var self := if e.atLow then u.low else u.high;
    var p := LinkAt(u, e.atLow, e.conn);
    match e
    case Handshake(atLow, c) =>
      var r := AddPeer(self, d.peers, p);
      var refused := if r.ok then {} else {c};
      WithSide(s, atLow, d.(peers := r.peers, done := d.done + {c})).(closed := s.closed + r.closed + refused)
    case Closed(atLow, c) =>
      var q := if c in d.done then p else p.(id := NO_ID);
      WithSide(s, atLow, d.(peers := RemovePeer(d.peers, q), gone := d.gone + {c}))
  }

  function Begin(u: Setup): Pair { Pair(Side(u.lowOthers, {}, {}), Side(u.highOthers, {}, {}), {}) }

  ghost predicate Possible(u: Setup, es: seq<Event>) {
    es == [] || (Possible(u, es[..|es| - 1]) && Enabled(Reach(u, es[..|es| - 1]), es[|es| - 1]))
  }

  function Reach(u: Setup, es: seq<Event>): Pair {
    if es == [] then Begin(u) else Step(u, Reach(u, es[..|es| - 1]), es[|es| - 1])
  }

  /** One side's table: the surviving connection once its handshake is handled, before that the
      other one while it lives. */
  ghost predicate SideInv(u: Setup, atLow: bool, d: Side, closed: set<int>) {
    var others := if atLow then u.lowOthers else u.highOthers;
    var up, down := LinkAt(u, atLow, UP), LinkAt(u, atLow, DOWN);
    && UP !in d.gone && (DOWN in d.gone ==> DOWN in closed) && (UP in d.done && DOWN in d.done ==> DOWN in closed)
    && d.peers == (if UP in d.done then others[up.id := up]
                   else if DOWN in d.done && DOWN !in d.gone then others[down.id := down]
                   else others)
  }

  ghost predicate Inv(u: Setup, s: Pair) {
    UP !in s.closed && SideInv(u, true, s.low, s.closed) && SideInv(u, false, s.high, s.closed)
  }

  lemma HandshakeKeepsSide(u: Setup, s: Pair, atLow: bool, c: int)
    requires u.Valid() && Inv(u, s) && Enabled(s, Handshake(atLow, c))
    ensures var s' := Step(u, s, Handshake(atLow, c));
      UP !in s'.closed && s.closed <= s'.closed && SideInv(u, atLow, SideOf(s', atLow), s'.closed)
  {
    var d := SideOf(s, atLow);
    var d' := SideOf(Step(u, s, Handshake(atLow, c)), atLow);
    assert DOWN in d'.done <==> c == DOWN || DOWN in d.done;
  }

  lemma ClosedKeepsSide(u: Setup, s: Pair, atLow: bool, c: int)
    requires u.Valid() && Inv(u, s) && Enabled(s, Closed(atLow, c))
    ensures var s' := Step(u, s, Closed(atLow, c));
      c == DOWN && s'.closed == s.closed && SideInv(u, atLow, SideOf(s', atLow), s'.closed)
  {
    var others := if atLow then u.lowOthers else u.highOthers;
    var down := LinkAt(u, atLow, DOWN);
    assert others[down.id := down] - {down.id} == others;
    assert others - {NO_ID} == others;
    assert others[down.id := down] - {NO_ID} == others[down.id := down];
  }

  lemma OtherSide(u: Setup, atLow: bool, d: Side, closed: set<int>, more: set<int>)
    requires SideInv(u, atLow, d, closed) && closed <= more
    ensures SideInv(u, atLow, d, more)
  {
  }

  lemma StepKeepsInv(u: Setup, s: Pair, e: Event)
    requires u.Valid() && Inv(u, s) && Enabled(s, e)
    ensures Inv(u, Step(u, s, e))
  {
    match e
    case Handshake(atLow, c) => HandshakeKeepsSide(u, s, atLow, c);
    case Closed(atLow, c) => ClosedKeepsSide(u, s, atLow, c);
    OtherSide(u, !e.atLow, SideOf(s, !e.atLow), s.closed, Step(u, s, e).closed);
  }

  lemma {:induction false} ReachableInv(u: Setup, es: seq<Event>)
    requires u.Valid() && Possible(u, es)
    ensures Inv(u, Reach(u, es))
  {
    if es != [] {
      ReachableInv(u, es[..|es| - 1]);
      StepKeepsInv(u, Reach(u, es[..|es| - 1]), es[|es| - 1]);
    }
  }

  /** In whatever order handshakes and closes arrive, the connection that the lower id dialled is
      never closed, and once registered it stays registered. */
  lemma SurvivorStays(u: Setup, es: seq<Event>)
    requires u.Valid() && Possible(u, es)
    ensures var s := Reach(u, es);
      && UP !in s.closed
      && (UP in s.low.done ==> u.high in s.low.peers && s.low.peers[u.high].conn == UP)
      && (UP in s.high.done ==> u.low in s.high.peers && s.high.peers[u.low].conn == UP)
  {
    ReachableInv(u, es);
  }

  /** Nothing is left to handle: a handshake reaches the dialling end only as the answer of the
      other end, and a closed connection ends both handlers. */
  predicate Settled(s: Pair) {
    && !Enabled(s, Handshake(false, UP)) && (UP in s.high.done ==> !Enabled(s, Handshake(true, UP)))
    && !Enabled(s, Handshake(true, DOWN)) && (DOWN in s.low.done ==> !Enabled(s, Handshake(false, DOWN)))
    && !Enabled(s, Closed(true, DOWN)) && !Enabled(s, Closed(false, DOWN))
  }

  /** Once all events are handled both tables hold exactly that one connection for the other node,
      and what they held for others; the other connection is closed. */
  lemma Converges(u: Setup, es: seq<Event>)
    requires u.Valid() && Possible(u, es) && Settled(Reach(u, es))
    ensures var s := Reach(u, es);
      && s.low.peers == u.lowOthers[u.high := Link(u.high, UP, false)]
      && s.high.peers == u.highOthers[u.low := Link(u.low, UP, true)]
      && s.closed == {DOWN}
  {
    ReachableInv(u, es);
    ClosedKnown(u, es);
  }

  lemma {:induction false} ClosedKnown(u: Setup, es: seq<Event>)
    requires u.Valid() && Possible(u, es)
    ensures Reach(u, es).closed <= {DOWN}
  {
    if es != [] {
      ReachableInv(u, es[..|es| - 1]);
      ClosedKnown(u, es[..|es| - 1]);
      var s, e := Reach(u, es[..|es| - 1]), es[|es| - 1];
      var d := SideOf(s, e.atLow);
      assert UP !in Reach(u, es).closed by {
        ReachableInv(u, es);
      }
    }
  }

  function Left(d: Side): nat {
    (if UP in d.done then 0 else 2) + (if DOWN in d.done then 0 else 2) + (if DOWN in d.gone then 0 else 1)
  }

  /** Every event brings the nodes closer to being settled. */
  lemma EventsRunOut(u: Setup, es: seq<Event>, e: Event)
    requires u.Valid() && Possible(u, es) && Enabled(Reach(u, es), e)
    ensures var s, s' := Reach(u, es), Step(u, Reach(u, es), e);
      Left(s'.low) + Left(s'.high) < Left(s.low) + Left(s.high)
  {
    ReachableInv(u, es);
  }
}
