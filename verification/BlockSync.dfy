/** Blocks arriving from peers in any order: the block handler of app/app.go. */
module BlockSync {
  import opened Basics
  import opened Types
  import opened ValidatorSets
  import opened Validation
  import opened Replay
  import opened Pool
  import opened Blockchain

  /** The chain, the blocks that wait for a predecessor, and the height that consensus was last
      told to go to. */
  datatype Sync = Sync(chain: Chain, pending: map<int, Block>, next: Option<u64>)

  /** Validates a block at a given time and adds it. */
  type Acceptor = (int, Chain, Block) -> Option<Chain>

  /** The clock as it is read while the block of a given height is validated. */
  type Clock = int -> int

  /** Validates with the certificate. */
  function Accept(cfg: Config, vs: Option<Validators>, now: int, c: Chain, blk: Block): Option<Chain> {
    if BlockOk(cfg, c.store, blk, Context(now, vs, true)) then AddBlock(c, blk) else None
  }

  /** Validates without the certificate. */
  type Checker = (int, Chain, Block) -> bool

  function Checking(cfg: Config, vs: Option<Validators>): Checker {
    (now: int, c: Chain, blk: Block) => BlockOk(cfg, c.store, blk, Context(now, vs, false))
  }

  /** Adds without validating. */
  type Adder = (Chain, Block) -> Option<Chain>

  function Adding(): Adder { (c: Chain, blk: Block) => AddBlock(c, blk) }

  function Accepting(cfg: Config, vs: Option<Validators>): Acceptor { (now, c, blk) => Accept(cfg, vs, now, c, blk) }

  /** One turn of the drain loop: the state after it, and the height to go on from if the next
      pending block was there and accepted. */
  datatype Turn = Turn(sync: Sync, on: Option<u64>)

  function DrainOnce(accept: Acceptor, clock: Clock, s: Sync, height: u64): Turn {
    var next := Wrap(height + 1);
    if next !in s.pending then Turn(s, None) else
    var blk := s.pending[next];
    var rest := s.(pending := s.pending - {next});
    match accept(clock(next), s.chain, blk)
    case None => Turn(rest, None)
    case Some(c) => Turn(Sync(c, rest.pending, Some(Wrap(blk.header.height + 1))), Some(blk.header.height))
  }

  /** Every turn that goes on removes an entry. */
  lemma DrainShrinks(accept: Acceptor, clock: Clock, s: Sync, height: u64)
    ensures var t := DrainOnce(accept, clock, s, height); t.on.Some? ==> |t.sync.pending| < |s.pending|
  {
    var next := Wrap(height + 1);
    assert (s.pending - {next}).Keys == s.pending.Keys - {next};
  }

  /** Adds pending blocks as long as the next one is there. */
  function Drain(accept: Acceptor, clock: Clock, s: Sync, height: u64): Sync
    decreases |s.pending|
  {
    DrainShrinks(accept, clock, s, height);
    var t := DrainOnce(accept, clock, s, height);
    if t.on.None? then t.sync else Drain(accept, clock, t.sync, t.on.value)
  }

  function Handle(accept: Acceptor, clock: Clock, s: Sync, blk: Block): Sync {
    var h, tip := blk.header.height, s.chain.tipHeight;
    if tip == 0 && h == 0 then
      Import(accept, clock(h), s, blk)
    else if h <= tip then s
    else if h > Wrap(tip + 1) then s.(pending := s.pending[h := blk])
    else Grow(accept, clock, s, blk)
  }

  /** A genesis block for an empty chain. */
  function Import(accept: Acceptor, now: int, s: Sync, blk: Block): Sync {
    match accept(now, s.chain, blk) case None => s case Some(c) => s.(chain := c)
  }

  /** The next block, then the pending ones that follow it. */
  function Grow(accept: Acceptor, clock: Clock, s: Sync, blk: Block): Sync {
    var h := blk.header.height;
    match accept(clock(h), s.chain, blk)
    case None => s
    case Some(c) => Drain(accept, clock, Sync(c, s.pending, Some(Wrap(h + 1))), h)
  }

  class BlockHandler {
    const chain: BlockChain
    const validators: Option<Validators>
    const accept: Acceptor
    const valid: Checker
    const add: Adder
    var pending: map<int, Block>
    var next: Option<u64>

    function Value(): Sync reads this, chain { Sync(chain.Value(), pending, next) }

    /** What `accept`, `valid` and `add` stand for, folded away. */
    ghost predicate Fits() {
      forall k {:trigger Unfolding(k)} :: Unfolding(k) ==>
        accept == Accepting(chain.cfg, validators) && valid == Checking(chain.cfg, validators) && add == Adding()
    }

    constructor (chain: BlockChain, validators: Option<Validators>)
      ensures this.chain == chain && this.validators == validators && Fits()
      ensures Value() == Sync(chain.Value(), map[], None)
    {
      this.chain, this.validators := chain, validators;
      accept, valid, add := Accepting(chain.cfg, validators), Checking(chain.cfg, validators), Adding();
      pending, next := map[], None;
    }

    method Check(blk: Block, now: int) returns (ok: bool)
      requires Fits()
      ensures ok == valid(now, chain.Value(), blk)
    {
      assert Unfolding(0);
      ok := chain.ValidateBlock(blk, Context(now, validators, false));
    }

    method AddUnchecked(blk: Block) returns (ok: bool)
      requires Fits()
      modifies chain, chain.mempool
      ensures ok == add(old(chain.Value()), blk).Some?
      ensures ok ==> add(old(chain.Value()), blk) == Some(chain.Value())
      ensures !ok ==> Value() == old(Value())
      ensures old(Keyed(chain.mempool.transactions)) ==> Keyed(chain.mempool.transactions)
    {
      assert Unfolding(0);
      ok := chain.AddBlock(blk);
    }

    method TryAdd(blk: Block, now: int) returns (ok: bool)
      requires Fits()
      modifies chain, chain.mempool
      ensures ok == accept(now, old(chain.Value()), blk).Some?
      ensures ok ==> accept(now, old(chain.Value()), blk) == Some(chain.Value())
      ensures !ok ==> Value() == old(Value())
      ensures old(Keyed(chain.mempool.transactions)) ==> Keyed(chain.mempool.transactions)
    {
      assert Unfolding(0);
      ok := chain.ValidateBlock(blk, Context(now, validators, true));
      if !ok {
        return;
      }
      ok := chain.AddBlock(blk);
    }

    method DrainTurn(height: u64, clock: Clock) returns (on: Option<u64>)
      requires Fits()
      modifies this`pending, this`next, chain, chain.mempool
      ensures Turn(Value(), on) == DrainOnce(accept, clock, old(Value()), height)
      ensures old(Keyed(chain.mempool.transactions)) ==> Keyed(chain.mempool.transactions)
    {
      var nextHeight := Wrap(height + 1);
      if nextHeight !in pending {
        return None;
      }
      var blk := pending[nextHeight];
      pending := pending - {nextHeight};
      var ok := TryAdd(blk, clock(nextHeight));
      if !ok {
        return None;
      }
      next := Some(Wrap(blk.header.height + 1));
      on := Some(blk.header.height);
    }

    method DrainPending(height: u64, clock: Clock)
      requires Fits()
      modifies this`pending, this`next, chain, chain.mempool
      ensures Value() == Drain(accept, clock, old(Value()), height)
      ensures old(Keyed(chain.mempool.transactions)) ==> Keyed(chain.mempool.transactions)
    {
      var h := height;
      while true
        invariant Drain(accept, clock, Value(), h) == Drain(accept, clock, old(Value()), height)
        invariant old(Keyed(chain.mempool.transactions)) ==> Keyed(chain.mempool.transactions)
        decreases |pending|
      {
        DrainShrinks(accept, clock, Value(), h);
        var on := DrainTurn(h, clock);
        if on.None? {
          return;
        }
        h := on.value;
      }
    }

    method HandleBlock(blk: Block, clock: Clock)
      requires Fits()
      modifies this`pending, this`next, chain, chain.mempool
      ensures Value() == Handle(accept, clock, old(Value()), blk)
      ensures old(Keyed(chain.mempool.transactions)) ==> Keyed(chain.mempool.transactions)
    {
      var h, tip := blk.header.height, chain.latestHeight;
      if tip == 0 && h == 0 {
        ImportGenesis(blk, clock(h));
        return;
      }
      if h <= tip {
        return;
      }
      if h > Wrap(tip + 1) {
        pending := pending[h := blk];
        return;
      }
      GrowChain(blk, clock);
    }

    method ImportGenesis(blk: Block, now: int)
      requires Fits()
      modifies chain, chain.mempool
      ensures Value() == Import(accept, now, old(Value()), blk)
      ensures old(Keyed(chain.mempool.transactions)) ==> Keyed(chain.mempool.transactions)
    {
      var ok := TryAdd(blk, now);
    }

    method GrowChain(blk: Block, clock: Clock)
      requires Fits()
      modifies this`pending, this`next, chain, chain.mempool
      ensures Value() == Grow(accept, clock, old(Value()), blk)
      ensures old(Keyed(chain.mempool.transactions)) ==> Keyed(chain.mempool.transactions)
    {
      var ok := TryAdd(blk, clock(blk.header.height));
      if !ok {
        return;
      }
      next := Some(Wrap(blk.header.height + 1));
      ghost var grown := Sync(chain.Value(), old(pending), next);
      assert Value() == grown;
      DrainPending(blk.header.height, clock);
    }
  }

  // ------------------------------------------------------------------ one valid extension

  /** Blocks that extend `chains[0]`, with the chain after each, and a time at which they are valid. */
  datatype Extension = Extension(blocks: seq<Block>, chains: seq<Chain>, now: int)
  {
    ghost predicate Shaped() { |chains| == |blocks| + 1 }

    function Start(): int
      requires chains != []
    {
      chains[0].tipHeight
    }
  }

  /** In-order delivery: each block is accepted on the chain before it. */
  ghost predicate Extends(accept: Acceptor, x: Extension) {
    x.Shaped() && forall i :: 0 <= i < |x.blocks| ==> ExtendsAt(accept, x, i)
  }

  ghost predicate ExtendsAt(accept: Acceptor, x: Extension, i: nat)
    requires i < |x.blocks| && x.Shaped()
  {
    && x.blocks[i].header.height == x.Start() + 1 + i
    && accept(x.now, x.chains[i], x.blocks[i]) == Some(x.chains[i + 1])
  }

  /** What the ordering argument needs of validation: later clocks accept no less, and a block
      above the tip becomes the tip. */
  ghost predicate Regular(accept: Acceptor) {
    forall now, c, blk :: accept(now, c, blk).Some? ==> RegularAt(accept, now, c, blk)
  }

  ghost predicate RegularAt(accept: Acceptor, now: int, c: Chain, blk: Block) {
    && (accept(now, c, blk).Some? && blk.header.height > c.tipHeight ==>
          accept(now, c, blk).value.tipHeight == blk.header.height)
    && (forall later :: later >= now && accept(now, c, blk).Some? ==> accept(later, c, blk) == accept(now, c, blk))
  }

  lemma AcceptIsRegular(cfg: Config, vs: Option<Validators>)
    ensures Regular(Accepting(cfg, vs))
  {
    forall now, c, blk ensures RegularAt(Accepting(cfg, vs), now, c, blk) {
      forall later | later >= now && Accept(cfg, vs, now, c, blk).Some?
        ensures Accept(cfg, vs, later, c, blk) == Accept(cfg, vs, now, c, blk)
      {
      }
    }
  }

  lemma {:induction false} TipOf(accept: Acceptor, x: Extension, n: nat)
    requires Regular(accept) && Extends(accept, x) && n <= |x.blocks|
    ensures x.chains[n].tipHeight == x.Start() + n
  {
    if n > 0 {
      TipOf(accept, x, n - 1);
      assert ExtendsAt(accept, x, n - 1);
    }
  }

  ghost predicate Late(clock: Clock, now: int) { forall h :: now <= clock(h) }

  lemma AcceptsAt(accept: Acceptor, x: Extension, clock: Clock, n: nat)
    requires Regular(accept) && Extends(accept, x) && n < |x.blocks| && Late(clock, x.now)
    ensures x.blocks[n].header.height == x.Start() + 1 + n
    ensures accept(clock(x.Start() + 1 + n), x.chains[n], x.blocks[n]) == Some(x.chains[n + 1])
  {
    assert ExtendsAt(accept, x, n);
    assert RegularAt(accept, x.now, x.chains[n], x.blocks[n]);
  }

  /** Of the blocks in `d`, exactly those from position `from` on are pending. */
  ghost predicate Waits(x: Extension, pending: map<int, Block>, d: set<int>, from: int)
    requires x.Shaped()
  {
    forall h :: WaitsAt(x, pending, d, from, h)
  }

  ghost predicate WaitsAt(x: Extension, pending: map<int, Block>, d: set<int>, from: int, h: int)
    requires x.Shaped()
  {
    var j := h - x.Start() - 1;
    (h in pending <==> j in d && j >= from) && (h in pending && 0 <= j < |x.blocks| ==> pending[h] == x.blocks[j])
  }

  /** After delivery of the blocks in `d`: the first `n` are in the chain, the next one has not
      come, and the later ones in `d` wait. */
  ghost predicate InSync(x: Extension, s: Sync, d: set<int>, n: nat)
    requires x.Shaped()
  {
    && n <= |x.blocks| && s.chain == x.chains[n] && First(d, n)
    && (forall j :: j in d ==> 0 <= j < |x.blocks|)
    && Waits(x, s.pending, d, n)
  }

  /** `n` is the first number missing from `d`. */
  ghost predicate First(d: set<int>, n: nat) { (forall j :: 0 <= j < n ==> j in d) && n !in d }

  lemma {:induction false} DrainSyncs(accept: Acceptor, x: Extension, clock: Clock, s: Sync, d: set<int>, n: nat)
    returns (n': nat)
    requires Regular(accept) && Extends(accept, x) && Late(clock, x.now) && n <= |x.blocks| && x.Start() + n < TWO64
    requires s.chain == x.chains[n] && Waits(x, s.pending, d, n)
    requires (forall j :: j in d ==> 0 <= j < |x.blocks|) && (forall j :: 0 <= j < n ==> j in d)
    ensures InSync(x, Drain(accept, clock, s, x.Start() + n), d, n')
    decreases |x.blocks| - n
  {
    if n in d {
      AcceptsAt(accept, x, clock, n);
      var next := x.Start() + n + 1;
      assert WaitsAt(x, s.pending, d, n, next);
      var s' := Sync(x.chains[n + 1], s.pending - {next}, Some(Wrap(next + 1)));
      TakeWaits(x, s.pending, d, n);
      n' := DrainSyncs(accept, x, clock, s', d, n + 1);
    } else {
      n' := n;
      NotPending(x, s.pending, d, n);
    }
  }

  lemma TakeWaits(x: Extension, pending: map<int, Block>, d: set<int>, n: nat)
    requires x.Shaped() && Waits(x, pending, d, n)
    ensures Waits(x, pending - {x.Start() + n + 1}, d, n + 1)
  {
    var rest, from := pending - {x.Start() + n + 1}, n + 1;
    forall h ensures WaitsAt(x, rest, d, from, h) {
      assert WaitsAt(x, pending, d, n, h);
    }
  }

  lemma NotPending(x: Extension, pending: map<int, Block>, d: set<int>, n: nat)
    requires x.Shaped() && n !in d && Waits(x, pending, d, n)
    requires forall j :: j in d ==> 0 <= j < |x.blocks|
    ensures Wrap(x.Start() + n + 1) !in pending
  {
    assert WaitsAt(x, pending, d, n, Wrap(x.Start() + n + 1));
  }

  lemma StoreWaits(x: Extension, pending: map<int, Block>, d: set<int>, n: nat, j: nat)
    requires x.Shaped() && n < j < |x.blocks| && Waits(x, pending, d, n)
    ensures Waits(x, pending[x.Start() + 1 + j := x.blocks[j]], d + {j}, n)
  {
    var more, d' := pending[x.Start() + 1 + j := x.blocks[j]], d + {j};
    forall h ensures WaitsAt(x, more, d', n, h) {
      assert WaitsAt(x, pending, d, n, h);
    }
  }

  lemma FillWaits(x: Extension, pending: map<int, Block>, d: set<int>, n: nat)
    requires x.Shaped() && Waits(x, pending, d, n) && n !in d
    ensures Waits(x, pending, d + {n}, n + 1)
  {
    var d', from := d + {n}, n + 1;
    forall h ensures WaitsAt(x, pending, d', from, h) {
      assert WaitsAt(x, pending, d, n, h);
    }
  }

  /** The missing block arrives. */
  lemma NextArrives(accept: Acceptor, x: Extension, clock: Clock, s: Sync, d: set<int>, n: nat) returns (n': nat)
    requires Regular(accept) && Extends(accept, x) && Late(clock, x.now) && InSync(x, s, d, n) && n < |x.blocks|
    ensures InSync(x, Handle(accept, clock, s, x.blocks[n]), d + {n}, n')
  {
    TipOf(accept, x, n);
    AcceptsAt(accept, x, clock, n);
    var s' := Sync(x.chains[n + 1], s.pending, Some(Wrap(x.Start() + n + 2)));
    FillWaits(x, s.pending, d, n);
    n' := DrainSyncs(accept, x, clock, s', d + {n}, n + 1);
  }

  /** A later block arrives. */
  lemma LaterArrives(accept: Acceptor, x: Extension, clock: Clock, s: Sync, d: set<int>, n: nat, j: nat)
    requires Regular(accept) && Extends(accept, x) && InSync(x, s, d, n) && n < j < |x.blocks|
    ensures InSync(x, Handle(accept, clock, s, x.blocks[j]), d + {j}, n)
  {
    TipOf(accept, x, n);
    assert ExtendsAt(accept, x, j) && ExtendsAt(accept, x, n);
    StoreWaits(x, s.pending, d, n, j);
  }

  /** A block of the chain arrives again. */
  lemma RepeatArrives(accept: Acceptor, x: Extension, clock: Clock, s: Sync, d: set<int>, n: nat, j: nat)
    requires Regular(accept) && Extends(accept, x) && InSync(x, s, d, n) && j < n
    ensures Handle(accept, clock, s, x.blocks[j]) == s && d + {j as int} == d
  {
    TipOf(accept, x, n);
    assert ExtendsAt(accept, x, j);
  }

  /** One delivery. */
  lemma HandleSyncs(accept: Acceptor, x: Extension, clock: Clock, s: Sync, d: set<int>, n: nat, j: nat)
    returns (n': nat)
    requires Regular(accept) && Extends(accept, x) && Late(clock, x.now) && InSync(x, s, d, n) && j < |x.blocks|
    ensures InSync(x, Handle(accept, clock, s, x.blocks[j]), d + {j}, n')
  {
    n' := n;
    if j == n {
      n' := NextArrives(accept, x, clock, s, d, n);
    } else if j > n {
      LaterArrives(accept, x, clock, s, d, n, j);
    } else {
      RepeatArrives(accept, x, clock, s, d, n, j);
    }
  }

  // ------------------------------------------------------------------ any order, any repeats

  datatype Delivery = Delivery(index: nat, clock: Clock)

  ghost predicate Deliveries(x: Extension, ds: seq<Delivery>) {
    x.Shaped() && forall i :: 0 <= i < |ds| ==> ds[i].index < |x.blocks| && Late(ds[i].clock, x.now)
  }

  ghost function DeliverAll(accept: Acceptor, x: Extension, ds: seq<Delivery>): Sync
    requires Deliveries(x, ds)
  {
    if ds == [] then Sync(x.chains[0], map[], None) else
    var last := ds[|ds| - 1];
    Handle(accept, last.clock, DeliverAll(accept, x, ds[..|ds| - 1]), x.blocks[last.index])
  }

  function Delivered(ds: seq<Delivery>): set<int> {
    if ds == [] then {} else Delivered(ds[..|ds| - 1]) + {ds[|ds| - 1].index as int}
  }

  /** After any deliveries the chain holds exactly the blocks before the first one missing. */
  lemma {:induction false} DeliveriesSync(accept: Acceptor, x: Extension, ds: seq<Delivery>) returns (n: nat)
    requires Regular(accept) && Extends(accept, x) && Deliveries(x, ds)
    ensures InSync(x, DeliverAll(accept, x, ds), Delivered(ds), n)
  {
    if ds == [] {
      n := 0;
    } else {
      var init, last := ds[..|ds| - 1], ds[|ds| - 1];
      n := DeliveriesSync(accept, x, init);
      n := HandleSyncs(accept, x, last.clock, DeliverAll(accept, x, init), Delivered(init), n, last.index);
    }
  }

  lemma SamePending(x: Extension, p: map<int, Block>, q: map<int, Block>, d: set<int>, n: int)
    requires x.Shaped() && Waits(x, p, d, n) && Waits(x, q, d, n) && forall j :: j in d ==> 0 <= j < |x.blocks|
    ensures p == q
  {
    forall h ensures (h in p <==> h in q) && (h in p ==> p[h] == q[h]) {
      assert WaitsAt(x, p, d, n, h) && WaitsAt(x, q, d, n, h);
    }
  }

  /** Deliveries of the same blocks lead to the same chain and the same waiting blocks. */
  lemma SameBlocksSameState(cfg: Config, vs: Option<Validators>, x: Extension, ds: seq<Delivery>, es: seq<Delivery>)
    requires Extends(Accepting(cfg, vs), x) && Deliveries(x, ds) && Deliveries(x, es) && Delivered(ds) == Delivered(es)
    ensures var s, t := DeliverAll(Accepting(cfg, vs), x, ds), DeliverAll(Accepting(cfg, vs), x, es);
      s.chain == t.chain && s.pending == t.pending
  {
    AcceptIsRegular(cfg, vs);
    SameState(Accepting(cfg, vs), x, ds, es);
  }

  lemma SameState(accept: Acceptor, x: Extension, ds: seq<Delivery>, es: seq<Delivery>)
    requires Regular(accept) && Extends(accept, x)
    requires Deliveries(x, ds) && Deliveries(x, es) && Delivered(ds) == Delivered(es)
    ensures var s, t := DeliverAll(accept, x, ds), DeliverAll(accept, x, es);
      s.chain == t.chain && s.pending == t.pending
  {
    var n := DeliveriesSync(accept, x, ds);
    var m := DeliveriesSync(accept, x, es);
    SameFirst(Delivered(ds), n, m);
    SamePending(x, DeliverAll(accept, x, ds).pending, DeliverAll(accept, x, es).pending, Delivered(ds), n);
  }

  lemma SameFirst(d: set<int>, n: nat, m: nat)
    requires First(d, n) && First(d, m)
    ensures n == m
  {
  }

  /** Once every block has come, in whatever order and however often, the chain is the one that
      in-order delivery gives and nothing is pending. */
  lemma OrderIrrelevant(cfg: Config, vs: Option<Validators>, x: Extension, ds: seq<Delivery>)
    requires Extends(Accepting(cfg, vs), x) && Deliveries(x, ds)
    requires forall j :: 0 <= j < |x.blocks| ==> j in Delivered(ds)
    ensures var s := DeliverAll(Accepting(cfg, vs), x, ds); s.chain == x.chains[|x.blocks|] && s.pending == map[]
  {
    AcceptIsRegular(cfg, vs);
    AllArrived(Accepting(cfg, vs), x, ds);
  }

  lemma AllArrived(accept: Acceptor, x: Extension, ds: seq<Delivery>)
    requires Regular(accept) && Extends(accept, x) && Deliveries(x, ds)
    requires forall j :: 0 <= j < |x.blocks| ==> j in Delivered(ds)
    ensures var s := DeliverAll(accept, x, ds); s.chain == x.chains[|x.blocks|] && s.pending == map[]
  {
    var n := DeliveriesSync(accept, x, ds);
    var pending := DeliverAll(accept, x, ds).pending;
    assert n == |x.blocks|;
    forall h ensures h !in pending {
      assert WaitsAt(x, pending, Delivered(ds), n, h);
    }
  }
}
