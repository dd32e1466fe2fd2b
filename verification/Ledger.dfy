/** The UTXO store and how a block changes it: core/utxo.go. */
module Ledger {
  import opened Basics
  import opened Types

  datatype Utxo = Utxo(txId: Hash, index: nat, txOut: TxOutput, height: u64, spent: bool, spentHeight: u64)
  {
    function Point(): OutPoint { OutPoint(txId, index) }
  }

  /** The key families of the database that the ledger reads back: UTXO records, the per-address
      key lists, blocks by hash and hashes by height. */
  datatype Store = Store(
    utxos: map<OutPoint, Utxo>, lists: map<Address, set<OutPoint>>, blocks: map<Hash, Block>, heights: map<int, Hash>)

  const EMPTY: Store := Store(map[], map[], map[], map[])

  // ------------------------------------------------------------------ batches

  datatype Put =
    | PutUtxo(point: OutPoint, utxo: Utxo)
    | PutList(address: Address, points: set<OutPoint>)
    | PutBlock(block: Block)
    | PutHeight(height: u64, hash: Hash)

  function WriteOne(st: Store, p: Put): Store {
    match p
    case PutUtxo(k, u) => st.(utxos := st.utxos[k := u])
    case PutList(a, ps) => st.(lists := st.lists[a := ps])
    case PutBlock(b) => st.(blocks := st.blocks[b.header.hash := b])
    case PutHeight(h, x) => st.(heights := st.heights[h := x])
  }

  /** The puts collected so far, oldest first. */
  datatype Batch = NoPuts | Then(batch: Batch, put: Put)

  /** Executing a batch: puts in order, the last write of a key wins. */
  function Write(st: Store, batch: Batch): Store {
    match batch
    case NoPuts => st
    case Then(b, p) => WriteOne(Write(st, b), p)
  }

  // ------------------------------------------------------------------ what transactions spend and place

  /** An output at the key under which it is stored. */
  datatype Placed = Placed(point: OutPoint, out: TxOutput)

  function PlacedBy(tx: Transaction): seq<Placed> {
    seq(|tx.outputs|, i requires 0 <= i < |tx.outputs| => Placed(OutPoint(tx.id, i), tx.outputs[i]))
  }

  function Places(txs: seq<Transaction>): seq<Placed> {
    if txs == [] then [] else Places(txs[..|txs| - 1]) + PlacedBy(txs[|txs| - 1])
  }

  function Spends(txs: seq<Transaction>): seq<OutPoint> {
    if txs == [] then [] else Spends(txs[..|txs| - 1]) + txs[|txs| - 1].Points()
  }

  /** The placed outputs by key. */
  function OutMap(ps: seq<Placed>): map<OutPoint, TxOutput> {
    if ps == [] then map[] else OutMap(ps[..|ps| - 1])[ps[|ps| - 1].point := ps[|ps| - 1].out]
  }

  function Payees(ps: seq<Placed>): set<Address> { set p | p in ps :: p.out.address }

  function PaidTo(ps: seq<Placed>, a: Address): set<OutPoint> { set p | p in ps && p.out.address == a :: p.point }

  function Points(ps: seq<Placed>): seq<OutPoint> { seq(|ps|, i requires 0 <= i < |ps| => ps[i].point) }

  // ------------------------------------------------------------------ one block's update

  predicate Spendable(st: Store, p: OutPoint) {
    p in st.utxos && !st.utxos[p].spent && st.utxos[p].txOut.address in st.lists
  }

  function MarkSpent(utxos: map<OutPoint, Utxo>, height: u64, spent: seq<OutPoint>): map<OutPoint, Utxo> {
    map p | p in utxos :: if p in spent then utxos[p].(spent := true, spentHeight := height) else utxos[p]
  }

  function Unspent(p: OutPoint, out: TxOutput, height: u64): Utxo { Utxo(p.txId, p.index, out, height, false, 0) }

  function NewUtxos(ps: seq<Placed>, height: u64): map<OutPoint, Utxo> {
    map p | p in OutMap(ps) :: Unspent(p, OutMap(ps)[p], height)
  }

  /** The key lists after the inputs: each put starts again from the list as stored before the
      block, so of several inputs of one address only the last key is gone. */
  function DropSpent(st: Store, spent: seq<OutPoint>): map<Address, set<OutPoint>>
    requires forall i :: 0 <= i < |spent| ==> Spendable(st, spent[i])
  {
    if spent == [] then st.lists else
    var p := spent[|spent| - 1];
    assert Spendable(st, p);
    var a := st.utxos[p].txOut.address;
    DropSpent(st, spent[..|spent| - 1])[a := st.lists[a] - {p}]
  }

  function ListOf(st: Store, a: Address): set<OutPoint> { if a in st.lists then st.lists[a] else {} }

  /** The lists written for the payees, again from the stored lists: removed keys come back. */
  function ListPaid(st: Store, ps: seq<Placed>): map<Address, set<OutPoint>> {
    map a | a in Payees(ps) :: ListOf(st, a) + PaidTo(ps, a)
  }

  /** The genesis block only places outputs. */
  function SpentIn(height: u64, txs: seq<Transaction>): seq<OutPoint> { if height > 0 then Spends(txs) else [] }

  predicate Applicable(st: Store, height: u64, txs: seq<Transaction>) {
    forall i :: 0 <= i < |SpentIn(height, txs)| ==> Spendable(st, SpentIn(height, txs)[i])
  }

  function Applied(st: Store, height: u64, txs: seq<Transaction>): Store
    requires Applicable(st, height, txs)
  {
    st.(utxos := MarkSpent(st.utxos, height, SpentIn(height, txs)) + NewUtxos(Places(txs), height),
        lists := DropSpent(st, SpentIn(height, txs)) + ListPaid(st, Places(txs)))
  }

  // ------------------------------------------------------------------ replay, the reference

  /** The outputs that a list of transactions places and does not spend. */
  function Live(txs: seq<Transaction>): map<OutPoint, TxOutput> { OutMap(Places(txs)) - Elems(Spends(txs)) }

  function LiveTo(txs: seq<Transaction>, a: Address): map<OutPoint, TxOutput> {
    map p | p in Live(txs) && Live(txs)[p].address == a :: Live(txs)[p]
  }

  function AmountsOf(m: map<OutPoint, TxOutput>): (r: map<OutPoint, int>)
    ensures forall p :: p in r ==> r[p] >= 0
  {
    map p | p in m :: m[p].amount
  }

  /** The records are the outputs made so far, and those gone are marked spent. */
  ghost predicate RecordsAre(utxos: map<OutPoint, Utxo>, made: map<OutPoint, TxOutput>, gone: set<OutPoint>) {
    && utxos.Keys == made.Keys && gone <= made.Keys
    && (forall p :: p in utxos ==>
          utxos[p].Point() == p && utxos[p].txOut == made[p] && (utxos[p].spent <==> p in gone))
  }

  /** The lists hold every unspent key of their address, and only keys of their address. They may
      also hold spent keys. */
  ghost predicate ListsCover(utxos: map<OutPoint, Utxo>, lists: map<Address, set<OutPoint>>) {
    && (forall p :: p in utxos ==> Listed(utxos[p], lists, p))
    && (forall a, p :: a in lists && p in lists[a] ==> Owned(utxos, a, p))
  }

  predicate Listed(u: Utxo, lists: map<Address, set<OutPoint>>, p: OutPoint) {
    u.txOut.address in lists && (!u.spent ==> p in lists[u.txOut.address])
  }

  predicate Owned(utxos: map<OutPoint, Utxo>, a: Address, p: OutPoint) { p in utxos && utxos[p].txOut.address == a }

  ghost predicate Agrees(st: Store, txs: seq<Transaction>) {
    && RecordsAre(st.utxos, OutMap(Places(txs)), Elems(Spends(txs)))
    && ListsCover(st.utxos, st.lists) && st.lists.Keys == Payees(Places(txs))
  }

  lemma {:induction false} PlacesConcat(s: seq<Transaction>, t: seq<Transaction>)
    ensures Places(s + t) == Places(s) + Places(t)
  {
    if t == [] {
      assert s + t == s;
    } else {
      var init, last := t[..|t| - 1], t[|t| - 1];
      PlacesConcat(s, init);
      assert (s + t)[..|s + t| - 1] == s + init && (s + t)[|s + t| - 1] == last;
      assert Places(s) + Places(init) + PlacedBy(last) == Places(s) + (Places(init) + PlacedBy(last));
    }
  }

  lemma {:induction false} SpendsConcat(s: seq<Transaction>, t: seq<Transaction>)
    ensures Spends(s + t) == Spends(s) + Spends(t)
  {
    if t == [] {
      assert s + t == s;
    } else {
      var init, last := t[..|t| - 1], t[|t| - 1];
      SpendsConcat(s, init);
      assert (s + t)[..|s + t| - 1] == s + init && (s + t)[|s + t| - 1] == last;
      assert Spends(s) + Spends(init) + last.Points() == Spends(s) + (Spends(init) + last.Points());
    }
  }

  lemma {:induction false} OutMapConcat(ps: seq<Placed>, qs: seq<Placed>)
    ensures OutMap(ps + qs) == OutMap(ps) + OutMap(qs)
  {
    if qs == [] {
      assert ps + qs == ps;
    } else {
      OutMapConcat(ps, qs[..|qs| - 1]);
      assert (ps + qs)[..|ps + qs| - 1] == ps + qs[..|qs| - 1];
    }
  }

  lemma {:induction false} OutMapKeys(ps: seq<Placed>, p: OutPoint)
    ensures p in OutMap(ps) <==> exists i :: 0 <= i < |ps| && ps[i].point == p
    ensures p in OutMap(ps) ==> exists i :: 0 <= i < |ps| && ps[i].point == p && OutMap(ps)[p] == ps[i].out
  {
    if ps != [] {
      var init := ps[..|ps| - 1];
      OutMapKeys(init, p);
      assert forall i :: 0 <= i < |init| ==> init[i] == ps[i];
    }
  }

  lemma {:induction false} OutMapAt(ps: seq<Placed>, i: nat)
    requires i < |ps| && NoDup(Points(ps))
    ensures ps[i].point in OutMap(ps) && OutMap(ps)[ps[i].point] == ps[i].out
  {
    var init := ps[..|ps| - 1];
    assert Points(ps) == Points(init) + [ps[|ps| - 1].point];
    NoDupSnoc(Points(init), ps[|ps| - 1].point);
    if i < |ps| - 1 {
      OutMapAt(init, i);
      assert Points(init)[i] == ps[i].point;
    }
  }

  lemma PayeesConcat(ps: seq<Placed>, qs: seq<Placed>)
    ensures Payees(ps + qs) == Payees(ps) + Payees(qs)
  {
    assert forall p :: p in ps + qs <==> p in ps || p in qs;
  }

  lemma {:induction false} DropSpentKeys(st: Store, spent: seq<OutPoint>)
    requires forall i :: 0 <= i < |spent| ==> Spendable(st, spent[i])
    ensures DropSpent(st, spent).Keys == st.lists.Keys
    ensures forall a :: a in st.lists ==>
      DropSpent(st, spent)[a] <= st.lists[a] <= DropSpent(st, spent)[a] + Elems(spent)
  {
    if spent != [] {
      var init := spent[..|spent| - 1];
      DropSpentKeys(st, init);
      assert spent == init + [spent[|spent| - 1]];
      ElemsConcat(init, [spent[|spent| - 1]]);
    }
  }

  /** Records follow the replay through one more block. */
  lemma RecordsStep(utxos: map<OutPoint, Utxo>, made: map<OutPoint, TxOutput>, gone: set<OutPoint>,
                    height: u64, spent: seq<OutPoint>, ps: seq<Placed>)
    requires RecordsAre(utxos, made, gone) && Elems(spent) <= utxos.Keys && OutMap(ps).Keys !! utxos.Keys
    ensures RecordsAre(MarkSpent(utxos, height, spent) + NewUtxos(ps, height), made + OutMap(ps), gone + Elems(spent))
  {
    var marked, new' := MarkSpent(utxos, height, spent), NewUtxos(ps, height);
    assert marked.Keys == utxos.Keys && new'.Keys == OutMap(ps).Keys;
    assert forall p :: p in spent <==> p in Elems(spent);
  }

  /** The new lists, at one address. */
  lemma ListsAt(st: Store, spent: seq<OutPoint>, ps: seq<Placed>, a: Address)
    requires forall i :: 0 <= i < |spent| ==> Spendable(st, spent[i])
    ensures var lists := DropSpent(st, spent) + ListPaid(st, ps);
      && (a in lists <==> a in st.lists || a in Payees(ps))
      && (a in lists ==> lists[a] <= ListOf(st, a) + PaidTo(ps, a))
      && (a in lists ==> ListOf(st, a) <= lists[a] + Elems(spent))
      && (a in Payees(ps) ==> PaidTo(ps, a) <= lists[a])
  {
    DropSpentKeys(st, spent);
  }

  lemma PaidInOutMap(ps: seq<Placed>, a: Address, p: OutPoint)
    requires NoDup(Points(ps)) && p in PaidTo(ps, a)
    ensures p in OutMap(ps) && OutMap(ps)[p].address == a && a in Payees(ps)
  {
    var q :| q in ps && q.out.address == a && q.point == p;
    var i :| 0 <= i < |ps| && ps[i] == q;
    OutMapAt(ps, i);
  }

  lemma OutMapIsPaid(ps: seq<Placed>, p: OutPoint)
    requires p in OutMap(ps)
    ensures OutMap(ps)[p].address in Payees(ps) && p in PaidTo(ps, OutMap(ps)[p].address)
  {
    OutMapKeys(ps, p);
    var i :| 0 <= i < |ps| && ps[i].point == p && OutMap(ps)[p] == ps[i].out;
    assert ps[i] in ps;
  }

  /** After the block every unspent key is in the list of its address. */
  lemma ListedAt(st: Store, height: u64, spent: seq<OutPoint>, ps: seq<Placed>, p: OutPoint)
    requires ListsCover(st.utxos, st.lists) && forall i :: 0 <= i < |spent| ==> Spendable(st, spent[i])
    requires p in st.utxos || p in OutMap(ps)
    ensures Listed((MarkSpent(st.utxos, height, spent) + NewUtxos(ps, height))[p],
                   DropSpent(st, spent) + ListPaid(st, ps), p)
  {
    if p in OutMap(ps) {
      ListsAt(st, spent, ps, OutMap(ps)[p].address);
      OutMapIsPaid(ps, p);
    } else {
      ListsAt(st, spent, ps, st.utxos[p].txOut.address);
      assert Listed(st.utxos[p], st.lists, p);
      assert p in spent <==> p in Elems(spent);
    }
  }

  /** After the block a list holds only keys of its address. */
  lemma OwnedAt(st: Store, height: u64, spent: seq<OutPoint>, ps: seq<Placed>, a: Address, p: OutPoint)
    requires ListsCover(st.utxos, st.lists) && forall i :: 0 <= i < |spent| ==> Spendable(st, spent[i])
    requires NoDup(Points(ps)) && OutMap(ps).Keys !! st.utxos.Keys
    requires a in DropSpent(st, spent) + ListPaid(st, ps) && p in (DropSpent(st, spent) + ListPaid(st, ps))[a]
    ensures Owned(MarkSpent(st.utxos, height, spent) + NewUtxos(ps, height), a, p)
  {
    ListsAt(st, spent, ps, a);
    if p in PaidTo(ps, a) {
      PaidInOutMap(ps, a, p);
    } else {
      assert p in ListOf(st, a);
      assert Owned(st.utxos, a, p);
    }
  }

  /** The lists keep covering the unspent keys. */
  lemma ListsStep(st: Store, height: u64, spent: seq<OutPoint>, ps: seq<Placed>)
    requires ListsCover(st.utxos, st.lists) && forall i :: 0 <= i < |spent| ==> Spendable(st, spent[i])
    requires NoDup(Points(ps)) && OutMap(ps).Keys !! st.utxos.Keys
    ensures ListsCover(MarkSpent(st.utxos, height, spent) + NewUtxos(ps, height),
                       DropSpent(st, spent) + ListPaid(st, ps))
  {
    var utxos := MarkSpent(st.utxos, height, spent) + NewUtxos(ps, height);
    var lists := DropSpent(st, spent) + ListPaid(st, ps);
    forall p | p in utxos
      ensures Listed(utxos[p], lists, p)
    {
      ListedAt(st, height, spent, ps, p);
    }
    forall a, p | a in lists && p in lists[a]
      ensures Owned(utxos, a, p)
    {
      OwnedAt(st, height, spent, ps, a, p);
    }
  }

  lemma SpendablesStored(st: Store, spent: seq<OutPoint>)
    requires forall i :: 0 <= i < |spent| ==> Spendable(st, spent[i])
    ensures Elems(spent) <= st.utxos.Keys
  {
  }

  /** Every record's address has a key list. */
  ghost predicate Addressed(st: Store) { forall p :: p in st.utxos ==> st.utxos[p].txOut.address in st.lists }

  /** Every update keeps that, also one whose outputs are put over stored ones. */
  lemma AppliedAddressed(st: Store, height: u64, bt: seq<Transaction>)
    requires Addressed(st) && Applicable(st, height, bt)
    ensures Addressed(Applied(st, height, bt))
  {
    var spent, ps := SpentIn(height, bt), Places(bt);
    DropSpentKeys(st, spent);
    forall p | p in Applied(st, height, bt).utxos
      ensures Applied(st, height, bt).utxos[p].txOut.address in Applied(st, height, bt).lists
    {
      if p in OutMap(ps) {
        OutMapIsPaid(ps, p);
      }
    }
  }

  /** The replay of a concatenation. */
  lemma ReplayConcat(txs: seq<Transaction>, bt: seq<Transaction>)
    ensures OutMap(Places(txs + bt)) == OutMap(Places(txs)) + OutMap(Places(bt))
    ensures Elems(Spends(txs + bt)) == Elems(Spends(txs)) + Elems(Spends(bt))
    ensures Payees(Places(txs + bt)) == Payees(Places(txs)) + Payees(Places(bt))
  {
    PlacesConcat(txs, bt);
    SpendsConcat(txs, bt);
    OutMapConcat(Places(txs), Places(bt));
    ElemsConcat(Spends(txs), Spends(bt));
    PayeesConcat(Places(txs), Places(bt));
  }

  /** Applying a block whose outputs are new keeps the store in agreement with the replay. */
  lemma AppliedAgrees(st: Store, txs: seq<Transaction>, height: u64, bt: seq<Transaction>)
    requires Agrees(st, txs) && Applicable(st, height, bt)
    requires SpentIn(height, bt) == Spends(bt)
    requires NoDup(Points(Places(bt))) && OutMap(Places(bt)).Keys !! st.utxos.Keys
    ensures Agrees(Applied(st, height, bt), txs + bt)
  {
    var spent, ps := SpentIn(height, bt), Places(bt);
    SpendablesStored(st, spent);
    RecordsStep(st.utxos, OutMap(Places(txs)), Elems(Spends(txs)), height, spent, ps);
    ListsStep(st, height, spent, ps);
    DropSpentKeys(st, spent);
    ReplayConcat(txs, bt);
  }

  // ------------------------------------------------------------------ reading the index

  /** `list` is a result of reading the key list of `a`, visiting its keys in some order: the
      unspent records that are not reserved, each once. */
  ghost predicate Listing(st: Store, reserved: set<OutPoint>, a: Address, keys: seq<OutPoint>, list: seq<Utxo>) {
    && a in st.lists && (forall p :: p in st.lists[a] ==> p in st.utxos)
    && NoDup(keys) && |keys| == |list|
    && (forall p :: p in keys <==> p in st.lists[a] && !st.utxos[p].spent && st.utxos[p].Point() !in reserved)
    && (forall i :: 0 <= i < |keys| ==> list[i] == st.utxos[keys[i]])
  }

  /** Reading the lazy index gives exactly the live outputs of the replay that are paid to `a`. */
  lemma ListingIsReplay(st: Store, txs: seq<Transaction>, a: Address, keys: seq<OutPoint>, list: seq<Utxo>)
    requires Agrees(st, txs) && Listing(st, {}, a, keys, list)
    ensures NoDup(keys) && Elems(keys) == LiveTo(txs, a).Keys && |list| == |keys|
    ensures forall i :: 0 <= i < |keys| ==>
      keys[i] in LiveTo(txs, a) && list[i].Point() == keys[i] && list[i].txOut == LiveTo(txs, a)[keys[i]]
  {
    forall p ensures p in keys <==> p in LiveTo(txs, a) {
      assert p in Elems(Spends(txs)) <==> p in Spends(txs);
      if p in st.utxos {
        assert Listed(st.utxos[p], st.lists, p);
      }
      if p in st.lists[a] {
        assert Owned(st.utxos, a, p);
      }
    }
  }

  /** The list of `a` is stored, with all the records it names. */
  predicate Readable(st: Store, a: Address) { a in st.lists && forall p :: p in st.lists[a] ==> p in st.utxos }

  predicate EverPaid(ps: seq<Placed>, a: Address) { exists i :: 0 <= i < |ps| && ps[i].out.address == a }

  /** A read of the index succeeds exactly for the addresses that were paid. */
  lemma ReadableWhenPaid(st: Store, txs: seq<Transaction>, a: Address)
    requires Agrees(st, txs)
    ensures Readable(st, a) <==> EverPaid(Places(txs), a)
  {
    var ps := Places(txs);
    assert a in Payees(ps) <==> EverPaid(ps, a) by {
      if a in Payees(ps) {
        var q :| q in ps && q.out.address == a;
      }
    }
    if a in st.lists {
      forall p | p in st.lists[a] ensures p in st.utxos {
        assert Owned(st.utxos, a, p);
      }
    }
  }
}
