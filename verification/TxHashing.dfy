/** Hashing a transaction in place: `ValidateTxHash` in core/validate.go blanks the id and the
    signatures of a shared object, hashes it and puts them back. */
module TxHashing {
  import opened Basics
  import opened Types

  class Input {
    var txId: Hash
    var index: nat
    var publicKey: PublicKey
    var signature: Signature

    function Value(): TxInput reads this { TxInput(txId, index, publicKey, signature) }

    constructor (v: TxInput)
      ensures Value() == v
    {
      txId, index, publicKey, signature := v.txId, v.index, v.publicKey, v.signature;
    }
  }

  function Snapshot(ins: seq<Input>): (s: seq<TxInput>)
    reads Elems(ins)
    ensures |s| == |ins| && forall i :: 0 <= i < |ins| ==> s[i] == ins[i].Value()
  {
    if ins == [] then [] else
    assert Elems(ins[..|ins| - 1]) <= Elems(ins);
    assert ins[|ins| - 1] in Elems(ins);
    Snapshot(ins[..|ins| - 1]) + [ins[|ins| - 1].Value()]
  }

  /** A transaction object. `None` is a nil slice. */
  class Tx {
    var id: Hash
    var version: string
    var networkId: string
    var timestamp: int
    var inputs: Option<seq<Input>>
    var outputs: seq<TxOutput>
    var memo: string
    var data: Option<string>

    function Ins(): seq<Input> reads this { if inputs.Some? then inputs.value else [] }

    function Bytes(): string reads this { if data.Some? then data.value else [] }

    /** The transaction apart from its inputs. */
    function Shell(): Transaction reads this {
      Transaction(id, version, networkId, timestamp, [], outputs, memo, Bytes())
    }

    /** The transaction with nil slices read as empty ones. */
    function Value(): Transaction
      reads this, Elems(Ins())
    {
      Transaction(id, version, networkId, timestamp, Snapshot(Ins()), outputs, memo, Bytes())
    }
  }

  function Unsigned(t: Transaction): Transaction {
    t.(inputs := seq(|t.inputs|, i requires 0 <= i < |t.inputs| => t.inputs[i].(signature := NO_SIGNATURE)))
  }

  /** What is hashed: no id and no signatures. */
  function Blank(t: Transaction): Transaction { Unsigned(t).(id := ZeroHash) }

  /** The verdict looks past signatures: transactions that differ only in them are hashed alike, and
      the hash that the model uses as a transaction's content is one of blanked transactions. */
  lemma SignaturesIgnored(s: Transaction, t: Transaction)
    ensures Blank(s) == Blank(t) <==> s.ContentHash() == t.ContentHash()
  {
    var a, b := s.ContentHash().inputs, t.ContentHash().inputs;
    if a == b {
      forall i | 0 <= i < |s.inputs|
        ensures s.inputs[i].(signature := NO_SIGNATURE) == t.inputs[i].(signature := NO_SIGNATURE)
      {
        assert a[i] == b[i];
      }
    }
    if Blank(s) == Blank(t) {
      forall i | 0 <= i < |s.inputs| ensures a[i] == b[i] {
        assert Blank(s).inputs[i] == Blank(t).inputs[i];
      }
    }
  }

  /** The object occurs at two of the first `n` positions. */
  ghost predicate Repeats(ins: seq<Input>, n: nat, o: Input)
    requires n <= |ins|
  {
    exists a, b :: 0 <= a < b < n && ins[a] == o && ins[b] == o
  }

  /** The object occurs before position `k` too. */
  predicate Earlier(ins: seq<Input>, k: nat)
    requires k < |ins|
  {
    ins[k] in ins[..k]
  }

  lemma RepeatsNext(ins: seq<Input>, n: nat, o: Input)
    requires n < |ins|
    ensures Repeats(ins, n + 1, o) <==> Repeats(ins, n, o) || (ins[n] == o && Earlier(ins, n))
  {
    if ins[n] == o && Earlier(ins, n) {
      var a :| 0 <= a < n && ins[..n][a] == o;
      assert ins[a] == o;
    }
    if Repeats(ins, n + 1, o) && !Repeats(ins, n, o) {
      var a, b :| 0 <= a < b < n + 1 && ins[a] == o && ins[b] == o;
      assert b == n;
      assert ins[..n][a] == o;
    }
  }

  lemma SeenNext(ins: seq<Input>, i: nat)
    requires i < |ins|
    ensures Elems(ins[..i + 1]) == Elems(ins[..i]) + {ins[i]} && (Earlier(ins, i) <==> ins[i] in Elems(ins[..i]))
  {
    assert ins[..i + 1] == ins[..i] + [ins[i]];
    ElemsConcat(ins[..i], [ins[i]]);
  }

  /** Takes the signatures out. An object that occurs again is already blank the second time. */
  method SaveSignatures(ins: seq<Input>) returns (saved: seq<Signature>)
    modifies Elems(ins)`signature
    ensures |saved| == |ins|
    ensures forall k :: 0 <= k < |ins| ==> saved[k] == if Earlier(ins, k) then NO_SIGNATURE else old(ins[k].signature)
    ensures forall o :: o in Elems(ins) ==> o.signature == NO_SIGNATURE
  {
    saved := [];
    ghost var seen: set<Input> := {};
    for i := 0 to |ins|
      invariant |saved| == i && seen == Elems(ins[..i])
      invariant forall k :: 0 <= k < i ==> saved[k] == if Earlier(ins, k) then NO_SIGNATURE else old(ins[k].signature)
      invariant forall o :: o in Elems(ins) ==> o.signature == if o in seen then NO_SIGNATURE else old(o.signature)
    {
      SeenNext(ins, i);
      assert ins[i] in Elems(ins);
      saved := saved + [ins[i].signature];
      ins[i].signature := NO_SIGNATURE;
      seen := seen + {ins[i]};
    }
    assert ins[..|ins|] == ins;
  }

  /** The objects met a second time among the first `n` positions. */
  ghost function Doubles(ins: seq<Input>, n: nat): set<Input>
    requires n <= |ins|
  {
    if n == 0 then {} else Doubles(ins, n - 1) + if Earlier(ins, n - 1) then {ins[n - 1]} else {}
  }

  lemma {:induction false} DoublesRepeat(ins: seq<Input>, n: nat, o: Input)
    requires n <= |ins|
    ensures o in Doubles(ins, n) <==> Repeats(ins, n, o)
  {
    if n > 0 {
      DoublesRepeat(ins, n - 1, o);
      RepeatsNext(ins, n - 1, o);
    }
  }

  /** Puts them back. */
  method RestoreSignatures(ins: seq<Input>, saved: seq<Signature>, ghost was: map<Input, Signature>)
    requires |saved| == |ins| && was.Keys == Elems(ins) && forall k :: 0 <= k < |ins| ==> ins[k] in was
    requires forall k :: 0 <= k < |ins| ==> saved[k] == if Earlier(ins, k) then NO_SIGNATURE else was[ins[k]]
    modifies Elems(ins)`signature
    ensures forall o :: o in Elems(ins) ==> o.signature == if o in Doubles(ins, |ins|) then NO_SIGNATURE else was[o]
  {
    ghost var once: set<Input>, twice: set<Input> := {}, {};
    for i := 0 to |ins|
      invariant once == Elems(ins[..i]) && once <= Elems(ins) && twice == Doubles(ins, i) && twice <= once
      invariant forall o :: o in once ==> o.signature == if o in twice then NO_SIGNATURE else was[o]
    {
      SeenNext(ins, i);
      ins[i].signature := saved[i];
      once := once + {ins[i]};
      twice := Doubles(ins, i + 1);
    }
    assert ins[..|ins|] == ins;
  }

  /** A signature after the check: lost if its object is listed twice. */
  ghost function Kept(ins: seq<Input>, k: nat, was: Signature): Signature
    requires k < |ins|
  {
    if Repeats(ins, |ins|, ins[k]) then NO_SIGNATURE else was
  }

  /** Takes the signatures out and hashes; `hash` is the foreign hash of a whole object. */
  method HashBlanked(tx: Tx, ins: seq<Input>, hash: Transaction -> Hash) returns (h: Hash, saved: seq<Signature>)
    requires tx.Ins() == ins
    modifies Elems(ins)`signature
    ensures h == hash(Unsigned(old(tx.Value()))) && |saved| == |ins|
    ensures forall k :: 0 <= k < |ins| ==> saved[k] == if Earlier(ins, k) then NO_SIGNATURE else old(ins[k].signature)
  {
    saved := SaveSignatures(ins);
    assert forall k :: 0 <= k < |ins| ==> ins[k] in Elems(ins);
    assert Snapshot(ins) == Unsigned(old(tx.Value())).inputs;
    h := hash(tx.Value());
  }

  method HashUnsigned(tx: Tx, ins: seq<Input>, hash: Transaction -> Hash) returns (h: Hash)
    requires tx.Ins() == ins
    modifies Elems(ins)`signature
    ensures h == hash(Unsigned(old(tx.Value())))
    ensures forall k :: 0 <= k < |ins| ==> ins[k].signature == Kept(ins, k, old(ins[k].signature))
  {
    ghost var was: map<Input, Signature> := map o | o in Elems(ins) :: o.signature;
    assert forall k :: 0 <= k < |ins| ==> ins[k] in Elems(ins);
    var saved;
    h, saved := HashBlanked(tx, ins, hash);
    RestoreSignatures(ins, saved, was);
    forall k | 0 <= k < |ins| ensures ins[k].signature == Kept(ins, k, was[ins[k]]) {
      DoublesRepeat(ins, |ins|, ins[k]);
    }
  }

  /** The hash is that of the transaction without id and signatures, and everything is as it was
      afterwards, except that an input object listed twice has lost its signature. */
  method ValidateTxHash(tx: Tx, hash: Transaction -> Hash) returns (ok: bool)
    modifies tx, Elems(tx.Ins())`signature
    ensures ok == (old(tx.id) == hash(Blank(old(tx.Value()))))
    ensures tx.inputs == old(tx.inputs) && tx.data == old(tx.data) && tx.Shell() == old(tx.Shell())
    ensures forall k :: 0 <= k < |tx.Ins()| ==> tx.Ins()[k].signature == Kept(tx.Ins(), k, old(tx.Ins()[k].signature))
  {
    var stored := tx.id;
    var savedData, savedInputs := tx.data, tx.inputs;
    tx.id := ZeroHash;
    if tx.data.None? {
      tx.data := Some("");
    }
    if tx.inputs.None? {
      tx.inputs := Some([]);
    }
    var ins := tx.inputs.value;
    assert ins == old(tx.Ins());
    assert Snapshot(ins) == old(Snapshot(tx.Ins()));
    assert tx.Value() == old(tx.Value()).(id := ZeroHash);
    var calculated := HashUnsigned(tx, ins, hash);
    tx.id, tx.data, tx.inputs := stored, savedData, savedInputs;
    ok := stored == calculated;
  }

  /** The signatures come back exactly when no signed input object is listed twice; in particular
      when all input objects are distinct. */
  lemma RestoredUnlessShared(ins: seq<Input>, was: seq<Signature>)
    requires |was| == |ins|
    ensures (forall k :: 0 <= k < |ins| ==> was[k] == Kept(ins, k, was[k])) <==>
      (forall i, j :: 0 <= i < j < |ins| && ins[i] == ins[j] ==> was[i] == was[j] == NO_SIGNATURE)
    ensures NoDup(ins) ==> forall k :: 0 <= k < |ins| ==> was[k] == Kept(ins, k, was[k])
  {
    if forall k :: 0 <= k < |ins| ==> was[k] == Kept(ins, k, was[k]) {
      forall i, j | 0 <= i < j < |ins| && ins[i] == ins[j] ensures was[i] == was[j] == NO_SIGNATURE {
        assert Repeats(ins, |ins|, ins[i]) && Repeats(ins, |ins|, ins[j]);
      }
    }
    if forall i, j :: 0 <= i < j < |ins| && ins[i] == ins[j] ==> was[i] == was[j] == NO_SIGNATURE {
      forall k | 0 <= k < |ins| && Repeats(ins, |ins|, ins[k]) ensures was[k] == NO_SIGNATURE {
        var a, b :| 0 <= a < b < |ins| && ins[a] == ins[k] && ins[b] == ins[k];
        assert a == k || a < k || k < a;
      }
    }
  }
}
