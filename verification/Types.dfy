/** Blocks, transactions and the identifiers that name them. */
module Types {
  import opened Basics

  /** A 20-byte address read as a big-endian number, so that `<` is the order of the
      fixed-width hex strings by which the program sorts. */
  type Address = int
  const NO_ADDRESS: Address := 0

  type PublicKey = string

  /** Signatures are opaque; the number stands for the bytes. */
  type Signature = int
  const NO_SIGNATURE: Signature := 0

  /** A 32-byte hash as a term of a free algebra: hashing different things gives different
      hashes. `Other` is a value that is the hash of nothing modelled here. */
  datatype Hash =
    | ZeroHash
    | TxHash(version: string, networkId: string, timestamp: int, inputs: seq<InputRef>,
             outputs: seq<TxOutput>, memo: string, data: string)
    | HeaderHash(prevHash: Hash, protocol: string, height: u64, merkleRoot: Hash, time: int)
    | Pair(left: Hash, right: Hash)
    | Other(bits: nat)

  /** A transaction input without its signature: what the transaction id covers. */
  datatype InputRef = InputRef(txId: Hash, index: nat, publicKey: PublicKey)

  datatype TxInput = TxInput(txId: Hash, index: nat, publicKey: PublicKey, signature: Signature)
  {
    function Point(): OutPoint { OutPoint(txId, index) }
    function Unsigned(): InputRef { InputRef(txId, index, publicKey) }
  }

  datatype TxOutput = TxOutput(address: Address, amount: u64, txType: nat)

  /** The key `utxo:txid:index`. */
  datatype OutPoint = OutPoint(txId: Hash, index: nat)

  datatype Transaction = Transaction(
    id: Hash, version: string, networkId: string, timestamp: int,
    inputs: seq<TxInput>, outputs: seq<TxOutput>, memo: string, data: string)
  {
    /** `utils.Hash` of the transaction with its id blanked and its signatures removed. */
    function ContentHash(): Hash {
      TxHash(version, networkId, timestamp, seq(|inputs|, i requires 0 <= i < |inputs| => inputs[i].Unsigned()),
             outputs, memo, data)
    }

    function Points(): seq<OutPoint> { seq(|inputs|, i requires 0 <= i < |inputs| => inputs[i].Point()) }
  }

  datatype CommitSignature = CommitSignature(validator: Address, signature: Signature, timestamp: int)

  datatype Header = Header(hash: Hash, prevHash: Hash, version: string, height: u64, merkleRoot: Hash, timestamp: int)
  {
    /** `utils.Hash` of the header with its hash field blanked. */
    function ContentHash(): Hash { HeaderHash(prevHash, version, height, merkleRoot, timestamp) }
  }

  datatype Block = Block(
    header: Header, txs: seq<Transaction>, proposer: Address, signature: Signature, commits: seq<CommitSignature>)

  function Ids(txs: seq<Transaction>): seq<Hash> { seq(|txs|, i requires 0 <= i < |txs| => txs[i].id) }

  /** The id of a well-hashed transaction determines what it spends. */
  lemma SameIdSamePoints(s: Transaction, t: Transaction)
    requires s.id == t.id && s.id == s.ContentHash() && t.id == t.ContentHash()
    ensures s.Points() == t.Points()
  {
    var a, b := s.ContentHash().inputs, t.ContentHash().inputs;
    assert a == b;
    forall i | 0 <= i < |s.inputs| ensures s.Points()[i] == t.Points()[i] {
      assert a[i] == b[i];
    }
  }
}
