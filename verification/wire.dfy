/** The read-only view of a transaction that the sighash cache consumes, and
    the fixed 36-byte encoding of an outpoint written at hashcache.go:57-63. */
module Wire {

  import opened Bytes

  /** A reference to output `index` of the transaction with id `hash`. */
  datatype OutPoint = OutPoint(hash: Hash32, index: uint32)

  /** A transaction input.  The signature script is carried so that the model
      can say that no cached digest looks at it. */
  datatype TxIn = TxIn(previousOutPoint: OutPoint, signatureScript: seq<byte>, sequence: uint32)

  /** A transaction output: an amount and a locking script. */
  datatype TxOut = TxOut(value: int64, pkScript: seq<byte>)

  /** The parts of a transaction the cache reads: its inputs and outputs, in order. */
  datatype MsgTx = MsgTx(txIn: seq<TxIn>, txOut: seq<TxOut>)

  /** The 32 id bytes verbatim, then the index least significant byte first. */
  function OutPointBytes(op: OutPoint): (r: seq<byte>)
    ensures |r| == 36
    ensures r[..32] == op.hash
    ensures r[32..] == Uint32ToBytes(op.index)
  {
    op.hash + Uint32ToBytes(op.index)
  }

  /** Reads a 36-byte outpoint record; writing it back gives the same bytes. */
  function DecodeOutPoint(b: seq<byte>): (op: OutPoint)
    requires |b| == 36
    ensures OutPointBytes(op) == b
  {
    BytesRoundTrip(b[32..]);
    OutPoint(b[..32], Uint32FromBytes(b[32..]))
  }

  /** Decoding an encoded outpoint gives it back. */
  lemma OutPointRoundTrip(op: OutPoint)
    ensures DecodeOutPoint(OutPointBytes(op)) == op
  {
  }
}
