/** The sighash cache of hashcache.go: three calculators, each hashing one
    preimage under its own personalization tag, and `NewTxSigHashes`, which
    runs them in order and stops at the first failure. */
module HashCache {

  import opened Bytes
  import opened Results
  import opened Personalization
  import opened Wire
  import opened Preimage

  /** The failure the hash primitive reports. */
  datatype HashError = HashError(message: string)

  /** The personalized BLAKE2b hash (`blake2bHash`): buffer and tag in, a
      32-byte digest or an error out.  It is a parameter of the model. */
  type Hasher = (seq<byte>, seq<byte>) -> Result<Hash32, HashError>

  /** The wire encoding of one output (`wire.WriteTxOut`), also a parameter. */
  type OutputWriter = TxOut -> seq<byte>

  /** The three cached digests. */
  datatype TxSigHashes = TxSigHashes(hashPrevOuts: Hash32, hashSequence: Hash32, hashOutputs: Hash32)

  /** A freshly allocated cache: every digest is the zero hash. */
  function EmptySigHashes(): TxSigHashes {
    TxSigHashes(ZeroHash(), ZeroHash(), ZeroHash())
  }

  /** What `NewTxSigHashes` hands back: the cache as far as it was filled,
      and the error if one occurred. */
  datatype Built = Built(hashes: TxSigHashes, err: Option<HashError>)

  /** The digest is the hash, under the prevouts tag, of a buffer that decodes
      to exactly the transaction's outpoints in order.  Only one buffer does
      (`DecodePrevOutsSound`), so nothing else about the transaction matters. */
  function CalcHashPrevOuts(tx: MsgTx, hash: Hasher): (r: Result<Hash32, HashError>)
    ensures exists b :: DecodePrevOuts(b) == Some(OutPoints(tx.txIn)) && r == hash(b, Tag(PrevOuts))
  {
    PrevOutsRoundTrip(tx.txIn);
    hash(PrevOutsPreimage(tx.txIn), Tag(PrevOuts))
  }

  /** The digest is the hash, under the sequence tag, of a buffer that decodes
      to exactly the inputs' sequence numbers in order.  Only one buffer does
      (`DecodeSequencesSound`), so nothing else about the transaction matters. */
  function CalcHashSequence(tx: MsgTx, hash: Hasher): (r: Result<Hash32, HashError>)
    ensures exists b :: DecodeSequences(b) == Some(Sequences(tx.txIn)) && r == hash(b, Tag(Sequence))
  {
    SequenceRoundTrip(tx.txIn);
    hash(SequencePreimage(tx.txIn), Tag(Sequence))
  }

  /** The digest is the hash, under the outputs tag, of the buffer of the
      first `k` outputs followed by the buffer of the rest, for every split
      point `k`; with no outputs it is the hash of the empty buffer. */
  function CalcHashOutputs(tx: MsgTx, hash: Hasher, writeTxOut: OutputWriter): (r: Result<Hash32, HashError>)
    ensures forall k :: 0 <= k <= |tx.txOut| ==>
      r == hash(OutputsPreimage(tx.txOut[..k], writeTxOut) + OutputsPreimage(tx.txOut[k..], writeTxOut), Tag(Outputs))
    ensures tx.txOut == [] ==> r == hash([], Tag(Outputs))
  {
    OutputsSplit(tx.txOut, writeTxOut);
    hash(OutputsPreimage(tx.txOut, writeTxOut), Tag(Outputs))
  }

  /** Fills the cache with the previous-outpoints, sequence and outputs
      digests, in that order, returning at the first calculator that fails.
      A failing calculator leaves its own field and every later field at the
      zero hash; the fields of the calculators that succeeded before it keep
      their digests. */
  function NewTxSigHashes(tx: MsgTx, hash: Hasher, writeTxOut: OutputWriter): (r: Built)
    ensures r.err.None? <==>
      CalcHashPrevOuts(tx, hash).Success? && CalcHashSequence(tx, hash).Success?
      && CalcHashOutputs(tx, hash, writeTxOut).Success?
    ensures r.err.None? ==>
      r.hashes == TxSigHashes(CalcHashPrevOuts(tx, hash).value, CalcHashSequence(tx, hash).value,
                              CalcHashOutputs(tx, hash, writeTxOut).value)
    ensures CalcHashPrevOuts(tx, hash).Failure? ==>
      r.err == Some(CalcHashPrevOuts(tx, hash).error) && r.hashes == EmptySigHashes()
    ensures CalcHashPrevOuts(tx, hash).Success? && CalcHashSequence(tx, hash).Failure? ==>
      r.err == Some(CalcHashSequence(tx, hash).error)
      && r.hashes == EmptySigHashes().(hashPrevOuts := CalcHashPrevOuts(tx, hash).value)
    ensures (CalcHashPrevOuts(tx, hash).Success? && CalcHashSequence(tx, hash).Success?
             && CalcHashOutputs(tx, hash, writeTxOut).Failure?) ==>
      r.err == Some(CalcHashOutputs(tx, hash, writeTxOut).error)
      && r.hashes == EmptySigHashes().(hashPrevOuts := CalcHashPrevOuts(tx, hash).value,
                                       hashSequence := CalcHashSequence(tx, hash).value)
  {
    var h := EmptySigHashes();
    match CalcHashPrevOuts(tx, hash)
    case Failure(e) => Built(h, Some(e))
    case Success(p) =>
      var h := h.(hashPrevOuts := p);
      match CalcHashSequence(tx, hash)
      case Failure(e) => Built(h, Some(e))
      case Success(s) =>
        var h := h.(hashSequence := s);
        match CalcHashOutputs(tx, hash, writeTxOut)
        case Failure(e) => Built(h, Some(e))
        case Success(o) => Built(h.(hashOutputs := o), None)
  }

  /** When the prevouts hash fails, nothing later matters: any hash that
      answers the prevouts call the same way, with any output writer, gives
      the same cache and error. */
  lemma PrevOutsFailureStops(tx: MsgTx, hash: Hasher, hash': Hasher, writeTxOut: OutputWriter, writeTxOut': OutputWriter)
    requires CalcHashPrevOuts(tx, hash).Failure?
    requires hash'(PrevOutsPreimage(tx.txIn), Tag(PrevOuts)) == hash(PrevOutsPreimage(tx.txIn), Tag(PrevOuts))
    ensures NewTxSigHashes(tx, hash', writeTxOut') == NewTxSigHashes(tx, hash, writeTxOut)
  {
  }

  /** When the sequence hash fails, the outputs are never looked at: any hash
      that answers the prevouts and sequence calls the same way, with any
      output writer, gives the same cache and error. */
  lemma SequenceFailureStops(tx: MsgTx, hash: Hasher, hash': Hasher, writeTxOut: OutputWriter, writeTxOut': OutputWriter)
    requires CalcHashPrevOuts(tx, hash).Success? && CalcHashSequence(tx, hash).Failure?
    requires hash'(PrevOutsPreimage(tx.txIn), Tag(PrevOuts)) == hash(PrevOutsPreimage(tx.txIn), Tag(PrevOuts))
    requires hash'(SequencePreimage(tx.txIn), Tag(Sequence)) == hash(SequencePreimage(tx.txIn), Tag(Sequence))
    ensures NewTxSigHashes(tx, hash', writeTxOut') == NewTxSigHashes(tx, hash, writeTxOut)
  {
  }

  /** The three calculators never make the same hash call, whatever
      transactions they are given: their tags differ. */
  lemma CalculatorDomainsSeparated(a: MsgTx, b: MsgTx, writeTxOut: OutputWriter)
    ensures (PrevOutsPreimage(a.txIn), Tag(PrevOuts)) != (SequencePreimage(b.txIn), Tag(Sequence))
    ensures (SequencePreimage(a.txIn), Tag(Sequence)) != (OutputsPreimage(b.txOut, writeTxOut), Tag(Outputs))
    ensures (PrevOutsPreimage(a.txIn), Tag(PrevOuts)) != (OutputsPreimage(b.txOut, writeTxOut), Tag(Outputs))
  {
    TagsDistinct(PrevOuts, Sequence);
    TagsDistinct(Sequence, Outputs);
    TagsDistinct(PrevOuts, Outputs);
  }

  /** With no inputs (no outputs) the calculators hash the empty buffer; this
      is not an error of the model, only the hash can fail. */
  lemma EmptyCollections(tx: MsgTx, hash: Hasher, writeTxOut: OutputWriter)
    ensures tx.txIn == [] ==>
      CalcHashPrevOuts(tx, hash) == hash([], Tag(PrevOuts))
      && CalcHashSequence(tx, hash) == hash([], Tag(Sequence))
    ensures tx.txOut == [] ==> CalcHashOutputs(tx, hash, writeTxOut) == hash([], Tag(Outputs))
  {
  }

  /** The inputs with their sequence numbers replaced by `ns`. */
  function WithSequences(ins: seq<TxIn>, ns: seq<uint32>): (r: seq<TxIn>)
    requires |ns| == |ins|
    ensures |r| == |ins|
    ensures forall i :: 0 <= i < |ins| ==> r[i] == ins[i].(sequence := ns[i])
  {
    seq(|ins|, i requires 0 <= i < |ins| => ins[i].(sequence := ns[i]))
  }

  /** The inputs with their previous outpoints replaced by `ops`. */
  function WithOutPoints(ins: seq<TxIn>, ops: seq<OutPoint>): (r: seq<TxIn>)
    requires |ops| == |ins|
    ensures |r| == |ins|
    ensures forall i :: 0 <= i < |ins| ==> r[i] == ins[i].(previousOutPoint := ops[i])
  {
    seq(|ins|, i requires 0 <= i < |ins| => ins[i].(previousOutPoint := ops[i]))
  }

  /** Changing only sequence numbers leaves the outpoints and outputs digests
      as they were, and changes the sequence preimage exactly when some
      sequence number changes. */
  lemma SequenceEditIsolated(tx: MsgTx, ns: seq<uint32>, hash: Hasher, writeTxOut: OutputWriter)
    requires |ns| == |tx.txIn|
    ensures var tx' := tx.(txIn := WithSequences(tx.txIn, ns));
      && CalcHashPrevOuts(tx', hash) == CalcHashPrevOuts(tx, hash)
      && CalcHashOutputs(tx', hash, writeTxOut) == CalcHashOutputs(tx, hash, writeTxOut)
      && (SequencePreimage(tx'.txIn) == SequencePreimage(tx.txIn) <==> ns == Sequences(tx.txIn))
  {
    var ins' := WithSequences(tx.txIn, ns);
    assert OutPoints(ins') == OutPoints(tx.txIn);
    assert Sequences(ins') == ns;
    SequencePreimageInjective(ins', tx.txIn);
  }

  /** Changing only previous outpoints leaves the sequence and outputs digests
      as they were, and changes the outpoints preimage exactly when some
      outpoint changes. */
  lemma OutPointEditIsolated(tx: MsgTx, ops: seq<OutPoint>, hash: Hasher, writeTxOut: OutputWriter)
    requires |ops| == |tx.txIn|
    ensures var tx' := tx.(txIn := WithOutPoints(tx.txIn, ops));
      && CalcHashSequence(tx', hash) == CalcHashSequence(tx, hash)
      && CalcHashOutputs(tx', hash, writeTxOut) == CalcHashOutputs(tx, hash, writeTxOut)
      && (PrevOutsPreimage(tx'.txIn) == PrevOutsPreimage(tx.txIn) <==> ops == OutPoints(tx.txIn))
  {
    var ins' := WithOutPoints(tx.txIn, ops);
    assert Sequences(ins') == Sequences(tx.txIn);
    assert OutPoints(ins') == ops;
    PrevOutsPreimageInjective(ins', tx.txIn);
  }

  /** Changing only the outputs leaves both input digests as they were. */
  lemma OutputsEditIsolated(tx: MsgTx, outs: seq<TxOut>, hash: Hasher)
    ensures CalcHashPrevOuts(tx.(txOut := outs), hash) == CalcHashPrevOuts(tx, hash)
    ensures CalcHashSequence(tx.(txOut := outs), hash) == CalcHashSequence(tx, hash)
  {
  }

  /** The whole cache depends on the transaction only through its outpoints,
      its sequence numbers and its outputs: signature scripts play no part. */
  lemma CacheDependsOnlyOnHashedFields(tx1: MsgTx, tx2: MsgTx, hash: Hasher, writeTxOut: OutputWriter)
    requires OutPoints(tx1.txIn) == OutPoints(tx2.txIn)
    requires Sequences(tx1.txIn) == Sequences(tx2.txIn)
    requires tx1.txOut == tx2.txOut
    ensures NewTxSigHashes(tx1, hash, writeTxOut) == NewTxSigHashes(tx2, hash, writeTxOut)
  {
  }
}
