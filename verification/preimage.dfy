/** The byte buffers the three calculators of hashcache.go hand to the hash:
    the previous-outpoints preimage (lines 52-64), the sequence preimage
    (lines 76-81) and the outputs preimage (lines 92-95), with decoders for
    the two fixed-width ones. */
module Preimage {

  import opened Bytes
  import opened Results
  import opened Serial
  import opened Wire

  /** The outpoints the inputs spend, in input order. */
  function OutPoints(ins: seq<TxIn>): (ops: seq<OutPoint>)
    ensures |ops| == |ins|
    ensures forall i :: 0 <= i < |ins| ==> ops[i] == ins[i].previousOutPoint
  {
    seq(|ins|, i requires 0 <= i < |ins| => ins[i].previousOutPoint)
  }

  /** The sequence numbers of the inputs, in input order. */
  function Sequences(ins: seq<TxIn>): (ns: seq<uint32>)
    ensures |ns| == |ins|
    ensures forall i :: 0 <= i < |ins| ==> ns[i] == ins[i].sequence
  {
    seq(|ins|, i requires 0 <= i < |ins| => ins[i].sequence)
  }

  // ---------------------------------------------------------------------------
  // Previous outpoints

  /** For each input in order: its outpoint id, then its outpoint index. */
  function PrevOutsPreimage(ins: seq<TxIn>): seq<byte> {
    Concat(OutPoints(ins), OutPointBytes)
  }

  /** Splits a buffer into 36-byte outpoint records; `None` when the length
      is not a whole number of records. */
  function DecodePrevOuts(b: seq<byte>): (r: Option<seq<OutPoint>>)
    ensures r.Some? <==> |b| % 36 == 0
    ensures r.Some? ==> 36 * |r.value| == |b|
    decreases |b|
  {
    if |b| == 0 then Some([])
    else if |b| < 36 then None
    else
      match DecodePrevOuts(b[36..])
      case None => None
      case Some(rest) => Some([DecodeOutPoint(b[..36])] + rest)
  }

  lemma {:induction false} DecodeEncodeOutPoints(ops: seq<OutPoint>)
    ensures DecodePrevOuts(Concat(ops, OutPointBytes)) == Some(ops)
  {
    if |ops| > 0 {
      var b := Concat(ops, OutPointBytes);
      assert b == OutPointBytes(ops[0]) + Concat(ops[1..], OutPointBytes);
      assert b[..36] == OutPointBytes(ops[0]);
      assert b[36..] == Concat(ops[1..], OutPointBytes);
      DecodeEncodeOutPoints(ops[1..]);
      OutPointRoundTrip(ops[0]);
      assert [ops[0]] + ops[1..] == ops;
    }
  }

  /** Decoding the preimage gives back the ordered list of outpoints. */
  lemma PrevOutsRoundTrip(ins: seq<TxIn>)
    ensures DecodePrevOuts(PrevOutsPreimage(ins)) == Some(OutPoints(ins))
  {
    DecodeEncodeOutPoints(OutPoints(ins));
  }

  /** Whatever the decoder accepts is the encoding of what it returns. */
  lemma {:induction false} DecodePrevOutsSound(b: seq<byte>)
    requires DecodePrevOuts(b).Some?
    ensures Concat(DecodePrevOuts(b).value, OutPointBytes) == b
    decreases |b|
  {
    if |b| > 0 {
      var ops := DecodePrevOuts(b).value;
      DecodePrevOutsSound(b[36..]);
      assert ops[1..] == DecodePrevOuts(b[36..]).value;
      assert b == b[..36] + b[36..];
    }
  }

  /** The preimage is 36 bytes per input, input `i` owning bytes
      `[36*i, 36*i + 36)`: its outpoint id verbatim, then its index least
      significant byte first. */
  lemma PrevOutsLayout(ins: seq<TxIn>, i: nat)
    requires i < |ins|
    ensures |PrevOutsPreimage(ins)| == 36 * |ins|
    ensures PrevOutsPreimage(ins)[36 * i .. 36 * i + 32] == ins[i].previousOutPoint.hash
    ensures PrevOutsPreimage(ins)[36 * i + 32 .. 36 * i + 36] == Uint32ToBytes(ins[i].previousOutPoint.index)
    ensures Uint32FromBytes(PrevOutsPreimage(ins)[36 * i + 32 .. 36 * i + 36]) == ins[i].previousOutPoint.index
  {
    var b := PrevOutsPreimage(ins);
    ConcatAtFixed(OutPoints(ins), OutPointBytes, 36, i);
    var rec := b[36 * i .. 36 * i + 36];
    assert rec == OutPointBytes(ins[i].previousOutPoint);
    assert b[36 * i .. 36 * i + 32] == rec[..32];
    assert b[36 * i + 32 .. 36 * i + 36] == rec[32..];
  }

  /** Two input lists give the same preimage exactly when they spend the same
      outpoints in the same order: any change of order, id or index shows,
      and nothing else about the inputs matters. */
  lemma PrevOutsPreimageInjective(a: seq<TxIn>, b: seq<TxIn>)
    ensures PrevOutsPreimage(a) == PrevOutsPreimage(b) <==> OutPoints(a) == OutPoints(b)
  {
    PrevOutsRoundTrip(a);
    PrevOutsRoundTrip(b);
  }

  /** The preimage of joined input lists is the two preimages joined; no
      inputs give the empty buffer. */
  lemma PrevOutsAppend(a: seq<TxIn>, b: seq<TxIn>)
    ensures PrevOutsPreimage(a + b) == PrevOutsPreimage(a) + PrevOutsPreimage(b)
    ensures PrevOutsPreimage([]) == []
  {
    assert OutPoints(a + b) == OutPoints(a) + OutPoints(b);
    ConcatAppend(OutPoints(a), OutPoints(b), OutPointBytes);
  }

  // ---------------------------------------------------------------------------
  // Sequence numbers

  /** For each input in order: its sequence number, least significant byte first. */
  function SequencePreimage(ins: seq<TxIn>): seq<byte> {
    Concat(Sequences(ins), Uint32ToBytes)
  }

  /** Splits a buffer into 4-byte little-endian values; `None` when the
      length is not a multiple of four. */
  function DecodeSequences(b: seq<byte>): (r: Option<seq<uint32>>)
    ensures r.Some? <==> |b| % 4 == 0
    ensures r.Some? ==> 4 * |r.value| == |b|
    decreases |b|
  {
    if |b| == 0 then Some([])
    else if |b| < 4 then None
    else
      match DecodeSequences(b[4..])
      case None => None
      case Some(rest) => Some([Uint32FromBytes(b[..4])] + rest)
  }

  lemma {:induction false} DecodeEncodeUint32s(ns: seq<uint32>)
    ensures DecodeSequences(Concat(ns, Uint32ToBytes)) == Some(ns)
  {
    if |ns| > 0 {
      var b := Concat(ns, Uint32ToBytes);
      assert b == Uint32ToBytes(ns[0]) + Concat(ns[1..], Uint32ToBytes);
      assert b[..4] == Uint32ToBytes(ns[0]);
      assert b[4..] == Concat(ns[1..], Uint32ToBytes);
      DecodeEncodeUint32s(ns[1..]);
      assert [ns[0]] + ns[1..] == ns;
    }
  }

  /** Decoding the preimage gives back the ordered list of sequence numbers. */
  lemma SequenceRoundTrip(ins: seq<TxIn>)
    ensures DecodeSequences(SequencePreimage(ins)) == Some(Sequences(ins))
  {
    DecodeEncodeUint32s(Sequences(ins));
  }

  /** Whatever the decoder accepts is the encoding of what it returns. */
  lemma {:induction false} DecodeSequencesSound(b: seq<byte>)
    requires DecodeSequences(b).Some?
    ensures Concat(DecodeSequences(b).value, Uint32ToBytes) == b
    decreases |b|
  {
    if |b| > 0 {
      var ns := DecodeSequences(b).value;
      DecodeSequencesSound(b[4..]);
      assert ns[1..] == DecodeSequences(b[4..]).value;
      BytesRoundTrip(b[..4]);
      assert b == b[..4] + b[4..];
    }
  }

  /** The preimage is 4 bytes per input, and bytes `[4*i, 4*i + 4)` decode
      to the sequence number of input `i`. */
  lemma SequenceLayout(ins: seq<TxIn>, i: nat)
    requires i < |ins|
    ensures |SequencePreimage(ins)| == 4 * |ins|
    ensures SequencePreimage(ins)[4 * i .. 4 * i + 4] == Uint32ToBytes(ins[i].sequence)
    ensures Uint32FromBytes(SequencePreimage(ins)[4 * i .. 4 * i + 4]) == ins[i].sequence
  {
    ConcatAtFixed(Sequences(ins), Uint32ToBytes, 4, i);
  }

  /** Two input lists give the same sequence preimage exactly when their
      sequence numbers agree in order. */
  lemma SequencePreimageInjective(a: seq<TxIn>, b: seq<TxIn>)
    ensures SequencePreimage(a) == SequencePreimage(b) <==> Sequences(a) == Sequences(b)
  {
    SequenceRoundTrip(a);
    SequenceRoundTrip(b);
  }

  /** The sequence preimage of joined input lists is the two preimages
      joined; no inputs give the empty buffer. */
  lemma SequenceAppend(a: seq<TxIn>, b: seq<TxIn>)
    ensures SequencePreimage(a + b) == SequencePreimage(a) + SequencePreimage(b)
    ensures SequencePreimage([]) == []
  {
    assert Sequences(a + b) == Sequences(a) + Sequences(b);
    ConcatAppend(Sequences(a), Sequences(b), Uint32ToBytes);
  }

  // ---------------------------------------------------------------------------
  // Outputs

  /** For each output in order: its wire encoding, produced by the output
      serializer `writeTxOut` this model treats as opaque. */
  function OutputsPreimage(outs: seq<TxOut>, writeTxOut: TxOut -> seq<byte>): seq<byte> {
    Concat(outs, writeTxOut)
  }

  /** Output `i`'s wire encoding appears verbatim in the preimage, right after
      the encodings of the outputs before it. */
  lemma OutputsLayout(outs: seq<TxOut>, writeTxOut: TxOut -> seq<byte>, i: nat)
    requires i < |outs|
    ensures var o := |OutputsPreimage(outs[..i], writeTxOut)|;
      o + |writeTxOut(outs[i])| <= |OutputsPreimage(outs, writeTxOut)| &&
      OutputsPreimage(outs, writeTxOut)[o .. o + |writeTxOut(outs[i])|] == writeTxOut(outs[i])
  {
    ConcatAt(outs, writeTxOut, i);
  }

  /** The outputs preimage of joined output lists is the two preimages
      joined; no outputs give the empty buffer. */
  lemma OutputsAppend(a: seq<TxOut>, b: seq<TxOut>, writeTxOut: TxOut -> seq<byte>)
    ensures OutputsPreimage(a + b, writeTxOut) == OutputsPreimage(a, writeTxOut) + OutputsPreimage(b, writeTxOut)
    ensures OutputsPreimage([], writeTxOut) == []
  {
    ConcatAppend(a, b, writeTxOut);
  }

  /** Cutting the output list anywhere and joining the two buffers gives the
      buffer of the whole list. */
  lemma OutputsSplit(outs: seq<TxOut>, writeTxOut: TxOut -> seq<byte>)
    ensures forall k :: 0 <= k <= |outs| ==>
      OutputsPreimage(outs, writeTxOut) == OutputsPreimage(outs[..k], writeTxOut) + OutputsPreimage(outs[k..], writeTxOut)
  {
    forall k | 0 <= k <= |outs|
      ensures OutputsPreimage(outs, writeTxOut) == OutputsPreimage(outs[..k], writeTxOut) + OutputsPreimage(outs[k..], writeTxOut)
    {
      assert outs[..k] + outs[k..] == outs;
      OutputsAppend(outs[..k], outs[k..], writeTxOut);
    }
  }
}
