/** The shared shape of the three calculators in hashcache.go: walk a sequence
    in order and append each element's byte encoding to one buffer. */
module Serial {

  import opened Bytes

  /** The buffer obtained by writing `enc(x)` for every `x` of `xs`, in order. */
  function Concat<T>(xs: seq<T>, enc: T -> seq<byte>): seq<byte>
  {
    if |xs| == 0 then [] else enc(xs[0]) + Concat(xs[1..], enc)
  }

  /** Every encoding `enc` produces is exactly `w` bytes long. */
  ghost predicate FixedWidth<T(!new)>(enc: T -> seq<byte>, w: nat) {
    forall x :: |enc(x)| == w
  }

  /** Writing `xs` and then `ys` into one buffer gives the two buffers joined. */
  lemma {:induction false} ConcatAppend<T>(xs: seq<T>, ys: seq<T>, enc: T -> seq<byte>)
    ensures Concat(xs + ys, enc) == Concat(xs, enc) + Concat(ys, enc)
  {
    if |xs| == 0 {
      assert xs + ys == ys;
    } else {
      assert (xs + ys)[1..] == xs[1..] + ys;
      ConcatAppend(xs[1..], ys, enc);
    }
  }

  /** With fixed-width records the buffer is `w` bytes per element. */
  lemma {:induction false} ConcatLength<T(!new)>(xs: seq<T>, enc: T -> seq<byte>, w: nat)
    requires FixedWidth(enc, w)
    ensures |Concat(xs, enc)| == w * |xs|
  {
    if |xs| > 0 {
      ConcatLength(xs[1..], enc, w);
    }
  }

  /** The encoding of element `i` sits in the buffer right after the bytes
      written for the elements before it. */
  lemma ConcatAt<T>(xs: seq<T>, enc: T -> seq<byte>, i: nat)
    requires i < |xs|
    ensures var o := |Concat(xs[..i], enc)|;
      o + |enc(xs[i])| <= |Concat(xs, enc)| &&
      Concat(xs, enc)[o .. o + |enc(xs[i])|] == enc(xs[i])
  {
    assert xs == xs[..i] + ([xs[i]] + xs[i + 1..]);
    ConcatAppend(xs[..i], [xs[i]] + xs[i + 1..], enc);
    ConcatAppend([xs[i]], xs[i + 1..], enc);
    assert Concat([xs[i]], enc) == enc(xs[i]) by {
      assert [xs[i]][1..] == [];
    }
  }

  /** For fixed-width records element `i` occupies bytes `[w*i, w*i + w)`. */
  lemma ConcatAtFixed<T(!new)>(xs: seq<T>, enc: T -> seq<byte>, w: nat, i: nat)
    requires FixedWidth(enc, w)
    requires i < |xs|
    ensures |Concat(xs, enc)| == w * |xs|
    ensures w * i + w <= |Concat(xs, enc)|
    ensures Concat(xs, enc)[w * i .. w * i + w] == enc(xs[i])
  {
    ConcatLength(xs, enc, w);
    ConcatLength(xs[..i], enc, w);
    ConcatAt(xs, enc, i);
  }
}
