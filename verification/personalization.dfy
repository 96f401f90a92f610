/** The BLAKE2b personalization tags of hashcache.go (lines 12-17), as a closed
    enumeration of the digest each one separates. */
module Personalization {

  import opened Bytes

  /** Which cached digest a tag belongs to.  `JoinSplits` has a tag but no
      calculator computes a digest with it. */
  datatype Purpose = PrevOuts | Sequence | Outputs | JoinSplits

  /** The tag text of each purpose. */
  function TagText(p: Purpose): string {
    match p
    case PrevOuts => "ZcashPrevoutHash"
    case Sequence => "ZcashSequencHash"
    case Outputs => "ZcashOutputsHash"
    case JoinSplits => "ZcashJSplitsHash"
  }

  predicate IsAscii(s: string) {
    forall i :: 0 <= i < |s| ==> s[i] as int < 0x80
  }

  /** Go's `[]byte(s)`, which for ASCII text is one byte per character. */
  function AsciiBytes(s: string): (r: seq<byte>)
    requires IsAscii(s)
    ensures |r| == |s|
    ensures forall i :: 0 <= i < |s| ==> r[i] == s[i] as int
  {
    seq(|s|, i requires 0 <= i < |s| => s[i] as int)
  }

  /** The personalization bytes handed to the hash: 16 ASCII bytes. */
  function Tag(p: Purpose): (t: seq<byte>)
    ensures |t| == 16
  {
    TagTextIsAscii(p);
    AsciiBytes(TagText(p))
  }

  /** Every tag text is 16 ASCII characters. */
  lemma TagTextIsAscii(p: Purpose)
    ensures |TagText(p)| == 16 && IsAscii(TagText(p))
  {
  }

  /** Distinct ASCII texts give distinct bytes. */
  lemma AsciiBytesInjective(s: string, t: string)
    requires IsAscii(s) && IsAscii(t)
    ensures AsciiBytes(s) == AsciiBytes(t) <==> s == t
  {
    if AsciiBytes(s) == AsciiBytes(t) {
      forall i | 0 <= i < |s|
        ensures s[i] == t[i]
      {
        assert AsciiBytes(s)[i] == AsciiBytes(t)[i];
      }
    }
  }

  /** No two purposes share a tag, so the four digest domains are separated. */
  lemma {:induction false} TagsDistinct(p: Purpose, q: Purpose)
    ensures Tag(p) == Tag(q) <==> p == q
  {
    TagTextIsAscii(p);
    TagTextIsAscii(q);
    AsciiBytesInjective(TagText(p), TagText(q));
    if p != q {
      assert TagText(p)[5] != TagText(q)[5];
    }
  }
}
