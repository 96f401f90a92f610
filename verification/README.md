# Sighash cache of a Zcash transaction

This project is a Dafny model of `hashcache.go`. That file builds the three cached
intermediate digests used to sign a transaction under BIP 143 as adapted by
ZIP 143:

- `hashPrevOuts` covers every outpoint the transaction spends;
- `hashSequence` covers every input sequence number;
- `hashOutputs` covers every output.

Each calculator walks the inputs or outputs in order and appends a fixed byte
encoding to one buffer. It then hashes that buffer with BLAKE2b under a 16-byte
personalization tag. `NewTxSigHashes` runs the three calculators in order and
returns at the first error.

The model has one module per concern:

- `Bytes` (bytes.dfy): bytes, `uint32`, 32-byte hashes, and the little-endian
  encoding written by `binary.LittleEndian.PutUint32` with its decoder.
- `Serial` (serial.dfy): in-order concatenation of per-element encodings. This
  is the shape all three calculators share.
- `Personalization` (personalization.dfy): the four tags as a closed
  enumeration, converted to bytes as Go's `[]byte(s)` does.
- `Wire` (wire.dfy): the transaction view (`OutPoint`, `TxIn`, `TxOut`,
  `MsgTx`) and the 36-byte outpoint record.
- `Preimage` (preimage.dfy): the three buffers, decoders for the two
  fixed-width buffers, and their layout, round-trip, injectivity and
  concatenation lemmas.
- `HashCache` (hashcache.dfy): the three calculators and `NewTxSigHashes`.

The hash function and the per-output wire encoder are foreign code. They are
parameters of the model:

- `hash: Hasher` maps a buffer and a tag to a 32-byte digest or a `HashError`;
- `writeTxOut: OutputWriter` maps an output to its bytes.

No property depends on what either one computes.

`NewTxSigHashes` has named results and returns with a bare `return` as soon as a
calculator fails (hashcache.go:21, 27-29). So on an error it hands back the
partly filled cache together with the error, not all or nothing. The model
does the same. The fields of the calculators that had already succeeded keep
their digests, and the failing field and every later field keep the zero hash.

## Model

| member | source | states |
|---|---|---|
| Bytes.ZeroHash | hashcache.go:22 | the zero value of a freshly allocated cache field: 32 zero bytes |
| Bytes.LeValueBound | hashcache.go:61-62 | a value read from n little-endian bytes is below 256^n, so four bytes always read as a uint32 |
| Bytes.LeValueOfLeBytes | hashcache.go:61-62 | a value below 256^n is read back unchanged from its n little-endian bytes |
| Bytes.LeBytesOfLeValue | hashcache.go:61-62 | reading n bytes and writing the value back as n little-endian bytes gives the same bytes |
| Bytes.Uint32ToBytes | hashcache.go:61-62 | `PutUint32` writes exactly four bytes, and reading them back least significant byte first gives the original uint32 |
| Bytes.BytesRoundTrip | hashcache.go:61-62 | every four-byte string is the encoding of the value it decodes to, so the little-endian encoding is a bijection onto four-byte strings |
| Bytes.Uint32ToBytesInjective | hashcache.go:78-79 | two uint32 values have the same four bytes exactly when they are equal |
| Bytes.LittleEndianExamples | hashcache.go:78-79 | the least significant byte comes first: 1 is `01 00 00 00`, 0x04030201 is `01 02 03 04`, 0xff000000 is `00 00 00 ff` |
| Personalization.AsciiBytesInjective | hashcache.go:66 | Go's `[]byte(s)` on ASCII text keeps every character as one byte, so two ASCII texts convert to the same bytes exactly when they are equal |
| Personalization.Tag | hashcache.go:13-16 | every personalization tag is 16 bytes long |
| Personalization.TagTextIsAscii | hashcache.go:13-16 | every tag text is 16 ASCII characters |
| Personalization.TagsDistinct | hashcache.go:13-16 | two purposes share a tag exactly when they are the same purpose, because the four tag texts differ and the byte conversion keeps them apart |
| Wire.OutPointBytes | hashcache.go:57-63 | an outpoint record is 36 bytes: the 32 id bytes verbatim, then the index in little-endian order |
| Wire.DecodeOutPoint | hashcache.go:57-63 | every 36-byte string decodes to an outpoint whose record is that string |
| Wire.OutPointRoundTrip | hashcache.go:57-63 | decoding an outpoint's record gives the outpoint back |
| Serial.ConcatAppend | hashcache.go:52-64 | writing two lists one after the other into one buffer gives the two buffers joined |
| Serial.ConcatLength | hashcache.go:53-64 | with fixed-width records the buffer holds w bytes per element |
| Serial.ConcatAt | hashcache.go:93-95 | element i's encoding appears verbatim, right after the bytes written for the elements before it |
| Serial.ConcatAtFixed | hashcache.go:53-64 | with fixed-width records element i takes up bytes [w·i, w·i+w) |
| Preimage.DecodePrevOuts | hashcache.go:52-64 | the outpoints decoder accepts a buffer exactly when its length is a multiple of 36, and then returns length/36 outpoints |
| Preimage.DecodeEncodeOutPoints | hashcache.go:52-64 | decoding the concatenated records of a list of outpoints gives that list back |
| Preimage.PrevOutsRoundTrip | hashcache.go:52-64 | decoding the prevouts preimage gives back the inputs' outpoints (id and index) in input order |
| Preimage.DecodePrevOutsSound | hashcache.go:52-64 | every buffer the decoder accepts is the encoding of the outpoints it returns |
| Preimage.PrevOutsLayout | hashcache.go:53-64 | the prevouts preimage is 36·n bytes; for input i, bytes [36i, 36i+32) are its outpoint id and bytes [36i+32, 36i+36) are its index in little-endian order |
| Preimage.PrevOutsPreimageInjective | hashcache.go:53-64 | two input lists give the same prevouts preimage exactly when they spend the same outpoints in the same order, so order and every outpoint field matter and no other input field does |
| Preimage.PrevOutsAppend | hashcache.go:52-64 | the prevouts preimage of joined input lists is the two preimages joined; zero inputs give the empty buffer |
| Preimage.DecodeSequences | hashcache.go:76-81 | the sequence decoder accepts a buffer exactly when its length is a multiple of 4, and then returns length/4 values |
| Preimage.DecodeEncodeUint32s | hashcache.go:76-81 | decoding the concatenated little-endian encodings of a list of uint32 values gives that list back |
| Preimage.SequenceRoundTrip | hashcache.go:76-81 | decoding the sequence preimage gives back the inputs' sequence numbers in input order |
| Preimage.DecodeSequencesSound | hashcache.go:76-81 | every buffer the sequence decoder accepts is the encoding of the values it returns |
| Preimage.SequenceLayout | hashcache.go:76-81 | the sequence preimage is 4·n bytes, and bytes [4i, 4i+4) are input i's sequence number in little-endian order |
| Preimage.SequencePreimageInjective | hashcache.go:77-81 | two input lists give the same sequence preimage exactly when their sequence numbers agree in order |
| Preimage.SequenceAppend | hashcache.go:76-81 | the sequence preimage of joined input lists is the two preimages joined; zero inputs give the empty buffer |
| Preimage.OutputsLayout | hashcache.go:92-95 | each output's wire encoding appears verbatim in the outputs preimage, right after the encodings of the outputs before it |
| Preimage.OutputsAppend | hashcache.go:92-95 | the outputs preimage of joined output lists is the two preimages joined; zero outputs give the empty buffer |
| Preimage.OutputsSplit | hashcache.go:92-95 | cutting the output list at any point and joining the two buffers gives the buffer of the whole list |
| HashCache.CalcHashPrevOuts | hashcache.go:51-67 | the digest is the hash, under the prevouts tag, of a buffer that decodes to exactly the transaction's outpoints in input order |
| HashCache.CalcHashSequence | hashcache.go:75-84 | the digest is the hash, under the sequence tag, of a buffer that decodes to exactly the inputs' sequence numbers in input order |
| HashCache.CalcHashOutputs | hashcache.go:91-98 | the digest is the hash, under the outputs tag, of the buffer of any leading part of the outputs followed by the buffer of the rest; with no outputs, of the empty buffer |
| HashCache.NewTxSigHashes | hashcache.go:21-43 | succeeds exactly when all three calculators succeed, and then holds their three digests. Otherwise it returns the first failing calculator's error; earlier fields keep their digests, and the failing and later fields stay zero |
| HashCache.PrevOutsFailureStops | hashcache.go:27-29 | once the prevouts hash fails, the sequence and outputs calls do not affect the result: any hash that answers the prevouts call the same way, with any output writer, gives the same cache and error |
| HashCache.SequenceFailureStops | hashcache.go:34-36 | once the sequence hash fails, the outputs call does not affect the result: any hash that answers the first two calls the same way, with any output writer, gives the same cache and error |
| HashCache.CalculatorDomainsSeparated | hashcache.go:66-97 | no two calculators ever make the same hash call, whatever transactions they are given, because their tags differ |
| HashCache.EmptyCollections | hashcache.go:51-98 | with no inputs the prevouts and sequence calculators hash the empty buffer, and with no outputs the outputs calculator does; only the hash itself can fail |
| HashCache.SequenceEditIsolated | hashcache.go:51-98 | changing only sequence numbers leaves the prevouts and outputs digests unchanged, and changes the sequence preimage exactly when some sequence number changes |
| HashCache.OutPointEditIsolated | hashcache.go:51-98 | changing only outpoints leaves the sequence and outputs digests unchanged, and changes the prevouts preimage exactly when some outpoint changes |
| HashCache.OutputsEditIsolated | hashcache.go:51-98 | changing only the outputs leaves both input digests unchanged |
| HashCache.CacheDependsOnlyOnHashedFields | hashcache.go:21-43 | two transactions with the same outpoints, sequence numbers and outputs get the same cache, errors included; signature scripts play no part |

## Left out

- `blake2bHash` is not part of this model. It is the parameter `hash`, and no property of it is assumed. In particular there is no collision resistance, so order and field sensitivity are proved for the preimages, not for the digests.
- `wire.WriteTxOut` is not part of this model. It is the parameter `writeTxOut`, so the outputs preimage is only known to be the in-order concatenation of its results. The source ignores the error `WriteTxOut` returns; a write to an in-memory buffer cannot fail, so the model's writer is total.
- HashCache.NewTxSigHashes: when a calculator fails, the model leaves that calculator's field at the zero hash. In the source, the field gets whatever digest `blake2bHash` returns alongside the error, and that code is not part of this model.
- The `ZcashJSplitsHash` tag is modelled as the `JoinSplits` purpose, but no calculator uses it, just as in the source.
- The commented-out debug prints and the `os.Exit` call are not modelled.
- The three digests could be computed in parallel. The source computes them one after another, and so does the model.
- The `txscript.TxSigHashes` and `chainhash.Hash` library types are modelled as a record of three 32-byte digests and as a 32-byte sequence.
- Transaction fields the core never reads are not modelled: version, lock time, expiry height, witnesses and shielded parts.
- Golden test vectors need the real BLAKE2b and are not modelled.
- Go's nil values are not modelled. The source panics when `tx` or its embedded message is nil (hashcache.go:53, 77, 93), when an entry of `tx.TxIn` is nil (hashcache.go:57, 79), and when a nil entry of `tx.TxOut` reaches `wire.WriteTxOut` (hashcache.go:94). The model's datatypes cannot be nil, so these panics have no counterpart.
- There is no determinism lemma. Every member is a pure Dafny function, so equal inputs always give equal results.
