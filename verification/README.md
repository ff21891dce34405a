# Wallet gateway models

Dafny models of the parts of the gateway where a mistake costs money or breaks agreement, with proofs about them. Five
machines are modelled, each in the form its code has: cursors over byte sequences, loops that fill buffers, objects
whose methods update their stored state, and state machines for what runs concurrently.

1. **Wire codec** (`Varint`, `Wire`, `Grammar`, `WireLaws`, `Invoice`, `Reading`, `InvoiceCodec`, `Address`). Hand-written
   protobuf readers and writers for invoices and address payloads, following the sections "Base 128 Varints", "Last One
   Wins" and "Field Order" of the Protocol Buffers Encoding guide. The loops are proved equal to a small-step specification
   of field rounds; about the specification: which byte strings are accepted and as what, told by a grammar on the bytes
   alone, exact round trips, unknown fields, field order, last one wins, prefix determination.
2. **Canonical hashing** (`HashTree`, `HashMeaning`, `Hashing`, `HashWalk`, `Hasher`, `HashUniqueness`, `HashNormal`). The
   recursive hasher over typed messages. Maps are walked in any order. Every run is proved to agree with a meaning that does
   not mention order; equal digests are proved to come from messages with one normal form, defined on the messages without
   hashing, or from two different strings that were both hashed and have one digest. The maps whose outcome does depend on
   the order are determined exactly. The hash is a parameter and is not assumed injective.
3. **Threshold signing** (`FrostSigner`, `FrostLocking`, `FrostFlows`, `FrostAggregator`, `FrostAgreement`,
   `FrostDkgRuns`, `FrostDkgSoundness`, `FrostSessions`, `FrostSoundness`, `FrostKeys`, `FrostNonces`). Signers and the aggregator that
   drives them through key generation and signing (section 5 of RFC 9591). The classes are proved to take the steps of
   functions on the whole state; about these: when exactly a flow succeeds and with what state, exclusion in round 1 under
   every interleaving, what every interleaved successful key generation has agreed on, isolation of interleaved signing
   flows, that signers' and aggregator's keys fit under every tweak, and exactly when nonces sign twice.
4. **Outputs and exits** (`Utxo`, `UtxoLaws`, `UtxoConcurrency`, `ExitTransaction`, `ExitFlow`, `Ledger`). Selection of
   unspent outputs, concurrent selections under row locks, the exit transaction with its runestone, the whole exit
   handler and the books over all runs.
5. **Bridge trigger** (`DepositTrigger`, `DepositTriggerLaws`). Notifications and verifications with every storage access
   as a step of its own.

`Wrappers.dfy` has the option and result types, machine-width integers and big-endian bytes.

What the proofs show to be otherwise than one might expect:

- An invoice decodes back to itself exactly when its memo is shorter than 2^32 bytes and its expiry has no leap second
  (`Invoice.RoundTrip`): lengths are cast to 32 bits and nanoseconds are clamped on reading.
- The change of an exit is recorded at output 1 of the transaction while output 2 pays it. The record names an output that
  pays the recorded address exactly when exit and change address are the same (`ExitTransaction.RecordedChangeIff`).
- An output that has been given out can be given out again exactly when its row has been made unspent again, for example
  by writing over it (`UtxoConcurrency.GivenAgainIff`).
- A notification for an output recorded without a verification, such as the change of an exit, writes its response before
  any reset, and no other does (`DepositTriggerLaws.UnverifiedUpdateIff`); it can trigger a bridge alone exactly when it
  confirms and every other stored response is a confirmation (`DepositTriggerLaws.SoloSendsIff`).
- A map can both fail and hash to nothing, as its walk goes, exactly when some live entry may fail and some live entry has
  no digest (`HashWalk.MapRaceIff`; `HashUniqueness.RaceExists` is a map of `Value`s with two such walks).
- One draw of signing randomness is used for two shares exactly when two round-2 calls for one session overlap
  (`FrostNonces.SignsTwiceIff`): the session is read, signed for and written back without a lock.

Opaque functions stand for what the program calls in libraries: the hash, UTF-8 and key checks, key generation, signing and
aggregation, signature hashes, broadcasting. Randomness is an argument. Where a theorem needs a library fact it is a
hypothesis: `Wire.Lawful` (keys that are points parse back to what was serialized, in 33 bytes), which the compressed form
of section 2.3.3 of SEC 1 is proved to meet on every curve over 256 bits, `FrostAgreement.MakesForOthers` (one package
for each other participant), `FrostKeys.TweaksAlike` and `FrostKeys.GeneratesAlike` (tweaking keeps a key with its public
key, key generation makes keys of the public key it returns) and `ExitFlow.Checks` (what is signed under an address's share
and nonce passes the network's check against that address).

## Model

| member | source | states |
|---|---|---|
| Varint.WriteVarint | crates/spark-invoice/src/proto.rs:46-62 | the shift-and-push loop appends exactly the varint of the value |
| Varint.ReadVarint | crates/spark-invoice/src/proto.rs:141-169 | the accumulator loop returns the little-endian base-128 value modulo the width and advances by the bytes up to the first without continuation bit, or fails as the specification does, never leaving the buffer |
| Varint.LengthIsFirstEnd | crates/spark-invoice/src/proto.rs:141-169 | a read succeeds iff one of the first 5 (10) bytes lacks its continuation bit; short and over-long input give the two different errors, each exactly when it should |
| Varint.EncodeIsVarint | crates/spark-invoice/src/proto.rs:46-62 | what is written is one varint, with the value written |
| Varint.EncodeIsMinimal | crates/spark-invoice/src/proto.rs:46-62 | no varint of the same value is shorter than the one written |
| Varint.ReadBack | crates/spark-invoice/src/proto.rs:46-169 | reading what was written, before any further bytes, gives the value back and takes exactly the written length, at most 5 or 10 bytes |
| Varint.ReadExtends | crates/spark-invoice/src/proto.rs:141-169 | a successful read does not depend on bytes after those it takes |
| Grammar.SkipIff | crates/spark-invoice/src/proto.rs:196-220 | skipping takes n bytes iff the first n bytes are the body of a field of that wire type: one whole varint of at most ten bytes, eight bytes, a varint length and that many bytes, or four bytes |
| Grammar.SkipErrors | crates/spark-invoice/src/proto.rs:196-220 | the error is truncation, overflow or a bad wire type, each exactly when the bytes say so |
| WireLaws.UnknownFieldIgnored | crates/spark-invoice/src/lib.rs:52-356 | an unknown field, being a tag and the body its wire type asks for, inserted at any field boundary of any input changes neither the decoded value nor the error, for each of the decoders |
| WireLaws.PrefixDetermined | crates/spark-invoice/src/lib.rs:52-356 | a decoder that succeeds having taken n bytes gives the same value and n on those n bytes alone |
| WireLaws.CollectPermuted | crates/spark-invoice/src/lib.rs:262-334 | field updates of distinct variables have the same effect in every order |
| Wire.Sec1IsLawful | crates/spark-invoice/src/lib.rs:213 | a library that serializes keys in SEC 1 compressed form and parses that form back has every point survive the trip in 33 bytes |
| Wire.LawfulExists | crates/spark-invoice/src/lib.rs:213 | with any text and date checks there is such a library, for which every pair of parity and coordinate is a point |
| Invoice.RoundTrip | crates/spark-invoice/src/lib.rs:197-356 | every representable invoice decodes back to itself, taking all bytes, iff its memo is shorter than 2^32 bytes and its nanoseconds are at most 999999999 |
| Invoice.DecodedIsEncodable | crates/spark-invoice/src/lib.rs:251-356 | on any input, a decoded invoice meets that condition |
| Invoice.AnyFieldOrder | crates/spark-invoice/src/lib.rs:262-334 | every rearrangement of an encoded invoice's fields decodes to that invoice |
| Invoice.LastOneWins | crates/spark-invoice/src/lib.rs:262-334 | one more field of any kind after an encoded invoice replaces that field's value and only it, fields 3 and 4 sharing the payment |
| Invoice.TrimmedIsLeast | crates/spark-invoice/src/proto.rs:66-75 | no byte string with the same big-endian value is shorter than the amount written |
| Reading.InvoiceIff | crates/spark-invoice/src/lib.rs:251-356 | a byte string decodes to an invoice, taking n bytes, iff those are whole fields up to the end or a zero tag, every known field has the wire type, length and content it must have, and the invoice is the last value of each, with version, identifier and a payment there |
| Reading.MissingFieldIff | crates/spark-invoice/src/lib.rs:336-339 | of the three mandatory fields the first that is missing is reported |
| Reading.TokensIff | crates/spark-invoice/src/lib.rs:109-166 | the same exact reading of token payments |
| Reading.SatsIff | crates/spark-invoice/src/lib.rs:52-82 | the same of sats payments |
| Reading.InstantIff | crates/spark-invoice/src/proto.rs:230-269 | the same of timestamps, missing parts zero and nanoseconds clamped into a second |
| Reading.EncodingIs | crates/spark-invoice/src/lib.rs:197-248 | an encoding is one field each for version, identifier, then memo, key and expiry if there, then the payment, in this order, with these tags, each in the shortest form |
| Reading.ZerosLeftOut | crates/spark-invoice/src/proto.rs:95-105 | a timestamp is written without its zero fields and with nothing else |
| InvoiceCodec.WriteU128 | crates/spark-invoice/src/proto.rs:66-75 | writes the big-endian bytes without leading zeros, length-prefixed |
| InvoiceCodec.WriteTimestamp | crates/spark-invoice/src/proto.rs:95-105 | writes the non-zero fields of a timestamp, negative seconds sign-extended |
| InvoiceCodec.EncodeSatsPayment | crates/spark-invoice/src/lib.rs:42-50 | writes the specified fields |
| InvoiceCodec.EncodeTokensPayment | crates/spark-invoice/src/lib.rs:96-107 | writes the specified fields |
| InvoiceCodec.EncodeInvoiceProto | crates/spark-invoice/src/lib.rs:197-248 | writes the specified chunks in order, nested messages length-prefixed |
| InvoiceCodec.ReadBytes | crates/spark-invoice/src/proto.rs:181-186 | takes exactly the bytes asked for or reports truncation |
| InvoiceCodec.SkipField | crates/spark-invoice/src/proto.rs:196-220 | passes over exactly the body of one field of the wire type, and fails, with the specified error, only where there is none |
| InvoiceCodec.DecodeSatsProto | crates/spark-invoice/src/lib.rs:52-82 | the cursor loop, strictly advancing, computes the specified decoding of every byte string |
| InvoiceCodec.DecodeTokensProto | crates/spark-invoice/src/lib.rs:109-166 | the same for token payments |
| InvoiceCodec.DecodeTimestampProto | crates/spark-invoice/src/proto.rs:230-261 | the same for timestamps |
| InvoiceCodec.DecodeInvoiceProto | crates/spark-invoice/src/lib.rs:251-356 | the same for invoices |
| Address.EncodeProto | crates/spark-address/src/lib.rs:190-212 | writes key, optional invoice and optional signature as specified |
| Address.DecodeProto | crates/spark-address/src/lib.rs:220-274 | computes the specified decoding of every byte string without leaving it |
| Address.TruncatedInvoiceFails | crates/spark-invoice/src/lib.rs:197-356 | no proper prefix of an encoded invoice decodes |
| Address.AddressRoundTrip | crates/spark-address/src/lib.rs:190-274 | a payload decodes back to itself iff its invoice is encodable within 2^32 bytes and its signature is shorter than that |
| Address.PayloadIff | crates/spark-address/src/lib.rs:220-274 | a byte string decodes to a payload iff it is the key with tag and length byte, then an invoice or a signature where their tag bytes say so, each with a whole length and content, then anything |
| HashTree.DigestDeterminesTree | crates/proto-hasher/src/hashing.rs:126-344 | equal digests come from canonical trees that are equal up to the kind of dictionary, or from two different strings, both hashed for them, with one digest |
| HashMeaning.KeysDistinct | crates/proto-hasher/src/hashing.rs:306-330 | different keys of one map are hashed as different scalars |
| Hashing.SortEntries | crates/proto-hasher/src/hashing.rs:331-333 | sorting entries keeps them and orders them |
| Hashing.RankIsByteOrder | crates/proto-hasher/src/hashing.rs:331-333 | the number that ranks an entry orders key digests as their bytes do |
| Hashing.SortedUnique | crates/proto-hasher/src/hashing.rs:198-220 | without ties there is one sorted arrangement |
| Hashing.DictDigest | crates/proto-hasher/src/hashing.rs:306-344 | feeding the sorted entries gives the dictionary's digest, in whatever order they were pushed |
| Hasher.HashScalar | crates/proto-hasher/src/hashing.rs:126-195 | hashes the letter of the type and then one ASCII digit, eight big-endian bytes or the bytes themselves |
| Hasher.HashValue | crates/proto-hasher/src/hashing.rs:43-124 | every run agrees with the value's meaning |
| Hasher.HashMessage | crates/proto-hasher/src/google_protobuf.rs:40-81 | every run agrees with the message's meaning, well-known types dispatched by name |
| Hasher.HashTimestamp | crates/proto-hasher/src/hashing.rs:21-41 | seconds and then nanoseconds, as a list, zero where not stored |
| HashNormal.TimestampsIff | crates/proto-hasher/src/google_protobuf.rs:118-122 | two timestamps have one tree iff their seconds and their nanoseconds are equal |
| Hasher.HashPlainMessage | crates/proto-hasher/src/hashing.rs:198-242 | set, non-default fields whose value has a digest, by number, in whatever order they are visited |
| Hasher.HashField | crates/proto-hasher/src/hashing.rs:261-285 | by cardinality |
| Hasher.HashList | crates/proto-hasher/src/hashing.rs:287-304 | nothing for the empty list; items without a digest are left out |
| Hasher.HashMap | crates/proto-hasher/src/hashing.rs:306-344 | nulls are passed over; one entry without a digest drops the whole map; any walking order; every result is that of a walk over the live entries |
| Hasher.HashStruct | crates/proto-hasher/src/google_protobuf.rs:124-170 | an entry without a digest is dropped alone; any walking order |
| Hasher.HashListMessage | crates/proto-hasher/src/google_protobuf.rs:172-187 | nothing when no values are stored |
| Hasher.HashOneof | crates/proto-hasher/src/google_protobuf.rs:189-243 | by the member that is set; null and unset fail |
| Hasher.HashProto | crates/proto-hasher/src/lib.rs:34-60 | refuses bare scalars exactly, refuses what hashes to nothing, and otherwise gives the message's digest |
| HashUniqueness.EqualDigestsEqualTrees | crates/proto-hasher/src/hashing.rs:43-344 | two well-typed messages of one type with equal digests have equal canonical trees, or a collision among hashed strings |
| HashNormal.NormalFormFits | crates/proto-hasher/src/hashing.rs:43-344 | a message fails in every run iff its normal form is invalid, and hashes to nothing iff it is absent |
| HashNormal.TreesIffNormal | crates/proto-hasher/src/hashing.rs:43-344 | two well-typed messages of one type have equal canonical trees iff they have one normal form: the messages without zeros, nulls and parts that have no digest, with one zero and one NaN, and timestamps and wrappers filled in |
| HashNormal.EqualDigestsEqualMessages | crates/proto-hasher/src/hashing.rs:43-344 | so two of them hashed to one digest have one normal form, or there is a collision among hashed strings |
| HashNormal.EqualMessagesEqualDigests | crates/proto-hasher/src/hashing.rs:43-344 | and two with one normal form are hashed to one digest in all runs that do not fail, unless two keys of one map have equal digests |
| HashUniqueness.ClashCollides | crates/proto-hasher/src/hashing.rs:331-333 | two keys of one dictionary with equal digests are such a collision |
| HashUniqueness.OrderDoesNotMatter | crates/proto-hasher/src/hashing.rs:306-344 | two runs on one message that do not fail give one result, or two keys of one dictionary have equal digests |
| HashWalk.OrderMattersIff | crates/proto-hasher/src/hashing.rs:311-325 | for any answers of a map's entries, two orders end differently (error, nothing, all kept) iff some entry fails and some entry has no digest |
| HashWalk.MapRaceIff | crates/proto-hasher/src/hashing.rs:306-344 | for every map, one walk can fail and another end with nothing iff some live entry may fail and some live entry hashes to nothing, and these are the maps whose meaning is nothing or failure |
| HashUniqueness.RaceExists | crates/proto-hasher/src/hashing.rs:318-323 | a map of `Value`s that follows its schema, and two walks over it that differ in order alone: one fails, one ends with nothing |
| HashUniqueness.DefaultsIgnored | crates/proto-hasher/src/hashing.rs:222-242 | storing a default changes neither the hashed fields nor the meaning |
| FrostSigner.Signer.LockDkgShareId | crates/frost/src/signer.rs:41-48 | takes the lock or fails unchanged |
| FrostSigner.Signer.UnlockDkgShareId | crates/frost/src/signer.rs:50-57 | releases the lock or fails unchanged |
| FrostSigner.Signer.DkgRound1 | crates/frost/src/signer.rs:59-97 | the whole new state and answer: fresh shares only, the lock kept on success and on a library error |
| FrostSigner.Signer.DkgRound2 | crates/frost/src/signer.rs:99-133 | the whole new state and answer |
| FrostSigner.Signer.DkgFinalize | crates/frost/src/signer.rs:135-175 | the whole new state and answer, from the stored round-1 packages, releasing the lock |
| FrostSigner.Signer.SignRound1 | crates/frost/src/signer.rs:177-221 | the whole new state and answer |
| FrostSigner.Signer.SignRound2 | crates/frost/src/signer.rs:223-281 | the whole new state and answer: only for the recorded message and unused nonces, signed with the key under the session's tweak and, with the tap flag, the one for taproot on top |
| FrostLocking.AcceptedOnce | crates/frost/src/signer.rs:41-97 | under every interleaving of lock, read, write and unlock steps and storage errors, a signer accepts round 1 at most once per share |
| FrostLocking.OneFlowPasses | crates/frost/src/aggregator.rs:38-90 | so at most one flow per share gets past round 1 |
| FrostLocking.AcceptanceBlocksOthers | crates/frost/src/aggregator.rs:214-238 | once a signer has accepted one flow, no other flow on the share gets past round 1, then or ever after |
| FrostLocking.AloneIsTheHandler | crates/frost/src/signer.rs:59-97 | the steps of one uninterrupted call do what the handler does |
| FrostAggregator.Gather | crates/frost/src/aggregator.rs:69-71 | the values of all answers, or the first error in order of identifier |
| FrostAggregator.Regroup | crates/frost/src/aggregator.rs:117-124 | the nested loop builds the transpose of the responses, or stops at the first error |
| FrostAggregator.TransposedIsFiling | crates/frost/src/aggregator.rs:117-124 | the transpose is exactly the map that files under j, from i, what i made for j, with no empty file |
| FrostAggregator.Aggregator.DkgRound1 | crates/frost/src/aggregator.rs:38-90 | calls every signer object and ends in the state of the specified round |
| FrostAggregator.Aggregator.DkgRound2 | crates/frost/src/aggregator.rs:93-145 | the same, each signer being sent the packages of the others |
| FrostAggregator.Aggregator.DkgFinalize | crates/frost/src/aggregator.rs:148-212 | the same; no signer is called when packages are missing, and unequal public keys fail |
| FrostAggregator.Aggregator.RunDkgFlow | crates/frost/src/aggregator.rs:214-238 | the three rounds in order |
| FrostAggregator.Aggregator.SignRound1 | crates/frost/src/aggregator.rs:240-301 | calls every signer object and ends in the state of the specified round |
| FrostAggregator.Aggregator.SignRound2 | crates/frost/src/aggregator.rs:303-388 | the same, storing only a signature that verifies |
| FrostAggregator.Aggregator.RunSigningFlow | crates/frost/src/aggregator.rs:390-420 | both rounds in order |
| FrostAgreement.DkgFlowIff | crates/frost/src/aggregator.rs:214-238 | key generation succeeds with a public key iff the share is prepared, no signer knows it, there is a signer, and the protocol transcript on the same randomness gives that key at everybody; the end state is given in full |
| FrostAgreement.RoutedToAll | crates/frost/src/aggregator.rs:93-180 | every signer is sent the round-1 packages of exactly the others and, from each other signer, the package that one made for it |
| FrostAgreement.SigningFlowIff | crates/frost/src/aggregator.rs:390-420 | signing succeeds with a signature iff everybody commits and signs the requested message under the request's tweak and tap flag and the aggregate verifies under the public key tweaked alike; the end state is given in full |
| FrostDkgSoundness.RunKeeps | crates/frost/src/aggregator.rs:38-238 | in every interleaving of the steps of any number of key-generation flows, each signer that accepted a flow is in the phase, and the aggregator's record is the one, that the flow's own log says; no signer has accepted two live flows on one share |
| FrostDkgSoundness.SuccessIsProtocol | crates/frost/src/aggregator.rs:214-238 | so a flow that has succeeded has run the protocol on the randomness it drew, packages routed as it prescribes, and from then on all signers hold its keys and the aggregator the public key it returned |
| FrostDkgSoundness.FinalizeMatches | crates/frost/src/signer.rs:135-175 | in every interleaving, when a flow asks a signer to finalize, the packages stored in round 2 are those the request carries: the answer is the library's part 3 on what was sent, and success stores the key and releases the lock |
| FrostDkgSoundness.OneSuccess | crates/frost/src/aggregator.rs:214-238 | no share has two flows that all signers have accepted and that have not failed |
| FrostSessions.Isolation | crates/frost/src/aggregator.rs:240-420 | for any number of interleaved signing flows and key-generation handlers, what is stored for a flow on a finalized share with its own session, and its result, are what its own steps alone give |
| FrostSessions.RunFinal | crates/frost/src/signer.rs:59-175 | a finalized share stays as it is in every run |
| FrostSoundness.RunSound | crates/frost/src/aggregator.rs:303-388 | in every run, each answer collected for a flow is the library's on the flow's own draws, tweak, tap flag and message |
| FrostSoundness.InterleavedIsSequential | crates/frost/src/aggregator.rs:390-420 | an interleaved flow that succeeds returns what the sequential flow returns from the initial state on the randomness it used, and meets the signing specification |
| FrostKeys.KeysFit | crates/frost/src/signer.rs:253-261 | for every tweak and tap flag, the key a signer signs with belongs to the public key that the aggregator tweaks alike |
| FrostKeys.FlowSignaturesFit | crates/frost/src/aggregator.rs:303-420 | every share of a successful flow was made under a key belonging to the key the aggregate was verified with, which is the public key under the request's tweak and, with the tap flag, the one for taproot on top; its nonces under a key belonging to the public key before taproot |
| FrostKeys.InterleavedSignaturesFit | crates/frost/src/aggregator.rs:303-420 | the same of a successful flow in any interleaving |
| FrostKeys.GeneratedKeysFit | crates/frost/src/aggregator.rs:214-238 | and after a key generation that succeeded in any interleaving the signers' keys do belong to the aggregator's public key |
| FrostNonces.SignsTwiceIff | crates/frost/src/signer.rs:223-281 | for any requests to a signer, round 2 reading and writing in separate steps, some draw of randomness is behind two signature shares iff two round-2 calls sign for one session with nothing stored for it between them |
| FrostNonces.NoncesSignOnce | crates/frost/src/signer.rs:177-281 | so each draw is behind at most one share if no round-2 call signs for a session while another has signed for it and not yet stored |
| FrostNonces.TwoCallsSign | crates/frost/src/signer.rs:238-271 | from any state, two calls for a session that would each be answered are both answered, from one draw, when the second reads before the first stores |
| FrostNonces.RoundTwoAlone | crates/frost/src/signer.rs:223-281 | the two steps of one uninterrupted call do what the handler does |
| FrostNonces.SharesConsume | crates/frost/src/signer.rs:223-281 | every share returned consumes one draw, and was made from the stored nonces for the recorded message under the recorded tweak |
| Utxo.UtxoTable.InsertUtxo | gateway/crates/local_db_store/src/schemas/utxo_storage.rs:81-107 | inserts or overwrites one row, amounts through signed columns |
| Utxo.UtxoTable.UpdateStatus | gateway/crates/local_db_store/src/schemas/utxo_storage.rs:110-130 | changes one status or reports a missing row |
| Utxo.UtxoTable.CandidatesForUpdate | gateway/crates/local_db_store/src/schemas/utxo_storage.rs:279-302 | exactly the unspent unlocked rows of the rune, ascending by amount |
| Utxo.UtxoTable.MarkUtxosAsSpent | gateway/crates/local_db_store/src/schemas/utxo_storage.rs:305-343 | marks exactly the given rows and returns them in any order |
| Utxo.UtxoTable.SelectUtxosForAmount | gateway/crates/local_db_store/src/schemas/utxo_storage.rs:156-191 | the summing loop picks the shortest prefix that reaches the target and marks it, or changes nothing |
| Utxo.CandidatesExactly | gateway/crates/local_db_store/src/schemas/utxo_storage.rs:279-302 | the candidates are, as stored, exactly the rows of the rune that are neither spent nor locked |
| Utxo.MarkedExactly | gateway/crates/local_db_store/src/schemas/utxo_storage.rs:305-343 | marking sets the status of exactly the given rows and no other column |
| UtxoLaws.SelectionIff | gateway/crates/local_db_store/src/schemas/utxo_storage.rs:164-179 | funds are short iff all eligible rows together are; no overflow while amounts and target are below 2^63 |
| UtxoLaws.SelectionIsLeast | gateway/crates/local_db_store/src/schemas/utxo_storage.rs:164-179 | the number selected is the least k such that every choice of k eligible rows reaches the target, and the excess is below a selected amount |
| UtxoLaws.MarkingTakes | gateway/crates/local_db_store/src/schemas/utxo_storage.rs:305-343 | marking takes the selected total out of its rune's unspent total and nothing out of others |
| UtxoConcurrency.NoDoubleSelection | gateway/crates/local_db_store/src/schemas/utxo_storage.rs:156-191 | under every interleaving of selections and other writers, no output is returned by two successful selections unless a writer makes its row unspent |
| UtxoConcurrency.GivenAgainIff | gateway/crates/local_db_store/src/schemas/utxo_storage.rs:81-191 | in every reachable state, an output that has been given out and is not locked (its amount not zero) can be given to another transaction without a further reset iff its row is unspent again |
| ExitTransaction.CreateRunePartialTransaction | gateway/crates/rune_transfer/src/transfer.rs:32-104 | the loops build the specified inputs, edicts and outputs |
| ExitTransaction.EdictsAddUp | gateway/crates/rune_transfer/src/transfer.rs:65-74 | edict amounts add up to what the transfers ask for |
| ExitTransaction.EdictsPayTheirAddress | gateway/crates/rune_transfer/src/transfer.rs:65-96 | each edict names the output that pays the address its runes are meant for |
| ExitTransaction.AppliedExactly | gateway/crates/rune_transfer/src/transfer.rs:65-81 | applying the edicts in order gives every transfer exactly its runes and leaves the rest |
| ExitTransaction.ExitConserves | gateway/crates/flow_processor/src/routes/exit_spark_flow.rs:67-122 | edicts add up to the selected total, nothing is left unallocated, exit and change outputs hold their amounts |
| ExitTransaction.RecordedChangeIff | gateway/crates/flow_processor/src/routes/exit_spark_flow.rs:162-173 | the recorded change output pays the recorded address iff exit and change address are equal |
| ExitFlow.SignInputs | gateway/crates/flow_processor/src/routes/exit_spark_flow.rs:123-154 | succeeds iff every input has a hash, a known address and a signature; then input i spends and is signed for selected output i - 1, with the share and nonce of its address, and nothing else changes; the signature passes the network's check against that address over the hash of this transaction, this index and that output |
| ExitFlow.CompleteIsUnique | gateway/crates/flow_processor/src/routes/exit_spark_flow.rs:123-154 | a transaction built for the selection and signed on all of it exists only if every input can be signed, and then there is one |
| ExitFlow.CompleteIsAccepted | gateway/crates/rune_transfer/src/transfer.rs:107-127 | whatever check everything signed under an address's share and nonce passes, every input of a signed transaction passes it, for the hash of the transaction's own outpoints and outputs, the input's index, and address and value of the output it spends |
| ExitFlow.ExitAccepted | gateway/crates/flow_processor/src/routes/exit_spark_flow.rs:123-154 | in an exit these are address and value of the row of the table that the input spends |
| ExitFlow.SigningKeepsOthers | gateway/crates/rune_transfer/src/transfer.rs:138-144 | adding one signature invalidates no other |
| ExitFlow.ExitRouter.Handle | gateway/crates/flow_processor/src/routes/exit_spark_flow.rs:21-178 | an exit succeeds iff the deposit is known and complete, the funds suffice, the change gets an address, every input can be signed and the network takes the transaction; it is then selected, signed and recorded as specified; a failure before or in the selection changes nothing, a later one leaves exactly the selection spent, and what becomes of the deposit addresses is given in each case; every input passes the network's check for the row it spends |
| Ledger.BooksBalance | gateway/crates/flow_processor/src/routes/exit_spark_flow.rs:63-173 | over every run of deposits and overlapping exits, unspent, in flight and exited add up to deposited, for every rune |
| Ledger.SettledBooks | gateway/crates/flow_processor/src/routes/exit_spark_flow.rs:63-173 | with no exit in flight, unspent is deposited less exited |
| Ledger.ExitTakesItsAmount | gateway/crates/flow_processor/src/routes/exit_spark_flow.rs:63-173 | one exit takes exactly its amount out of its rune's unspent total and nothing out of others |
| DepositTrigger.New | gateway/crates/local_db_store/src/schemas/deposit_address.rs:95-101 | exactly the given verifiers, each with the given status |
| DepositTrigger.ConfirmedFromTheStart | gateway/crates/local_db_store/src/schemas/deposit_address.rs:95-113 | responses made with a status are all confirmations iff that is a confirmation or there is nobody to respond |
| DepositTrigger.CheckAllVerifiersConfirmed | gateway/crates/local_db_store/src/schemas/deposit_address.rs:103-113 | true iff every stored response is a confirmation |
| DepositTrigger.Aggregator.NotifyRunesDeposit | gateway/crates/deposit_verification/src/aggregator.rs:150-206 | the whole new state and whether it sent: one response written, a send and a confirmed output iff all stored responses are then confirmations |
| DepositTrigger.Aggregator.VerifyRunesDeposit | gateway/crates/deposit_verification/src/aggregator.rs:65-147 | succeeds iff the address is known and every verifier accepts; then every configured verifier, and no other, waits for confirmation, the bridge is stored and the output recorded as pending; the whole state in failure too |
| DepositTrigger.NotifyAlone | gateway/crates/deposit_verification/src/aggregator.rs:150-206 | the steps of one uninterrupted notification do what the method does |
| DepositTrigger.VerifyAlone | gateway/crates/deposit_verification/src/aggregator.rs:65-147 | the same for a verification |
| DepositTriggerLaws.SentAtLeastOnce | gateway/crates/deposit_verification/src/aggregator.rs:150-206 | with every configured verifier confirming after the reset, in any interleaving without errors, a request for the address has been added to those sent before once all have finished |
| DepositTriggerLaws.SentOnlyWhenConfirmed | gateway/crates/deposit_verification/src/aggregator.rs:109-206 | under every interleaving, a notification of a fresh output sends for an address only after a moment at which every configured verifier's stored response was a confirmation |
| DepositTriggerLaws.UpdatesFollowReset | gateway/crates/deposit_verification/src/aggregator.rs:109-206 | for a fresh output no response is written before a verification has reset them and recorded the output |
| DepositTriggerLaws.UnverifiedUpdateIff | gateway/crates/deposit_verification/src/aggregator.rs:150-206 | freshness is what is needed: with no call under way, a notification can write its response before any verification of its output iff the output is already recorded |
| DepositTriggerLaws.SoloSendsIff | gateway/crates/deposit_verification/src/aggregator.rs:150-206 | from any state, a notification can send with no other call iff its output is recorded, it confirms and every other stored response is a confirmation |

## Left out

- The mathematics of key generation, signing, signature hashes, SHA-256, bech32, UTF-8 and secp256k1: opaque functions.
- HTTP, gRPC, configuration, logging and health checks; SQL text and connection pools: tables are maps, a transaction or a single statement is a step.
- `Kind::Float`, 32-bit floats and `FloatValue` in the hasher; doubles are 64-bit patterns.
- Hasher.HashProto: which of several errors of one message is reported is not specified, and errors of a message type that lacks a well-known field are not modelled.
- Varint.ReadVarint: bits are combined by addition; the shifted groups do not overlap.
- InvoiceCodec.DecodeInvoiceProto: cursor arithmetic is unbounded; a buffer of 2^64 bytes does not exist. The range of representable seconds of the date library is a parameter.
- `SparkInvoice::hash`, invoice construction, base-62 tickers, token metadata and the other packages of `crates/lrc20` and `crates/token-identifier`: field-by-field copying, or no injectivity to prove.
- Address human-readable parts and the bech32m envelope of addresses: only the payload inside is modelled.
- FrostDkgSoundness.RunKeeps: a signer's handler is one step here; below that level only round 1, the round that locks, is interleaved (`FrostLocking`). The two steps of round 2 of signing are apart in `FrostNonces` only, for one signer. Two copies of one flow's own round-2 or finalize request racing inside a signer are not modelled: the aggregator sends each once.
- FrostSigner.Signer.SignRound2: the assertion on the message stops the program; the model reports it as an error of the call.
- Restarts of a signer: the lock set is in memory and a restart empties it, while a stored phase outlives it.
- FrostLocking.AcceptedOnce: a storage write that reports an error is taken not to have written.
- UtxoConcurrency.NoDoubleSelection: row order under concurrent updates of amounts is not modelled; no statement changes the amount of an unspent row except the upsert, which waits for locks.
- ExitFlow.ExitRouter.Handle: parsing of stored addresses and identifiers is not modelled, addresses and identifiers being values; a nonce in use only has its status overwritten, which the model does not track.
- Ledger.BooksBalance: deposits and change outputs are outputs not seen before; an exit that fails after its selection stays in flight.
- DepositTrigger.Aggregator.VerifyRunesDeposit: the two lookups of the user and the deposit are one; the verifiers' answers to the watch request are a parameter. The deposit and exit directions over the other chain (`verify_spark_deposit`, `notify_spark_deposit`) repeat this scheme and are not modelled.
- The block indexers, the flow processor's select loop and the address-issuing routes: thin loops around clients and tasks.
