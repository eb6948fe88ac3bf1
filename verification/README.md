# StowQ, verified

StowQ is a brokerless job queue: every state change is a conditional write to an object store,
workers race on it, replies can be lost, and all state is derived from immutable objects. This
project models its core in Dafny and proves what the queue promises.

The parts, and the modules that hold them:

- **The claim, renew and terminal protocol** at store-call granularity (`Protocol`,
  `ProtocolInvariant`, `ProtocolPreservation`, `ProtocolRuns`, `ProtocolTheorems`, `ProtocolOverlap`,
  `ProtocolOrigins`, `ProtocolOutcomes`). A worker is a program counter; `Pending` says which store
  call it may issue and `Resume` is the code between two calls. Any pending call of any worker may be
  served at any time, under the three fault kinds, with any watermark reading, any tail hint, and any
  worker stopping anywhere. Concurrent gathers (`join!`) are up to three calls in flight in any order.
- **The oracle and its refinement** (`Oracle`, `OracleRefinement`), and `JobObjects`,
  `ProtocolAtomic`, `ProtocolHint`, `ProtocolHolders` and `ProtocolEntry`, which tie the two models of
  the core together: an operation of the machine that runs alone and without faults is the atomic
  operation compared with the oracle, but for what a stale hint does to a claim.
- **Canonical CBOR and the record codec** (`Bytes`, `Cbor`, `CborReader`, `CborCodec`,
  `FieldReader`, `Records`, `RecordCodec`, `RecordLaws`, `RecordTheorems`, `DirectCodec`): the
  value codec of section 4.2.1 of RFC 8949, the reference path over value trees, and the direct
  decoder and writer as cursor-driven and appending methods.
- **Keys, listing, tail discovery and the memory store** (`Keys`, `Listing`, `TailDiscovery`,
  `MemoryStore`).
- **Single-worker code under an adversarial environment**: the outcome-unknown resolver
  (`Resolver`), the fault injector (`Injector`), the claim probe, the budget and batched claiming
  (`ProbeTrace`, `Probe`, `Budget`, `ClaimMany`), the watermark (`Watermark`), the chain audit and
  the terminal pass of repair (`Audit`, `Repair`) and garbage collection (`TermEntry`, `Gc`).
- **Arithmetic** (`Arithmetic`, `Backoff`, `CivilDate`).

SHA-256 is an arbitrary function with a 32-byte result, passed as a parameter. Fresh worker tokens
are distinct values. Store times, replies, listings, fault schedules and which deletes take effect
are parameters that the proofs quantify over. `Wrappers` holds the shared `Option` and `Fault`.

## Where the code and its documentation differ

- The documentation says at most one terminal record per job ever exists. The guards are
  check-then-act, so both can exist: `BothTerminalsReachable` gives the run,
  `TerminalWriteCrossesExactly` the exact condition (the other record was written between this
  writer's guard read and its put), `AtomicTerminalExclusivity` the law without overlap.
- The documentation says the watermark only advances. Its record and its version are read by
  separate calls: `StaleRecordLowersWatermark` gives the run and `OverwriteAdvancesExactly` the exact
  condition.
- Garbage collection ignores delete errors: `LostDeleteStrandsJob` is a call that strands a job and
  `CutLeavesTerminal` says exactly when that happens.
- The oracle's backoff looks only at the deadline, the core also at the lease: `BackoffParts` is a run
  in which they part and `ClaimRefinesExactly` says exactly when claims agree. A claim given back may
  still be renewed, acknowledged or buried in the core: `GivenBackParts` gives the runs, and there is
  an exact condition per operation.
- Tail discovery is to keep the highest generation, but it keeps the last key that parses, in either
  letter case and at any depth: `UpperCaseHidesTail` and `DeeperKeyHidesTail` are stores it misreads,
  and `TailIsMaximumExactly` says exactly when it keeps the highest.
- The tail hint is to be pure optimization, but the fail record of an older hinted generation can
  refuse a claim: `StaleHintDelays` is the run, and `HintDelaysExactly` says exactly when.

## Model

| member | source | states |
|---|---|---|
| ProtocolRuns.RunKeepsInv | crates/stowq-core/src/lib.rs:1476-2259 | in every state of every run, under every interleaving, fault, hint and watermark value, the store, all workers, the deliveries and the terminal stamps satisfy the invariant |
| ProtocolRuns.StepKeepsInv | crates/stowq-core/src/lib.rs:1476-2259 | every action of any worker or of the environment keeps the invariant |
| ProtocolRuns.NewClaimIsGood | crates/stowq-core/src/lib.rs:1732-1761 | a committed claim follows its predecessor: a takeover with the predecessor's own time and lease past its guard, or a continuation with its custody |
| ProtocolRuns.NewReceiptIsGood | crates/stowq-core/src/lib.rs:2036-2087 | a committed receipt speaks for an existing claim and lists only digests of stored outputs of that job |
| ProtocolRuns.NewDeadIsGood | crates/stowq-core/src/lib.rs:1707-1726 | a committed dead record is a holder's burial or an exhaustion on listed evidence |
| ProtocolRuns.ServeIsTruthful | crates/stowq-store/src/injector.rs:132-178 | whatever the fault, a delivered reply is true of the store right after the call |
| ProtocolPreservation.RaiseIsBounded | crates/stowq-core/src/lib.rs:696-716 | for any watermark value, a floor is at least the raw beacon and exceeds it by at most the skew guard |
| ProtocolPreservation.PageTail | crates/stowq-core/src/lib.rs:1399-1421 | when a listing ends, the generation it found was the tail at that instant |
| ProtocolPreservation.PcResumes | crates/stowq-core/src/lib.rs:1476-2259 | every reply leaves the acting worker at a program counter whose facts hold |
| ProtocolTheorems.LeaseExclusion | crates/stowq-core/src/lib.rs:1604-1645 | of two generations with different owners, the later one's store time is past the earlier lease's expiry; where that expiry plus the skew guard saturates, the later time is within the guard of 2^64-1 |
| ProtocolTheorems.TakeoverFollowsAll | crates/stowq-core/src/lib.rs:1604-1645 | a takeover's store time plus the skew guard is past the saturating expiry guard of every earlier generation |
| ProtocolTheorems.TakeoverBetweenOwners | crates/stowq-core/src/lib.rs:1844-1911 | between generations with different tokens lies a takeover |
| ProtocolTheorems.CustodyIsExclusive | crates/stowq-core/src/lib.rs:1758-1807 | two handles of one generation of a job belong to one worker and agree on token, attempt and store time |
| ProtocolTheorems.ChainInvariant | crates/stowq-core/src/lib.rs:1647-1761 | each chain is gap-free from generation 1, attempt is the number of takeovers so far and at most the job's maximum |
| ProtocolTheorems.AttemptsCountTakeovers | crates/stowq-core/src/lib.rs:1868-1883 | the attempt of every generation is the number of takeovers up to it, so renewals keep it and takeovers raise it by one |
| ProtocolTheorems.TimesIncrease | crates/stowq-store/src/memory.rs:98-104 | store times strictly increase along a chain |
| ProtocolTheorems.GuardsNeverFall | crates/stowq-core/src/lib.rs:1604-1610 | expiry guards never decrease along a chain |
| ProtocolTheorems.ClaimExtendsTheTail | crates/stowq-core/src/lib.rs:1509-1761 | for any hint body, a claim that commits extends the true tail of that instant with that tail's own evidence |
| ProtocolTheorems.ExhaustionIsListed | crates/stowq-core/src/lib.rs:1673-1727 | a dead record appears by a burial or an exhaustion; an exhaustion wrote it on the tail that a listing found, which had used every attempt, and the dead record's store time plus the skew guard is past that tail's expiry guard |
| ProtocolTheorems.StaleHintDeclinesExactly | crates/stowq-core/src/lib.rs:1604-1645 | an older hinted generation declines a claim the tail would not exactly when its fail record does; its lease never does |
| ProtocolTheorems.OutputsPrecedeReceipts | crates/stowq-core/src/lib.rs:2036-2074 | in every reachable state each digest in a receipt is that of an object under the job's outputs, and the receipt's generation and attempt are those of a stored claim |
| ProtocolTheorems.DeliveriesAgree | crates/stowq-worker/src/lib.rs:551-599 | any two Delivered reports for one job, by any workers, carry the same list of output digests, which is the receipt's |
| ProtocolTheorems.TerminalsOnlyCross | crates/stowq-core/src/lib.rs:2013-2027 | a receipt and a dead record coexist only if both writers' guard reads came before both writes, whichever of the three writers they were |
| ProtocolTheorems.TerminalWriteCrossesExactly | crates/stowq-core/src/lib.rs:2199-2230 | a terminal write leaves both records exactly when the other one was written between this writer's guard read and its put |
| ProtocolTheorems.AtomicTerminalExclusivity | crates/stowq-core/src/lib.rs:2199-2230 | when operations do not overlap, no run produces both terminal records |
| ProtocolTheorems.AtomicRunsAreExclusive | crates/stowq-core/src/lib.rs:1567-1578 | in runs of non-overlapping operations no job has both terminal records, and a terminal key a worker found absent and relies on is still absent |
| ProtocolOverlap.BothTerminalsReachable | crates/stowq-core/src/lib.rs:1707-1726 | with no skew guard, hints on or off, some run ends with both a receipt and a dead record for one job |
| ProtocolAtomic.ClaimIsAtomic | crates/stowq-core/src/lib.rs:1476-1840 | a claim running alone without faults, whatever the tail hint, leaves the job's objects as the atomic claim does, except where the hint refuses; granted, exactly one claim record more, with the worker's id, the tail's time and lease as evidence and the floor, and one handle more, with that record's token, its store time and the job's payload; refused, no handle and at most the dead record of the tail |
| ProtocolAtomic.ClaimDecides | crates/stowq-core/src/lib.rs:1509-1761 | at every call before its write, such a claim stands where the expected outcome says, through hint, listing, fail and job reads and the retry after a stale hint |
| ProtocolHint.HintDelaysExactly | crates/stowq-core/src/lib.rs:1612-1645 | a claim running alone ends otherwise than the atomic claim exactly when its hint leads to an older generation whose fail record is not over while the tail passes every gate; it ends without the handle the atomic claim grants exactly then |
| ProtocolHint.StaleHintDelays | crates/stowq-core/src/lib.rs:1509-1645 | with hints on and no skew guard, some run leads to a claim that, running alone, ends idle with the store and the handles unchanged where the atomic claim grants a third generation |
| ProtocolHolders.HoldersAreAtomic | crates/stowq-core/src/lib.rs:1844-2259 | a renewal, output commit, acknowledgment with outputs, nack or burial running alone, by the holder of any generation, leaves the objects, the renewed handle and the reported delivery exactly as the atomic operation does; the one object it may add is, in every field, the record asked for; an output commit, nack or burial reports its outcome |
| ProtocolHolders.NackIsExact | crates/stowq-core/src/lib.rs:2125-2186 | a nack running alone whose fail record is not there stores exactly the generation, attempt, reason and deadline asked for, and nothing else |
| ProtocolEntry.EnqueueIsExact | crates/stowq-core/src/lib.rs:904-994 | an enqueue running alone stores exactly the job record asked for if its key is free and nothing otherwise, and succeeds exactly when the record stored is that one |
| ProtocolEntry.FloorIsExact | crates/stowq-core/src/lib.rs:646-722 | a floor established alone is the store time of the worker's own new beacon, or the watermark where that is ahead by no more than the skew guard; past the guard there is none |
| ProtocolOrigins.ObjectsWereAskedFor | crates/stowq-core/src/lib.rs:904-2259 | in every run, under every interleaving and fault, each stored object is, in all its fields, what some worker was asked to write before, at a time it was idle and held the handle or floor |
| ProtocolOrigins.HandlesCarryThePayload | crates/stowq-core/src/lib.rs:1758-1807 | in every run every handle carries the payload its job was enqueued with |
| ProtocolOrigins.ReceiptsSpeakForTheirClaim | crates/stowq-core/src/lib.rs:2036-2087 | in every run a receipt names a stored claim with that claim's attempt, worker and token, and the payload the job was enqueued with |
| ProtocolOrigins.ResumeIsFrom | crates/stowq-core/src/lib.rs:1476-2259 | every reply, lost ones included, keeps a worker at the operation it was asked for, with the same arguments |
| ProtocolOutcomes.OutcomesAreTrue | crates/stowq-core/src/lib.rs:904-2259 | in every run, what an enqueue, output commit, nack or burial reports is true of the store right after the call that ends it, of the very operation asked for |
| ProtocolOutcomes.AcksAreTrue | crates/stowq-core/src/lib.rs:2036-2122 | in every run, an acknowledgment that ends past its guards reports the delivery exactly when the receipt stored is of the completed state it presents |
| ProtocolOutcomes.EndsAreReported | crates/stowq-core/src/lib.rs:904-2259 | in every run, an enqueue, output commit, nack or burial that a reply ends reports an outcome |
| ProtocolOutcomes.LostReplyGoesOn | crates/stowq-core/src/lib.rs:1000-1164 | a write or comparison whose reply was lost neither ends nor reports |
| JobObjects.ReachableChain | crates/stowq-core/src/lib.rs:1732-1761 | in every reachable state an enqueued job's claims are exactly generations 1..n, its fail records only of those, and every key holds its own kind of record |
| Oracle.Oracle.Enqueue | crates/stowq-testkit/src/oracle.rs:79-94 | the first record of a job wins and the same maximum of attempts again is accepted |
| Oracle.Oracle.ExhaustIfDue | crates/stowq-testkit/src/oracle.rs:123-144 | a job whose due takeover would exceed its attempts goes dead, and no other |
| Oracle.Oracle.Claim | crates/stowq-testkit/src/oracle.rs:146-203 | a claim succeeds exactly when the job can be claimed and takes the next generation and attempt; an exhausted expired claim goes dead, an exhausted backoff stays |
| Oracle.Oracle.ScanClaim | crates/stowq-testkit/src/driver.rs:223-265 | the driver's scan is the exhaustion transition followed by the claim |
| Oracle.Oracle.Renew | crates/stowq-testkit/src/oracle.rs:205-231 | only a held claim renews, to the next generation at the same attempt |
| Oracle.Oracle.OverrideExpiry | crates/stowq-testkit/src/oracle.rs:235-241 | only a held claim's expiry is corrected |
| Oracle.Oracle.RenewObserved | crates/stowq-testkit/src/driver.rs:278-293 | a renewal's expiry counts from the store time observed |
| Oracle.Oracle.Ack | crates/stowq-testkit/src/oracle.rs:243-255 | only a held claim is acknowledged |
| Oracle.Oracle.CommitOutput | crates/stowq-testkit/src/oracle.rs:260-273 | the first output committed under a claim is the job's for good |
| Oracle.Oracle.Nack | crates/stowq-testkit/src/oracle.rs:280-299 | only a held claim is put back, keeping generation and attempt |
| Oracle.Oracle.Bury | crates/stowq-testkit/src/oracle.rs:301-313 | only a held claim is buried |
| Oracle.Oracle.AdvanceClockTo | crates/stowq-testkit/src/oracle.rs:72-74 | the clock never moves back |
| OracleRefinement.CoreRefinesOracle | crates/stowq-testkit/src/oracle.rs:79-313 | for every sequence of atomic operations by holders of any generation, from the empty queue: core and oracle stay in lockstep exactly when each operation meets its condition, and then every outcome is the oracle's and the final objects map to its final states, outputs included |
| OracleRefinement.LockstepExactly | crates/stowq-testkit/src/oracle.rs:79-313 | the same if-and-only-if from any good state |
| OracleRefinement.LockstepRuns | crates/stowq-testkit/src/driver.rs:202-465 | lockstep means equal outcomes throughout and equal states at the end |
| OracleRefinement.StepRefinesExactly | crates/stowq-core/src/lib.rs:1476-2259 | each operation keeps goodness, and its outcome and next state equal the oracle's exactly when its condition holds |
| OracleRefinement.HolderRefinesExactly | crates/stowq-core/src/lib.rs:1844-2259 | the same for the five operations of a holder |
| OracleRefinement.ClaimRefinesExactly | crates/stowq-core/src/lib.rs:1604-1761 | claim: same refusal, generation, attempt and exhaustion exactly when the floor is not between a backoff's deadline and the lease's expiry |
| OracleRefinement.RenewRefinesExactly | crates/stowq-core/src/lib.rs:1844-1911 | a renewal agrees exactly when the job is terminal, or its holder is the tail's and the claim was not given back, or neither |
| OracleRefinement.CommitRefinesExactly | crates/stowq-core/src/lib.rs:1925-1981 | an output commit agrees exactly when the claim is active and the bytes are not in conflict, or it is not active and they are |
| OracleRefinement.AckRefinesExactly | crates/stowq-core/src/lib.rs:2002-2121 | an acknowledgment agrees exactly when the job is dead, or there is no receipt and its outputs are backed just when the claim is active, or there is a receipt it does not match |
| OracleRefinement.NackRefinesExactly | crates/stowq-core/src/lib.rs:2125-2186 | a nack agrees exactly when its holder is the tail's and the claim is active |
| OracleRefinement.BuryRefinesExactly | crates/stowq-core/src/lib.rs:2190-2259 | a burial agrees exactly when the claim is active, a receipt exists, or a dead record with other evidence does |
| OracleRefinement.BackoffParts | crates/stowq-testkit/src/driver.rs:416-442 | enqueue, claim, nack before the lease ends and a claim between deadline and expiry: the core refuses and the oracle grants generation 2 |
| OracleRefinement.GivenBackParts | crates/stowq-core/src/lib.rs:1844-2259 | after enqueue, claim and early nack, the same state on both sides, the core grants each holder operation on the claim given back and the oracle refuses it |
| OracleRefinement.Play | crates/stowq-testkit/src/driver.rs:202-465 | one call on the oracle object is one step of the model |
| OracleRefinement.PlayAll | crates/stowq-testkit/src/driver.rs:202-465 | a sequence of calls on the oracle object is the model's run |
| Cbor.HeadRoundTrip | crates/stowq-format/src/cbor.rs:58-79 | every head decodes to itself whatever follows |
| Cbor.HeadIsCanonical | crates/stowq-format/src/cbor.rs:169-206 | an accepted head is the shortest encoding of its value |
| Cbor.RoundTrip | crates/stowq-format/src/cbor.rs:126-130 | every value with sorted unique keys nesting at most 64 deep decodes from its encoding to itself |
| Cbor.Canonicality | crates/stowq-format/src/cbor.rs:278-289 | any accepted input is reproduced byte for byte by the encoder, and what it decodes to is canonical |
| Cbor.PrefixFree | crates/stowq-format/src/cbor.rs:87-122 | no encoding is a prefix of another |
| Cbor.DecodeInvertsEncode | crates/stowq-format/src/cbor.rs:208-274 | whatever follows it, the encoding of a canonical value decodes to that value |
| Cbor.EncodeInvertsDecode | crates/stowq-format/src/cbor.rs:208-274 | any accepted prefix is the encoding of the canonical value it decodes to |
| Cbor.SortKeepsIncreasing | crates/stowq-format/src/cbor.rs:105-120 | the encoder's key sort leaves sorted keys alone |
| CborReader.Reader.Take | crates/stowq-format/src/cbor.rs:154-163 | takes exactly the next bytes or fails without moving |
| CborReader.Reader.Done | crates/stowq-format/src/cbor.rs:165-167 | true exactly at the end of the input |
| CborReader.Reader.ReadHead | crates/stowq-format/src/cbor.rs:169-206 | the cursor reads exactly the head the decoder accepts |
| CborReader.Reader.ReadValue | crates/stowq-format/src/cbor.rs:208-217 | the cursor reads exactly the value the decoder accepts at this depth and restores the depth |
| CborReader.Reader.ReadBody | crates/stowq-format/src/cbor.rs:219-274 | after a head, the cursor reads exactly the body the decoder accepts |
| CborReader.Reader.ReadItems | crates/stowq-format/src/cbor.rs:234-241 | the array loop reads exactly the items |
| CborReader.Reader.ReadEntries | crates/stowq-format/src/cbor.rs:242-249 | the map loop reads exactly the entries |
| CborReader.KeysIncrease | crates/stowq-format/src/cbor.rs:250-265 | the key check accepts exactly strictly increasing encoded keys |
| CborReader.Reader.ReadOnly | crates/stowq-format/src/cbor.rs:278-289 | one value with nothing after it |
| CborCodec.DecodeAll | crates/stowq-format/src/cbor.rs:278-289 | decoding a whole input accepts exactly one canonical value |
| CborCodec.EncodeInto | crates/stowq-format/src/cbor.rs:87-122 | the writer appends exactly the encoding |
| FieldReader.ShorterFirst | crates/stowq-format/src/direct.rs:16-19 | encoded text keys under 256 bytes order by length first |
| FieldReader.SameLengthOrder | crates/stowq-format/src/direct.rs:16-19 | equally long keys order bytewise |
| FieldReader.MapShape | crates/stowq-format/src/direct.rs:151-184 | keys at increasing table positions with complete fields are exactly sorted maps of the right shape |
| FieldReader.ReadRefinesDecode | crates/stowq-format/src/direct.rs:83-184 | for every input, a typed read returns a value exactly when the general decoder returns it and it has the shape |
| RecordCodec.TableIsSound | crates/stowq-format/src/direct.rs:20-73 | every static key table is the bytewise order of its encoded keys |
| RecordCodec.ArrangedEncodes | crates/stowq-format/src/lib.rs:755-757 | fields listed in any order encode as the map in table order |
| RecordCodec.CollectHasKind | crates/stowq-format/src/direct.rs:146-184 | fields that fit the table give a map of its shape with sorted keys |
| RecordCodec.ConformsCollects | crates/stowq-format/src/direct.rs:146-184 | a conforming map is exactly its own fields in table order |
| RecordLaws.FieldsEncode | crates/stowq-format/src/lib.rs:320-422 | for every record the sorting encoder writes the fields in table order |
| RecordLaws.PairsArranged | crates/stowq-format/src/lib.rs:320-422 | the fields as listed are a rearrangement of the fields in table order |
| RecordLaws.BasisEncodings | crates/stowq-format/src/lib.rs:363-369 | the nested basis, listed in another order, encodes sorted |
| RecordLaws.SlotsOfRecord | crates/stowq-format/src/lib.rs:320-422 | a well-formed record's fields fit its table and assemble to the record |
| RecordLaws.AssembleReads | crates/stowq-format/src/lib.rs:425-689 | fields that assemble are exactly the fields of the record they give, which is well formed |
| RecordLaws.FieldsReencode | crates/stowq-format/src/lib.rs:425-689 | an accepted fields map holds exactly the entries its record writes |
| RecordLaws.OrderedCanonical | crates/stowq-format/src/lib.rs:755-864 | the fields map as written is canonical |
| RecordTheorems.RecordRoundTrip | crates/stowq-format/src/lib.rs:938-955 | for every record, what the encoder writes decodes to it, and is rejected exactly when it is not well formed |
| RecordTheorems.RecordReencodes | crates/stowq-format/src/lib.rs:873-930 | every accepted byte string is what the encoder writes for the record it decodes to |
| RecordTheorems.DirectIsReference | crates/stowq-format/src/direct.rs:186-233 | for every byte string, queue id and tag, the direct decoder returns a record exactly when the value-tree decoder returns it |
| RecordTheorems.EnvelopeReads | crates/stowq-format/src/direct.rs:199-208 | six typed envelope reads are exactly the first six of seven decoded items of those kinds |
| RecordTheorems.RecordsBegin | spec/records.md:11-21 | every encoded record begins with the array head of seven items and the eight bytes of the magic |
| DirectCodec.ReadTyped | crates/stowq-format/src/direct.rs:83-144 | the cursor's typed read returns exactly the typed value and leaves exactly the rest |
| DirectCodec.ReadTable | crates/stowq-format/src/direct.rs:151-184 | the map loop fills one slot per field with exactly what a lookup by name would find |
| DirectCodec.DecodeRecord | crates/stowq-format/src/direct.rs:186-233 | the cursor-driven direct decoder returns exactly what the value-tree decoder returns, for every input |
| DirectCodec.DecodeEnvelope | crates/stowq-format/src/direct.rs:199-233 | envelope checks in the source's order accept exactly what the typed reading function does |
| DirectCodec.ReadRecordFields | crates/stowq-format/src/direct.rs:235-663 | the fields of a record type, by table position alone |
| DirectCodec.WriteFields | crates/stowq-format/src/lib.rs:757-864 | the direct writer appends exactly the sorted fields map |
| DirectCodec.PutKey | crates/stowq-format/src/lib.rs:735-738 | one field appended in its table place extends what was written by exactly that field |
| DirectCodec.PutKeyBytes | crates/stowq-format/src/lib.rs:740-743 | the same for a byte string |
| DirectCodec.PutKeyText | crates/stowq-format/src/lib.rs:745-748 | the same for a text |
| DirectCodec.PutKeyBool | crates/stowq-format/src/lib.rs:750-753 | the same for a flag |
| DirectCodec.PutKeyBasis | crates/stowq-format/src/lib.rs:793-799 | the same for the nested basis |
| DirectCodec.PutKeyDigests | crates/stowq-format/src/lib.rs:827-833 | the same for the digests |
| DirectCodec.WriteFormat | crates/stowq-format/src/lib.rs:759-767 | all six fields of a format record, in table order |
| DirectCodec.WriteJob | crates/stowq-format/src/lib.rs:768-789 | exactly the present fields of a job, in table order, under the right count |
| DirectCodec.WriteClaim | crates/stowq-format/src/lib.rs:790-810 | exactly the present fields of a claim, in table order, under the right count |
| DirectCodec.WriteFail | crates/stowq-format/src/lib.rs:811-818 | all fields of a fail record, in table order |
| DirectCodec.WriteReceipt | crates/stowq-format/src/lib.rs:819-835 | exactly the present fields of a receipt, in table order, under the right count |
| DirectCodec.WriteDead | crates/stowq-format/src/lib.rs:836-842 | all fields of a dead record, in table order |
| DirectCodec.WriteWatermark | crates/stowq-format/src/lib.rs:843-851 | both fields of a watermark, in table order |
| DirectCodec.WriteQuarantine | crates/stowq-format/src/lib.rs:852-862 | exactly the present fields of a quarantine record, in table order, under the right count |
| DirectCodec.PutDigests | crates/stowq-format/src/lib.rs:827-833 | the digest loop appends exactly the encoded array |
| DirectCodec.EncodeRecord | crates/stowq-format/src/lib.rs:694-723 | for every record the direct writer emits exactly the reference encoder's bytes |
| Keys.ParseInvertsPrint | crates/stowq-keys/src/lib.rs:195-309 | every key parses from its own text |
| Keys.PrintInvertsParse | crates/stowq-keys/src/lib.rs:326-436 | every accepted text is the print of the key it parses to |
| Keys.ClaimOrder | crates/stowq-keys/src/lib.rs:1-7 | string order on a job's claim keys is generation order |
| Keys.ClaimKeyUnderPrefix | crates/stowq-keys/src/lib.rs:195-309 | a claim key is its job's claims prefix and the generation in eight hex digits |
| Keys.HexWordOrder | crates/stowq-keys/src/lib.rs:1-7 | fixed-width hex words order as their numbers |
| Keys.HexOrder | crates/stowq-keys/src/lib.rs:49-55 | hex keeps the order of equally long byte strings |
| Keys.HexRoundTrip | crates/stowq-keys/src/lib.rs:15-55 | hex decodes to what was encoded |
| Keys.FromHexRoundTrip | crates/stowq-keys/src/lib.rs:15-35 | accepted hex is what the encoder writes |
| Keys.PushHex | crates/stowq-keys/src/lib.rs:49-55 | the printing loop appends exactly the hex |
| Keys.HexDecodeFixed | crates/stowq-keys/src/lib.rs:23-35 | the buffer loop accepts exactly lowercase hex of the exact width |
| Listing.PagesConcatenate | crates/stowq-store/src/memory.rs:217-254 | pages of any positive limit over an unchanged store concatenate to exactly the keys under the prefix in order |
| Listing.MatchingHolds | crates/stowq-store/src/memory.rs:217-254 | a key is listed exactly when it is stored, under the prefix and after the marker |
| Listing.MatchingAscends | crates/stowq-store/src/memory.rs:217-254 | listed keys are in order |
| Listing.MatchingContinues | crates/stowq-store/src/memory.rs:217-254 | listing after a returned key continues exactly behind it |
| TailDiscovery.ClaimKeyParses | crates/stowq-core/src/lib.rs:2311-2317 | tail discovery reads a claim key's generation as the grammar does |
| TailDiscovery.ClaimKeysOrder | crates/stowq-core/src/lib.rs:1396-1421 | claim keys under a prefix order by generation |
| TailDiscovery.DigitsCross | crates/stowq-core/src/lib.rs:2311-2317 | of two digit strings in string order the first denotes the greater number exactly when, at their first difference, it has an upper-case letter against a lower-case one and the greater digits from there on |
| TailDiscovery.OvertakesExactly | crates/stowq-core/src/lib.rs:2311-2317 | a key that does not sort behind another has the greater generation exactly when it overtakes it: in letter case beside it, or under another stem at the first digit that differs in value |
| TailDiscovery.DigitsCompare | crates/stowq-core/src/lib.rs:2311-2317 | of two digit strings of one length the one that denotes the greater number is the one with the greater digit where they first differ in value |
| TailDiscovery.ClaimsDoNotOvertake | crates/stowq-core/src/lib.rs:2311-2317 | keys of the grammar never overtake each other |
| TailDiscovery.LastIsGreatest | crates/stowq-core/src/lib.rs:1409-1415 | the last key of a page that parses sorts behind every other that does |
| TailDiscovery.TailIsBracketed | crates/stowq-core/src/lib.rs:1399-1421 | while keys only appear, whatever they are, the key found is stored at the end, and a generation stored at the start is at most the one found exactly when its key does not overtake it |
| TailDiscovery.SteadyTail | crates/stowq-core/src/lib.rs:1399-1421 | over an unchanged store enough calls find the last key that parses |
| TailDiscovery.TailIsMaximumExactly | crates/stowq-core/src/lib.rs:1396-1421 | over an unchanged store the generation found is the greatest that parses exactly when no key that parses overtakes the last one, and none is found exactly when none parses |
| TailDiscovery.TailOfClaims | crates/stowq-core/src/lib.rs:1396-1421 | over the keys the protocol writes it is the greatest generation |
| TailDiscovery.UpperCaseHidesTail | crates/stowq-core/src/lib.rs:2311-2317 | an upper-case key parses and sorts first, so a smaller generation is reported |
| TailDiscovery.DeeperKeyHidesTail | crates/stowq-core/src/lib.rs:2311-2317 | a key one segment deeper parses and sorts last, so a smaller generation is reported |
| MemoryStore.Store.PutIfAbsent | crates/stowq-store/src/memory.rs:128-152 | the first write to a key wins with fresh version and later time; anything else changes nothing |
| MemoryStore.Store.constructor | crates/stowq-store/src/memory.rs:36-50 | an empty store at version and clock one |
| MemoryStore.Store.Cas | crates/stowq-store/src/memory.rs:154-179 | an object is replaced exactly at the version the caller saw |
| MemoryStore.Store.Get | crates/stowq-store/src/memory.rs:181-205 | the object, or a non-empty range within its size, and an error exactly otherwise |
| MemoryStore.Store.Head | crates/stowq-store/src/memory.rs:207-215 | the stored metadata or absence |
| MemoryStore.Store.List | crates/stowq-store/src/memory.rs:217-254 | the scanning loop returns exactly the specified page with each object's metadata |
| MemoryStore.Store.Delete | crates/stowq-store/src/memory.rs:256-259 | exactly that key goes |
| MemoryStore.Store.AdvanceClockTo | crates/stowq-store/src/memory.rs:91-96 | the clock never moves back |
| Injector.Injector.Check | crates/stowq-store/src/injector.rs:128-156 | each call's fate is exactly the schedule's |
| Injector.Injector.constructor | crates/stowq-store/src/injector.rs:86-107 | schedules are sorted, deduplicated and at zero |
| Injector.OnePlanCounts | crates/stowq-store/src/injector.rs:139-140 | a single plan counts every call of its operation |
| Injector.OnePlanFiresAsScheduled | crates/stowq-store/src/injector.rs:128-156 | a plan fails the n-th call of its operation exactly when n is scheduled |
| Injector.LaterPlansCountSurvivors | crates/stowq-store/src/injector.rs:128-156 | over a whole run of calls, the count of every plan is the number of matching calls that no earlier plan failed |
| Injector.PlanFiresExactly | crates/stowq-store/src/injector.rs:128-156 | a plan fires on a call exactly when no earlier plan does, the operation is its own and the survivors so far are one of its positions |
| Resolver.Channel.PutResolving | crates/stowq-core/src/lib.rs:1088-1129 | under any faults and other writers: Committed means the key holds exactly the intended record; Lost means the key is held and, for a well-formed record, none of this call's puts took effect; NotCommitted is never returned; at most one effect, five puts, and every call paid for; only a dry budget or more than four lost calls or replies end it without an answer |
| Resolver.Channel.ResolveUnknown | crates/stowq-core/src/lib.rs:1131-1164 | looking again decides by the decoded record, and absence proves the write never happened |
| Resolver.Channel.ReadRetrying | crates/stowq-core/src/lib.rs:1063-1083 | a read returns what the key holds, and never absence of a key held before it |
| Resolver.Channel.PutIfAbsent | crates/stowq-store/src/injector.rs:162-178 | a put under each fault kind: applied or not, reply delivered or lost |
| Budget.OpBudget.Spend | crates/stowq-core/src/lib.rs:55-61 | one unit, refused exactly when dry |
| Budget.OpBudget.Split | crates/stowq-core/src/lib.rs:63-74 | equal shares, the remainder stays, nothing is lost |
| Budget.OpBudget.Merge | crates/stowq-core/src/lib.rs:76-83 | takes back exactly what the children hold and empties them |
| Probe.World.TryClaim | crates/stowq-core/src/lib.rs:1476-1840 | whatever the store answers: every operation spent leaves the budget and no call is made that was not paid for; a record is committed only behind the gates that the replies to this probe show open: neither terminal record, the tail of a listing or a hint with its own record, its lease and backoff over, the job record ready; it is the takeover within the job's attempts or, past them and never on a hint alone, the dead record; a reported claim is that takeover, read back, with the job's payload; a terminal record found ends it with none, and a probe that ends with none or an error has its reason among the replies |
| Probe.World.PursueTwice | crates/stowq-core/src/lib.rs:1604-1706 | a claim takes over the tail of the evidence given or, after a hint, of the evidence of a listing made since; only listed evidence may bury the job or give up on a lost write |
| Probe.World.Gather | crates/stowq-core/src/lib.rs:1492-1597 | the first two calls ask for the terminal records; one found ends the probe with none whatever the tail branch did, both absent lead to evidence shown by a hint and the record it names, or by a listing and the record of its tail; each call paid for |
| Probe.World.Pursue | crates/stowq-core/src/lib.rs:1604-1838 | one pass: the claim with its handle behind every gate, a refusal with its reason, a retry on the listing where a hint may be stale, or an error with its cause; each call paid for |
| Probe.World.Examine | crates/stowq-core/src/lib.rs:1604-1671 | the job record exactly when lease, backoff and delay are over, none when one of them is not or the record is gone |
| Probe.World.TakeOver | crates/stowq-core/src/lib.rs:1729-1838 | commits exactly the takeover of the evidence; committed, the handle read back with the job's payload, lost, a refusal or after a hint a retry |
| ProbeTrace.GrantedIsLate | crates/stowq-core/src/lib.rs:1604-1673 | a claim granted over a predecessor comes at a floor past lease and skew guard, or at the greatest time there is, within the attempts and not before the job's time |
| ProbeTrace.PayloadExactly | crates/stowq-core/src/lib.rs:1765-1773 | a well-formed job hands out its inline bytes, or its key with the job's digest and length |
| Probe.World.FindTail | crates/stowq-core/src/lib.rs:1509-1566 | the hinted generation with the time, attempt and lease its own reply shows where the hint leads to a claim, the tail that the listing after it found otherwise, for a corrupt or stale hint too; only an unanswered call breaks it; each call paid for |
| Probe.World.ListTail | crates/stowq-core/src/lib.rs:1399-1421 | finds the generation tail discovery finds over the store states its calls met, with the store time of a state that holds it, one paid call each |
| Probe.ReadPage | crates/stowq-core/src/lib.rs:1409-1415 | the loop keeps exactly the last key of the page that parses |
| Probe.World.ListedEvidence | crates/stowq-core/src/lib.rs:1681-1703 | the tail its own listing found, with the attempt and lease of the record read after it, each call paid for |
| Probe.World.TailRecord | crates/stowq-core/src/lib.rs:1374-1394 | the attempt and lease decoded from the tail's own record for one paid call, zeros for an empty chain |
| Probe.World.ReadHint | crates/stowq-core/src/lib.rs:1445-1473 | the hint's generation when its body is eight bytes that name a u32 generation from 1 on, 0 for any other body, none when absent; the call is paid for |
| Probe.World.WriteHint | crates/stowq-core/src/lib.rs:1340-1370 | one paid call exactly when hints are on, the hint is not current and the budget is not dry: the generation in eight bytes under the job's tail key |
| Probe.World.BackoffOver | crates/stowq-core/src/lib.rs:1612-1641 | lets the claim through exactly when the tail has no fail record or its deadline is not after the floor, read from its own key; the call is paid for |
| Probe.World.ReadJob | crates/stowq-core/src/lib.rs:1651-1666 | exactly the decoded job record for one paid call, or none when it is gone |
| Probe.World.Exhaust | crates/stowq-core/src/lib.rs:1707-1727 | commits at most the dead record of the evidence, of a job behind every other gate and past its attempts |
| Probe.World.Settle | crates/stowq-core/src/lib.rs:1762-1807 | the handle has the store time read back and the job's payload; the lease index entry is in the bucket of that time plus the lease, after the hint where one is due; each call paid for |
| Probe.World.Put | crates/stowq-core/src/lib.rs:1088-1129 | the resolved write commits exactly the intended record when it says so, all its calls paid for |
| Probe.World.WriteTermIndex | crates/stowq-core/src/lib.rs:2262-2299 | writes the dead index entry in the bucket of the cached floor or of the one it established, or nothing; skipped with a cached floor only by a dry budget |
| Probe.World.EstablishFloor | crates/stowq-core/src/lib.rs:646-722 | the cached floor for no call, or the greater of a beacon's time read back and the watermark read after it, at most the skew guard above the beacon; each call paid for |
| Probe.World.PutBeacon | crates/stowq-core/src/lib.rs:662-684 | the store time read back of the very beacon that was stored, each call paid for |
| Probe.World.ReadRetrying | crates/stowq-core/src/lib.rs:1063-1083 | the body the last read found or its absence, each read paid for |
| ClaimMany.ClaimUpTo | crates/stowq-core/src/lib.rs:1199-1327 | terminates; returns every claim a probe reported, at most max, for distinct jobs in listing order; an error only when none was reported; every operation spent leaves the budget and no store call of the scan or of any probe goes unpaid; while the listings show the same keys the jobs are probed in order from the first, and all of them unless enough were claimed, a call or probe failed or the budget ran dry |
| ClaimMany.TargetsExactly | crates/stowq-core/src/lib.rs:1299-1321 | the jobs a scan is for are exactly the keys under the prefix that parse as job keys and are not memoized, each once and in order |
| ClaimMany.ReachesOn | crates/stowq-core/src/lib.rs:1285-1325 | a page moves the scan on by exactly its candidates, and an empty one means all were probed |
| ClaimMany.ProbePending | crates/stowq-core/src/lib.rs:1217-1274 | waves probe the pending candidates in order and stop only at enough claims, a failed probe or a dry budget |
| ClaimMany.ProbeWave | crates/stowq-core/src/lib.rs:1226-1245 | a wave reports its claims in order, and its children lose exactly what its probes spent, which covers their calls |
| ClaimMany.Collect | crates/stowq-core/src/lib.rs:1299-1321 | the page loop keeps exactly the job keys that parse and are not memoized, in order |
| ClaimMany.ProbedWave | crates/stowq-core/src/lib.rs:1217-1246 | a wave's claims extend the batch in scan order, and no candidate is probed twice |
| ClaimMany.ListedPage | crates/stowq-core/src/lib.rs:1285-1325 | whatever the store does meanwhile, a later page's candidates come after all earlier ones |
| Watermark.WatermarkIsMonotone | crates/stowq-core/src/lib.rs:809-884 | over all interleavings in which each advance's record and version are of one object, bucket and sequence never decrease |
| Watermark.OverwriteAdvances | crates/stowq-store/src/memory.rs:154-179 | then each overwrite raises the bucket and raises the sequence by one |
| Watermark.SuccessLasts | crates/stowq-core/src/lib.rs:809-892 | then a successful call leaves the bucket at or above its own, for good |
| Watermark.SuccessCovers | crates/stowq-core/src/lib.rs:869-892 | a call that reports success leaves its bucket covered |
| Watermark.OverwriteAdvancesExactly | crates/stowq-core/src/lib.rs:856-862 | the first overwrite that fails to advance is exactly the first whose record and version reads saw different objects |
| Watermark.StaleRecordLowersWatermark | crates/stowq-core/src/lib.rs:818-862 | a run in which the bucket falls from 9 to 5 and a sequence repeats |
| Watermark.RunKeepsInv | crates/stowq-core/src/lib.rs:809-884 | the stored object is the one written under its version, versions are never reused, and every worker's pending write fits what it read |
| Audit.AuditChain | crates/stowq-core/src/lib.rs:3125-3283 | reports exactly the findings the chain deserves |
| Audit.AuditGenerations | crates/stowq-core/src/lib.rs:3133-3189 | exactly the gaps between generations and a first one that is not 1 |
| Audit.DecodeChain | crates/stowq-core/src/lib.rs:3190-3243 | exactly the records that do not decode |
| Audit.AuditLinks | crates/stowq-core/src/lib.rs:3244-3276 | exactly the links whose evidence does not match the decoded predecessor |
| Audit.CleanExactlyWhenWhole | crates/stowq-core/src/lib.rs:3113-3124 | over a quiescent store nothing is reported exactly when generations are 1..n, all decode and every link is admissible |
| Audit.BrokenLinkIsReported | crates/stowq-core/src/lib.rs:3244-3276 | a readable generation is reported exactly when it neither shows its predecessor's worker and token nor names the predecessor's own store time and lease with a floor past their sum |
| Audit.SilenceExactly | crates/stowq-core/src/lib.rs:3125-3283 | over a quiescent store nothing is reported exactly when generations are 1..n, all decode, and each is such a continuation or such a takeover |
| Audit.ContiguousFromOne | crates/stowq-core/src/lib.rs:3133-3137 | generations without gaps from 1 are 1..n |
| Audit.LinkIsAdmissible | crates/stowq-core/src/lib.rs:3244-3276 | every link the protocol writes passes the evidence test |
| Audit.HonestChainsAuditClean | crates/stowq-core/src/lib.rs:3125-3283 | in every run, every chain the protocol built audits clean |
| Repair.DuplicateTerminals | crates/stowq-core/src/lib.rs:3478-3562 | the pass over both terminal prefixes of a shard reports the jobs named under both, and gives up only on a dry budget |
| Repair.ListAuthoritative | crates/stowq-core/src/lib.rs:3042-3062 | the paging loop returns exactly the keys under the prefix, in order |
| Repair.ReadTerminals | crates/stowq-core/src/lib.rs:3495-3523 | exactly the jobs the listed keys name, and the keys that name none |
| Repair.NamedUnderPrefix | crates/stowq-core/src/lib.rs:3483-3503 | a terminal key under a shard's terminal prefix is that shard's key of the job it names |
| Repair.NamedExactly | crates/stowq-core/src/lib.rs:3483-3523 | a listing names a job exactly when that terminal key is stored |
| Repair.DuplicatesAreExact | crates/stowq-core/src/lib.rs:3540-3562 | whatever else is stored, the report names precisely the jobs with both terminal keys |
| Repair.DuplicatesAreCrossings | crates/stowq-core/src/lib.rs:3478-3562 | over the stored names of any state of any run, in any number of shards, the report names precisely the jobs with both terminal records, each with both guards before both writes |
| Gc.CutLeavesTerminal | crates/stowq-core/src/lib.rs:2992-3001 | cut at any point, a job record is left without its terminal record exactly when its own delete silently failed and the terminal's took effect |
| Gc.EffectiveCutIsSafe | crates/stowq-core/src/lib.rs:2901-3002 | when deletes take effect, job record present implies terminal record present at every cut |
| Gc.LostDeleteStrandsJob | crates/stowq-core/src/lib.rs:2943-3001 | run on a graph whose third delete is lost, the deletion keeps the job record and removes its terminal record |
| Gc.TombstonesAfterGraph | crates/stowq-core/src/lib.rs:2901-3002 | a graph's deletes that take effect, cut anywhere, leave no job record without a terminal record it had |
| Gc.Collector.DeleteTerminalGraph | crates/stowq-core/src/lib.rs:2901-3002 | whatever the budget, the deletes issued are a cut of the strict order and only the graph's keys go; finished, with complete listings and effective deletes, nothing of the graph is left; with nothing listed the deletes are exactly index, tail hint, job and terminal record |
| Gc.Collector.DeleteRecords | crates/stowq-core/src/lib.rs:2992-3001 | the job record and then the terminal record |
| Gc.Collector.Collect | crates/stowq-core/src/lib.rs:2688-2897 | a whole pass, whatever its budget and whichever deletes take effect, removes only beacons past their horizon, payloads and claims past theirs without a job record, index entries without a terminal record and the graphs of terminal records past retention, so nothing of a job whose record exists and that has no terminal record older than the retention; where deletes take effect, a job record left at the cut has every terminal record it had; where listings are complete as well, a pass that ends has removed every one of them; it gives up only on a dry budget |
| Gc.JustifiedKeeps | crates/stowq-core/src/lib.rs:2688-2897 | a pass that removes only these removes nothing of a job whose record exists and that has no terminal record past retention |
| Gc.StagesExactly | crates/stowq-core/src/lib.rs:2901-3002 | the deletion order kind by kind: a graph is exactly the keys of that job and shard, its payloads and its own index entry |
| Gc.BeforeMeansOlder | crates/stowq-core/src/lib.rs:2696-2697 | a store time is below the cutoff exactly when it is more than the horizon ago, saturation included |
| Gc.Collector.CollectGraphs | crates/stowq-core/src/lib.rs:2846-2895 | walking the terminal index, entries outside the grammar included, removes only what may be removed; complete and effective, it settles every index entry stored at the start |
| Gc.Collector.CollectEntry | crates/stowq-core/src/lib.rs:2857-2890 | one entry: pruned, deleted with its graph or skipped, removing only what may be removed, and settled when deletes take effect |
| Gc.EntryNamesItsGraph | crates/stowq-core/src/lib.rs:2857-2866 | an entry of the grammar names its own job, kind and shard and is that graph's index key |
| TermEntry.TermEntryParses | crates/stowq-core/src/lib.rs:3618-3634 | the lenient reading gives every entry of the grammar its own kind, shard and job |
| TermEntry.TermEntryExactly | crates/stowq-core/src/lib.rs:3618-3634 | a name is read as an entry exactly when it is the prefix, any bucket text, a kind text that starts with its letter, four bytes of shard and 32 of job that read as the entry's |
| Gc.Collector.DeleteUnder | crates/stowq-core/src/lib.rs:2957-2972 | the paging delete loop under a prefix stays in its stage of the order, and with complete listings and effective deletes leaves nothing under it |
| Gc.ReplayHolds | crates/stowq-core/src/lib.rs:2934-3000 | an object is left exactly when no delete of it took effect |
| Gc.Collector.CollectOrphans | crates/stowq-core/src/lib.rs:2699-2820 | removes only payloads or claims past the horizon without a job record; complete and effective, it leaves none of them |
| Gc.Collector.CollectOrphan | crates/stowq-core/src/lib.rs:2712-2753 | one payload or claim listed: removed only when it is past the horizon, its job record is absent and its time is as listed, and then gone where deletes take effect |
| Gc.OrderlyAfterGraph | crates/stowq-core/src/lib.rs:2884-2889 | deleting a graph whole settles its index entry and keeps terminal records last and index entries settled, other entries of the same graph included |
| Gc.OrderlyPrune | crates/stowq-core/src/lib.rs:2874-2878 | an entry pruned after its terminal record went is of a graph already removed, or of none |
| Gc.OrphanIsRemovable | crates/stowq-core/src/lib.rs:2726-2749 | a payload or claim past the horizon whose job record is absent may be removed |
| Gc.Collector.CollectBeacons | crates/stowq-core/src/lib.rs:2822-2844 | removes only beacons past their horizon; complete and effective, it leaves none of them |
| Gc.JustifiedAfterGraph | crates/stowq-core/src/lib.rs:2868-2889 | removing a graph whose terminal record is past the cutoff removes only what may be removed |
| Gc.EntryIsRemovable | crates/stowq-core/src/lib.rs:2868-2878 | an index entry may be removed once its terminal record is gone |
| Backoff.SaturatingDoubleIsCapped | crates/stowq-math/src/lib.rs:123-137 | for every base and attempt from one on, exactly min(2^64-1, base * 2^(attempt-1)) |
| Backoff.CeilingExactly | crates/stowq-math/src/lib.rs:105-157 | a policy is usable exactly when its positive base is within both caps, and the ceiling is the least of the caps and base * 2^(attempt-1) |
| Backoff.CeilingGrows | crates/stowq-math/src/lib.rs:156-157 | the ceiling never decreases with the attempt |
| Backoff.RetryDelay | crates/stowq-math/src/lib.rs:144-176 | refused exactly for an invalid policy; with jitter between half the ceiling, rounded up, and the ceiling |
| Backoff.SampleOffset | crates/stowq-math/src/lib.rs:182-195 | the loop returns the first unbiased sample's offset or the midpoint after 64 misses |
| Backoff.JitterIsFair | crates/stowq-math/src/lib.rs:178-195 | the accepted range is an exact multiple of the span and every offset has equally many samples |
| Backoff.AcceptedIsMultiple | crates/stowq-math/src/lib.rs:183-189 | the accepted samples number an exact multiple of the span |
| Backoff.PreimageSize | crates/stowq-math/src/lib.rs:187-189 | each offset has one sample per block of the span |
| Backoff.EligibilityRoundsUp | crates/stowq-math/src/lib.rs:21-40 | eligibility is never early and less than a bucket late, refused exactly for a zero width or overflow |
| Backoff.EffectiveFloor | crates/stowq-math/src/lib.rs:207-215 | the watermark can only raise a floor, to exactly the greater of the two |
| CivilDate.CivilRoundTrip | crates/stowq-store-http/src/lib.rs:93-104 | every day number gives a real calendar date that maps back to it, across all eras |
| CivilDate.DateRoundTrip | crates/stowq-store-http/src/lib.rs:494-501 | every calendar date is the date of the day it maps to |
| CivilDate.CivilIsTheCalendar | crates/stowq-store-http/src/lib.rs:93-104 | day 0 is 1 January 1970 and each day is the Gregorian successor of the day before |
| CivilDate.NextDayIsOneLater | crates/stowq-store-http/src/lib.rs:494-501 | the day after a date, by the lengths of the months and leap years, has the next day number |

## Left out

- S3 and HTTP transports, request signing, XML extraction, the CLI, benchmarks and the wasm worker: network and process plumbing.
- Doorbells, metrics, timers, sweeper scheduling, advisory index writes and quarantine record contents: advisory, no hard invariant.
- The terminal memo's time to live and content-addressed versions: the memo is an arbitrary set of skipped keys in `ClaimMany`.
- Concurrent garbage collection with re-enqueue of the same id, and writes applied after their call timed out.
- Error kinds of the two decoders: only acceptance and the decoded record are compared, and record errors are one absent result.
- Transport retry limits inside the protocol machine: a worker may retry forever or stop at any call, which covers every limit.
- The floor cache's reuse window: a worker may reuse any floor it ever established.
- Queue open and init, format validation, shard derivation, detached payload writes and fetches and payload re-verification.
- Overflow of the store's u64 version counter and clock, and of `delay_ms * 1_000_000` in nack.
- OracleRefinement.CoreRefinesOracle: the oracle keeps one output per job, so runs commit under one name; generations stay below the u32 space.
- Probe.World.TryClaim: the three gathered calls run one after the other, which an arbitrary store cannot tell apart; the terminal memo is not modelled.
- Gc.Collector.Collect: that nothing of a protected job goes needs every key to carry the shard its job id hashes to; completeness speaks of stores that change only by the pass, and not of the counts in the report.
- TermEntry.TermEntryParses: names are bytes; text with multi-byte characters inside the fixed-width fields is simply rejected.
- ClaimMany.ClaimUpTo: probes of a wave run one after the other; each has its own budget share and meets an arbitrary store, so their interleaving is not modelled.
- Repair.DuplicatesAreCrossings: index regeneration and quarantine writes of the same pass are left out.
- CivilDate.CivilRoundTrip: unbounded integers; i64 overflow needs day numbers beyond what a u64 of seconds can give.
