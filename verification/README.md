# Verified models of lnd's persistent and message-driven state machines

A Dafny model of six components of the Lightning Network daemon `lnd`, with
proofs of what each of them guarantees over every input, every run or every
interleaving.

- **Nursery store.** Outputs of force-closed channels move from crib or preschool
  to kindergarten to graduated. Each is kept in a channel index and, while it is
  time-locked, in a height index. `NurseryLedger` is the plain map from output to
  stage and due height; `NurseryIndex`, `NurseryTransitions`, `NurseryScan` and
  `NurseryStore` show that the two indexes implement it; `NurseryRuns` and
  `NurseryLocks` prove what every sequence of operations keeps, among it the time locks.
- **Cooperative close.** `FeeNegotiation` is the fee arithmetic, `ChannelCloser` the
  four-state machine, `CloseProtocol` two of them joined by in-order queues, and
  `CloseRatchets` bounds their offers by the distance and by the ratio of the ideal fees.
- **Breach arbiter.** `WireCodec`, `RetributionCodec` and `RetributionLayout` are the byte
  formats, `KeyedBucket` and `RetributionStore` the store, `Justice` and `JusticeWeight` the
  sweep transaction, its fee and the retry loop, `SpendWatch` one concurrent round of
  watching for spends, and `BreachArbiter` the whole protocol with crashes at any step.
  `BreachHistory` proves that nothing is closed before justice is served, `BreachRecovery`
  that from every reachable state it still can be.
- **Peer bookkeeping.** `PeerConnections` is what happens to the connections of one
  remote node; `PeerRegistry` shows that the server's five maps are its projection;
  `PeerRequests` says when a persistent peer is pursued.
- **Delivery streams.** `InvoiceEvents`, `InvoiceProgress` and `InvoiceNotifier` are the
  invoice notifications, `MessageStream` the bounded in-order stream of a peer.
- **Channel opening.** `OpeningRecords` is the persisted record and its store,
  `ChannelOpening` the opening procedure with crashes and restarts, `OpeningMessages`
  how often it sends what.

`Shortfalls` collects concrete inputs at which the code falls short of its comments.

`Primitives` and `ByteOrder` hold the shared value types, the integer encodings and
the byte order of database keys. Classes stand for the objects whose fields the
source updates; each of their methods is proved against a function on values, and
the lemmas are about those functions. Concurrent code is a set of atomic steps taken
in any order.

## Where the code does less than its comments say

Each entry names the theorem with the exact condition and, after the semicolon, the
lemma of `Shortfalls` at a concrete input.

- *Fee negotiation does not always converge.* A ratchet step is a tenth of the offer,
  rounded down, so offers below 10 stay put. Two closers finish exactly when their
  clamped ideal fees are equal, both at least 7, or one is acceptable to the other:
  `CloseTerminates` and `CloseNeverTerminates`; `FiveAndNineNeverMeet`.
- *Transitions trust their caller.* A nursery transition called on an output in
  another stage leaves the two indexes in disagreement, under the conditions of
  `CribToKinderRefines`, `PreschoolToKinderRefines` and `IncubateRefines`;
  `CribCallOnKindergarten`.
- *Heights can wrap.* A preschool output is due before its time lock expires exactly when
  the height of the lock, or the one after the last graduated height, does not fit 32 bits,
  and a crib output when its height does not fit or its lock is not a delay: `PreschoolDue`
  and `CribDue`; `WrappedHeightIsEarly`.
- *A persistent peer can be abandoned.* A connection cancels the requests for its peer before
  the peer is created; if that fails, nothing asks for it again: `PursuedIff`;
  `FailedCreationAbandons`.
- *Invoices are not delivered exactly once.* The backlog does not advance the client's
  cursors, so an event that is in the database and still queued is sent twice, and so is
  one that is settled again. A zero cursor gets no backlog, and a non-zero settle cursor
  with nothing settled loses the add backlog too: `DeliveryIsExact`, `SentTwiceIff`,
  `MissedIff` and `BacklogIff`; `QueuedAddIsSentTwice`, `SettledAgainIsSentTwice`,
  `ZeroCursorMisses` and `SettleCursorLosesAdds`.
- *A crash can lose the opening record.* Marking a channel open and saving its record
  are two transactions. Stopping between them leaves a channel for which funding
  locked is never sent, and this is the only way to lose one: `RecoverableIff`,
  `LossIsTheGap` and `LostForever`; `CrashInTheGap`.
- *Records have reading limits.* A retribution is read back as written exactly when its
  scripts and tweaks are within the reader's limits, and a compact channel id exactly when
  its height and index fit three bytes each: `DecodeUndoesEncode` and `CompactIdIff`;
  `LongScriptIsLost` and `LargeHeightIsLost`.
- *A replacement may not wait for the peer it replaces.* The scheduled connection is taken
  up by whichever pending watcher runs first: `ReplacementWaitsIff`;
  `EarlierWatcherTakesOver`.
- *A round of watching needs something to watch.* If publishing the justice transaction
  conflicts when no HTLC output is left, the worker waits for ever: `RoundCanEndIff` and
  `RoundsAreDrainable`; `NoHtlcNoEnd`.
- `RemoveChannel` reports success, rather than an unknown channel, while the channel
  index has never been created: `RemoveChannel` and `RemoveFromNewStore` (in `NurseryRuns`).
- The `bufSize` field of a message stream is never set; only its semaphore's capacity counts.

## Model

| member | source | states |
|---|---|---|
| `ByteOrder.BigEndianOrder` | lnd/utxonursery.go:167 | big-endian keys of one width compare, byte by byte, exactly as their numbers |
| `ByteOrder.BeforeIsTotal` | lnd/nursery_store.go:767-802 | the order in which a cursor visits keys is total and antisymmetric |
| `ByteOrder.BytesOrder` | lnd/server.go:2032-2040 | comparing byte strings of one length is comparing the numbers they stand for, most significant byte first |
| `ByteOrder.First` | lnd/nursery_store.go:785-793 | seeking and stepping a cursor: the least key at, or after, a given one, or none if there is none |
| `NurseryIndex.ScheduleEffect` | lnd/nursery_store.go:1119-1203 | putting a key under a height adds exactly that key, keeps the index pruned and keeps every sweep transaction |
| `NurseryIndex.UnscheduleEffect` | lnd/nursery_store.go:1481-1575 | removing a key removes exactly that key, prunes what it empties, and drops a sweep transaction only with its height |
| `NurseryIndex.BucketIffOccupied` | lnd/nursery_store.go:1481-1575 | a height bucket exists if and only if some output is due there |
| `NurseryIndex.LedgerIsUnique` | lnd/nursery_store.go:14-95 | the two indexes stand for at most one plain map |
| `NurseryTransitions.MoveImplementsRestage` | lnd/nursery_store.go:336-600 | deleting a key under its old stage and height and putting it under the new ones changes the plain map in that output alone, in both indexes at once |
| `NurseryTransitions.MoveBreaksAgreement` | lnd/nursery_store.go:336-600 | outside the caller's contract the same bucket operations leave indexes that no plain map fits |
| `NurseryTransitions.CribToKinderRefines` | lnd/nursery_store.go:336-413 | a crib transition implements the ledger's, and keeps the indexes in agreement if and only if the call fits the stored output |
| `NurseryTransitions.PreschoolToKinderRefines` | lnd/nursery_store.go:418-516 | a preschool transition implements the ledger's, and keeps the indexes in agreement if and only if the call fits the stored output; `NurseryLocks.PreschoolDue` says at which height that is |
| `NurseryTransitions.EnrollRefines` | lnd/nursery_store.go:973-1057 | entering an output implements the ledger's arrival, duplicates of the same stage are ignored, and agreement is kept if and only if no other stage holds the outpoint |
| `NurseryTransitions.EnrollForeign` | lnd/nursery_store.go:991-1048 | entering an outpoint stored in another stage always breaks agreement |
| `NurseryTransitions.EnterRefines` | lnd/nursery_store.go:309-331 | a batch does what its outputs do one after another, or leaves an outpoint in two stages, which no later output of the batch repairs |
| `NurseryTransitions.IncubateRefines` | lnd/nursery_store.go:309-331 | incubating implements the arrivals of all kids and then all babies, and keeps the indexes in agreement if and only if none is stored in another stage when its turn comes |
| `NurseryStore.MatureIsUnscheduled` | lnd/nursery_store.go:884-939 | a fully graduated channel has no bucket under any height |
| `NurseryStore.RemovalRepresents` | lnd/nursery_store.go:884-939 | deleting a mature channel's bucket alone keeps the indexes in agreement |
| `NurseryStore.TrackedIffBucket` | lnd/nursery_store.go:1061-1116 | a channel has a bucket if and only if it has an output |
| `NurseryStore.MatureIffAllGrad` | lnd/nursery_store.go:855-874 | looking at the stage prefix of every key decides maturity |
| `NurseryStore.KeysAreLoadable` | lnd/nursery_store.go:1236-1318 | every scheduled key has its output in the channel bucket, so a scan never fails to retrieve one |
| `NurseryStore.ListsCount` | lnd/nursery_store.go:1236-1318 | a list of the outputs of some slots has as many entries as there are slots |
| `NurseryStore.GraduateOne` | lnd/nursery_store.go:544-597 | graduating one more output of a class keeps the indexes in agreement with the ledger in which just those visited have graduated |
| `NurseryStore.SweepRecorded` | lnd/nursery_store.go:1365-1408 | writing or deleting the sweep transaction of an existing height changes that alone |
| `NurseryStore.PruneHeight` | lnd/nursery_store.go:1533-1575 | a height is removed exactly when all its channel buckets are empty |
| `NurseryStore.RemoveOutputFromHeight` | lnd/nursery_store.go:1481-1527 | removes the key, then the channel bucket and the height if they became empty |
| `NurseryStore.LoadOutputs` | lnd/nursery_store.go:1295-1313 | loads each listed output once, with the value stored for it |
| `NurseryStore.EnterEach` | lnd/nursery_store.go:309-331 | the loop enters the outputs one after another |
| `NurseryStore.GraduateChannel` | lnd/nursery_store.go:544-597 | graduates all and only the given outputs of a channel |
| `NurseryStore.GraduateClass` | lnd/nursery_store.go:544-597 | visiting the channels at a height in any order graduates the whole kindergarten class due there |
| `NurseryStore.GraduateKid` | lnd/nursery_store.go:544-597 | graduating one output is the generic move from kindergarten to graduated |
| `NurseryScan.HeightAtCursor` | lnd/nursery_store.go:785-793 | the key under the cursor is the lowest height not yet visited |
| `NurseryScan.Seek` | lnd/nursery_store.go:785-793 | the loop continues exactly while that height is within the bound |
| `NurseryScan.ScanHeights` | lnd/nursery_store.go:767-802 | the scan returns exactly the indexed heights up to the bound, in strictly increasing order |
| `NurseryStore.NurseryStore.constructor` | lnd/nursery_store.go:288-304 | a new store stands for the empty ledger |
| `NurseryStore.NurseryStore.Incubate` | lnd/nursery_store.go:309-331 | for any outputs: the new indexes, that they agree with a ledger if and only if the call fits, and then with the one in which the kids and then the babies have arrived |
| `NurseryStore.NurseryStore.CribToKinder` | lnd/nursery_store.go:336-413 | for any output: the new indexes, that they agree with a ledger if and only if the call fits, and then with the one in which the output is in kindergarten at the height of `NurseryLocks.CribDue` |
| `NurseryStore.NurseryStore.PreschoolToKinder` | lnd/nursery_store.go:418-516 | for any output: the new indexes, that they agree with a ledger if and only if the call fits, and then with the one in which the output is in kindergarten at the height of `NurseryLocks.PreschoolDue` |
| `NurseryStore.NurseryStore.GraduateKinder` | lnd/nursery_store.go:523-600 | all and only the kindergarten outputs due at the height have graduated, cribs stay, the height's sweep transaction is gone |
| `NurseryStore.NurseryStore.FinalizeKinder` | lnd/nursery_store.go:1365-1408 | the height is the last finalized; its sweep transaction is recorded if one is given and something is due there |
| `NurseryStore.NurseryStore.GraduateHeight` | lnd/nursery_store.go:1458-1472 | the height is the last graduated, and nothing else changes |
| `NurseryStore.NurseryStore.ForEachHeightPrefix` | lnd/nursery_store.go:1236-1318 | visits each output of one stage due at a height exactly once, with its stored value and without error |
| `NurseryStore.NurseryStore.FetchClass` | lnd/nursery_store.go:627-690 | returns the sweep transaction on record, and exactly the kindergarten and crib outputs due at the height |
| `NurseryStore.NurseryStore.FetchPreschools` | lnd/nursery_store.go:694-763 | returns every preschool output of every channel once |
| `NurseryStore.NurseryStore.IsMatureChannel` | lnd/nursery_store.go:855-874 | true exactly when all outputs have graduated; an unknown channel is an error |
| `NurseryStore.NurseryStore.RemoveChannel` | lnd/nursery_store.go:884-939 | succeeds exactly on a mature channel (or before any exists), drops its outputs and no others, and leaves the height index as it was |
| `NurseryStore.NurseryStore.HeightsBelowOrEqual` | lnd/nursery_store.go:767-802 | exactly the heights up to the bound at which something is due, increasing |
| `NurseryRuns.Perform` | lnd/nursery_store.go:309-939 | each call on the store does to the ledger what the operation does, and keeps the two indexes in agreement with it |
| `NurseryRuns.Replay` | lnd/nursery_store.go:309-939 | after every sequence of calls the indexes agree with the ledger of that run |
| `NurseryRuns.ApplyAdvances` | lnd/nursery_store.go:336-600 | no operation but removal drops an output or moves it back |
| `NurseryRuns.OnlyIncubateBrings` | lnd/nursery_store.go:309-331 | only incubation adds outputs |
| `NurseryRuns.ApplyKeepsSweep` | lnd/nursery_store.go:1365-1434 | a recorded sweep transaction survives every other operation while a kindergarten output is due at its height |
| `NurseryRuns.RunWellFormed` | lnd/nursery_store.go:309-939 | after every sequence of calls, cribs are due at their expiry, kindergarten outputs at one height, the others at none |
| `NurseryRuns.StagesOnlyAdvance` | lnd/nursery_store.go:309-600 | over every run, an output whose channel is not removed stays, in the same or a later stage |
| `NurseryRuns.OutputsWereIncubated` | lnd/nursery_store.go:309-331 | over every run, each stored output was brought in by some incubation |
| `NurseryRuns.SweepIsDurable` | lnd/nursery_store.go:523-540 | over every run, a sweep transaction stays on record until it is replaced or its class graduates |
| `NurseryRuns.LateRegistration` | lnd/nursery_store.go:484-495 | a preschool output is always scheduled after the last graduated height, unless that is the largest 32-bit height |
| `NurseryRuns.Partition` | lnd/nursery_store.go:627-802 | outputs due at the scheduled heights, preschool and graduated outputs are disjoint and are all there is |
| `NurseryRuns.FetchEverything` | lnd/nursery_store.go:627-802 | calling FetchClass for every height that HeightsBelowOrEqual reports, and FetchPreschools, returns every output that has not graduated exactly once, with its stored value |
| `NurseryRuns.RemoveFromNewStore` | lnd/nursery_store.go:884-939 | removing any channel from a store that never held one succeeds |
| `NurseryLocks.PreschoolDue` | lnd/nursery_store.go:465-495 | a preschool output is due at its absolute lock, or its delay after confirmation, or else just after the last graduated height; it is due before its lock if and only if a height does not fit 32 bits |
| `NurseryLocks.CribDue` | lnd/nursery_store.go:390-393 | a crib output is due its delay after confirmation; before its lock if and only if the sum does not fit, or it has an unexpired absolute lock and no delay |
| `NurseryLocks.OnlyTheNamedMove` | lnd/nursery_store.go:336-939 | for each output separately: what every operation but incubation does to it, and that it leaves all but the ones it is for alone |
| `NurseryLocks.BatchKeeps` | lnd/nursery_store.go:309-331 | a batch leaves stored outputs alone and adds only its own, babies at their expiry and kids unscheduled |
| `NurseryLocks.IncubateArrives` | lnd/nursery_store.go:309-331 | after an incubation every kid of it is in preschool and every baby in the crib |
| `NurseryLocks.RunKeepsLocks` | lnd/nursery_store.go:309-939 | over every run whose heights fit, no kindergarten output is ever due before its lock expires |
| `NurseryLocks.NothingIsSweptEarly` | lnd/nursery_store.go:627-690 | in every such run the kindergarten class of a height holds only outputs whose lock has expired by then |
| `NurseryLocks.SweepAfter` | lnd/nursery_store.go:1365-1434 | a finalized transaction is on record if something is due there, a graduated one is not, and no other operation writes one |
| `NurseryLocks.HeightsAfter` | lnd/nursery_store.go:1365-1472 | the last graduated and the last finalized height are those last given |
| `FeeNegotiation.RatchetIsStrictlyBetween` | lnd/chancloser.go:522-549 | a ratchet moves strictly towards an unacceptable offer if and only if the fee is at least 10, and otherwise not at all |
| `FeeNegotiation.CompromiseIsStrictlyBetween` | lnd/chancloser.go:554-615 | the next offer lies strictly between our last and the peer's, if and only if our last is at least 10 |
| `FeeNegotiation.AcceptableMeans` | lnd/chancloser.go:522-535 | an offer is acceptable if and only if it differs from ours by at most three tenths of ours |
| `FeeNegotiation.RatchetStep` | lnd/chancloser.go:541-549 | a ratchet moves by a tenth of the fee, rounded down, up or down as asked |
| `FeeNegotiation.CompromiseAgreesIff` | lnd/chancloser.go:554-615 | the first offer is the ideal; a later one meets the peer's if and only if that is our ideal or within three tenths, and otherwise is a tenth nearer |
| `ChannelCloser.ChannelCloser.constructor` | lnd/chancloser.go:152-191 | starts idle, without offers, at the ideal fee capped by the commitment fee |
| `ChannelCloser.ChannelCloser.Shutdown` | lnd/chancloser.go:218-240 | sends a shutdown once; refused in any other state |
| `ChannelCloser.ChannelCloser.ProposeCloseSigned` | lnd/chancloser.go:485-516 | the offer is signed for its fee and recorded under it as the last one |
| `ChannelCloser.ChannelCloser.Process` | lnd/chancloser.go:270-480 | the new state, the messages sent, whether it is done and the error are those of the value machine |
| `ChannelCloser.ReplyMeans` | lnd/chancloser.go:270-480 | an unexpected message is refused, exactly if its kind is wrong for the state, without effect; an error sends nothing; done is reported exactly when finished |
| `ChannelCloser.FinishMeans` | lnd/chancloser.go:405-459 | a closer finishes only on the peer's signature over what it signed itself, holds that transaction and sends its signature back |
| `ChannelCloser.ShutdownMeans` | lnd/chancloser.go:285-362 | the peer's shutdown is answered with ours exactly if none was sent, and with an offer of the ideal fee exactly by the funder |
| `ChannelCloser.ShutdownOnce` | lnd/chancloser.go:218-240 | a close can be started once: a second request, or one after the peer's, is refused without effect |
| `CloseProtocol.OfferArrives` | lnd/chancloser.go:365-459 | an offer in flight is answered by a nearer one or accepted at a fee the sender has signed |
| `CloseProtocol.AcceptanceArrives` | lnd/chancloser.go:374-459 | the accepted fee is found among the prior offers, and both sides hold the same transaction |
| `CloseProtocol.RunKeepsInv` | lnd/chancloser.go:270-480 | every run, in any order of shutdowns and deliveries, stays in the four phases of a close |
| `CloseProtocol.Agreement` | lnd/chancloser.go:270-480 | in every run no message is refused, and two finished sides hold the same transaction at a fee between the clamped ideals, never above the commitment fee and never above both ideals |
| `CloseProtocol.QuietMeansClosed` | lnd/chancloser.go:270-480 | once started, the exchange stops only when both have finished |
| `CloseProtocol.RatchetMakesProgress` | lnd/chancloser.go:541-615 | each ratcheted offer leaves strictly fewer offers to be made |
| `CloseProtocol.CloseTerminates` | lnd/chancloser.go:152-615 | for convergent ideals every run delivers a bounded number of messages, at most their distance plus 7 if both are at least 10 |
| `CloseProtocol.CloseNeverTerminates` | lnd/chancloser.go:541-615 | for all other ideals no run ever finishes, and there is always another message to deliver |
| `CloseRatchets.OfferRatchets` | lnd/chancloser.go:365-403 | a second or later offer that is not an acceptance brings the two sides strictly nearer |
| `CloseRatchets.RatchetsAreBounded` | lnd/chancloser.go:541-615 | with both clamped ideals at least 10, no run makes more ratcheted offers than the ideals are apart |
| `CloseRatchets.OfferNarrows` | lnd/chancloser.go:365-403 | a ratcheted offer narrows the ratio of the two last offers to at most 19/20 |
| `CloseRatchets.RatchetsAreLogarithmic` | lnd/chancloser.go:541-615 | after k ratcheted offers of any run, (20/19)^k is at most the ratio of the clamped ideals |
| `CloseRatchets.FourteenPerDoubling` | lnd/chancloser.go:541-615 | fewer than 14(m+1) ratcheted offers in any run if one clamped ideal is at most 2^m times the other |
| `WireCodec.VarIntBack` | lnd/breacharbiter.go:1351-1400 | a CompactSize count is read back, leaving the rest of the stream |
| `WireCodec.VarBytesBack` | lnd/breacharbiter.go:1430-1468 | a byte string is read back if and only if it is within the reader's limit |
| `WireCodec.OutPointBack` | lnd/utxonursery.go:1692-1723 | an outpoint is read back, leaving the rest of the stream |
| `WireCodec.KeysDiffer` | lnd/utxonursery.go:1692-1705 | different outpoints have different keys |
| `WireCodec.ManyBack` | lnd/breacharbiter.go:1352-1407 | a counted list is read back exactly when each of its elements is |
| `WireCodec.EncodeMany` | lnd/breacharbiter.go:1356-1360 | the loop writes the elements in order after what is there |
| `WireCodec.DecodeMany` | lnd/breacharbiter.go:1402-1407 | the loop reads that many elements, or fails if one is malformed |
| `RetributionCodec.SignDescBack` | lnd/lnwallet/signdescriptor.go:87-225 | a sign descriptor is read back exactly when its tweaks and scripts are within the limits |
| `RetributionCodec.TxOutBack` | lnd/lnwallet/txout.go:11-46 | an output is read back if and only if its script has at most 80 bytes |
| `RetributionCodec.OutputBack` | lnd/breacharbiter.go:1413-1474 | a breached output is read back exactly when it fits |
| `RetributionCodec.OutputsBack` | lnd/breacharbiter.go:1396-1407 | any number of breached outputs is read back exactly when all fit |
| `RetributionCodec.RetributionBack` | lnd/breacharbiter.go:1331-1410 | the same for a whole record |
| `RetributionCodec.DecodeUndoesEncode` | lnd/breacharbiter.go:1331-1474 | decoding an encoded record followed by any bytes yields it and leaves exactly those bytes, if and only if all outputs fit |
| `RetributionCodec.Encode` | lnd/breacharbiter.go:1331-1363 | writing field by field appends the encoded record |
| `RetributionCodec.Decode` | lnd/breacharbiter.go:1366-1410 | reading field by field yields the record and the rest, or fails where a field is malformed |
| `RetributionLayout.RecordLayout` | lnd/breacharbiter.go:1331-1363 | the stored bytes: commitment hash, channel point, chain hash, height with the most significant byte first, and the outputs after their number |
| `RetributionLayout.OutputLayout` | lnd/breacharbiter.go:1413-1440 | the bytes of an output: amount in two's complement, outpoint, sign descriptor, second-level script and witness type |
| `RetributionLayout.SignDescLayout` | lnd/lnwallet/signdescriptor.go:87-110 | key family, key index and whether a public key follows |
| `RetributionLayout.ScriptsLayout` | lnd/lnwallet/signdescriptor.go:111-140 | single tweak, double tweak and witness script, each after its length, then the output and the hash type |
| `RetributionLayout.RecordSize` | lnd/breacharbiter.go:1331-1440 | the number of bytes of a record of any number of outputs |
| `KeyedBucket.PutMirrors` | lnd/breacharbiter.go:1154-1175 | a put under an encoded key changes one entry of the map the bucket stands for |
| `KeyedBucket.DeleteMirrors` | lnd/breacharbiter.go:1267-1302 | so does a delete |
| `KeyedBucket.ReadAll` | lnd/breacharbiter.go:1306-1328 | reads every value exactly once, in any order, and fails if and only if one cannot be decoded |
| `RetributionStore.RecordReadsBack` | lnd/breacharbiter.go:1154-1328 | what Add writes, ForAll reads |
| `RetributionStore.ReadableIsRecovered` | lnd/breacharbiter.go:1306-1328 | decoding undoes encoding for every stored retribution when all are within the reader's limits |
| `RetributionStore.Store.constructor` | lnd/breacharbiter.go:1146-1150 | starts without retributions or justice transactions |
| `RetributionStore.Store.Add` | lnd/breacharbiter.go:1154-1175 | stores the record under its channel point and changes nothing else |
| `RetributionStore.Store.Finalize` | lnd/breacharbiter.go:1180-1200 | records the justice transaction of a channel and changes nothing else |
| `RetributionStore.Store.GetFinalizedTxn` | lnd/breacharbiter.go:1205-1235 | the recorded justice transaction, or none |
| `RetributionStore.Store.IsBreached` | lnd/breacharbiter.go:1241-1263 | true exactly for the channels with a stored retribution |
| `RetributionStore.Store.Remove` | lnd/breacharbiter.go:1267-1302 | removes both entries of one channel; fails without change if nothing was ever stored |
| `RetributionStore.Store.ForAll` | lnd/breacharbiter.go:1306-1328 | visits every stored retribution once, fails if and only if one cannot be decoded, and yields them as they were added if decoding undoes encoding |
| `Justice.NewRetributionInfo` | lnd/breacharbiter.go:856-934 | one output per commitment output above dust and per HTLC, in order, each sweepable for the value it signs |
| `Justice.OutputsOfBreach` | lnd/breacharbiter.go:856-934 | each output keeps its outpoint, descriptor, amount and second-level script, and is spent as our own, as revoked, or as an accepted or offered HTLC by its direction |
| `Justice.SweepIsComplete` | lnd/breacharbiter.go:940-1003 | every such output is an input, and the signed values are the amounts |
| `Justice.CreateJusticeTx` | lnd/breacharbiter.go:940-1003 | spends the recognized outputs for their sum less the fee for their weight, and fails exactly if that is not a sane transaction |
| `Justice.SweepSpendableOutputs` | lnd/breacharbiter.go:1006-1058 | one output worth the inputs less the fee, or an error |
| `Justice.FeeRoundsDown` | lnd/lnwallet/fee_estimator.go:36-39 | the fee is the rate per thousand weight units, rounded down |
| `Justice.WitnessesAddUp` | lnd/lnwallet/size.go:74-359 | each witness size is that of its signature, key and script, and no other witness type is recognized |
| `Justice.JusticeIsStandard` | lnd/lnwallet/size.go:182-187 | the justice transaction for any breach of a channel with at most 966 HTLCs is within the standard weight, also after conversions |
| `Justice.OneMoreIsTooMany` | lnd/lnwallet/size.go:182-187 | 966 is exact: with both commitment outputs and accepted HTLCs the weight is within the limit if and only if there are no more |
| `Justice.SaneIff` | lnd/breacharbiter.go:1053-1058 | a sweep is sane if and only if it spends something, nothing twice, and pays out at most 21 million coins |
| `JusticeWeight.WeightIsExact` | lnd/lnwallet/size.go:476-488 | the weight computed is three times the size of the serialized transaction without witnesses plus its whole size |
| `JusticeWeight.SweepPaysForItsWeight` | lnd/breacharbiter.go:1006-1038 | what a sweep pays in fees is the rate for its own serialized weight, rounded down |
| `Justice.CheckDistinct` | lnd/breacharbiter.go:1053-1058 | detects a repeated input |
| `Justice.SecondLevel` | lnd/breacharbiter.go:280-312 | a converted output spends the first output of the spending transaction for its value, with the second-level script and the same key, and is no longer watched |
| `Justice.ConversionShrinks` | lnd/breacharbiter.go:280-312 | each round leaves as many fewer watched HTLC outputs as it found spends |
| `Justice.DrainSpends` | lnd/breacharbiter.go:430-448 | the in-place update converts exactly the spent outputs |
| `Justice.DrainableIff` | lnd/breacharbiter.go:343-352 | a round of watching can find something if and only if an HTLC output is left |
| `Justice.BuildAndRecord` | lnd/breacharbiter.go:504-524 | the transaction on record spends every output, and building fails exactly if that is not a sane transaction |
| `Justice.ExactJustice` | lnd/breacharbiter.go:493-558 | at most one broadcast per HTLC output and one more, each transaction on record before it is published, the last one spending every output unless it waits for a spend that never comes |
| `SpendWatch.RunKeepsInv` | lnd/breacharbiter.go:320-454 | in every interleaving each spend event is in exactly one place: its subscription, a goroutine or the result |
| `SpendWatch.SendersNeverBlock` | lnd/breacharbiter.go:330-419 | a goroutine that has seen a spend can always send it and signal |
| `SpendWatch.DrainedRound` | lnd/breacharbiter.go:421-454 | a round yields at least one spend, of distinct watched outputs, and leaves every other event in its cached subscription |
| `SpendWatch.NothingToWaitFor` | lnd/breacharbiter.go:421-451 | a round with no watched output never ends |
| `SpendWatch.RoundCanEndIff` | lnd/breacharbiter.go:320-454 | a round can end if and only if it watches some output |
| `SpendWatch.RoundsAreDrainable` | lnd/breacharbiter.go:320-454 | a round can end with a given list of spends if and only if they are of distinct watched outputs and there is one: exactly the rounds the retry loop allows for |
| `BreachArbiter.RunKeepsInv` | lnd/breacharbiter.go:141-750 | with crashes at any step, one goroutine owns each channel and each finds on disk what its position implies |
| `BreachArbiter.CrashSafety` | lnd/breacharbiter.go:640-750 | an acknowledged breach is stored or fully closed (`BreachHistory.ClosedIsServed` says what closed means); justice transactions belong to stored retributions |
| `BreachArbiter.PublishIsRecorded` | lnd/breacharbiter.go:493-531 | a transaction about to be published is the one on record, and nobody else works on its channel |
| `BreachArbiter.StartResumesEach` | lnd/breacharbiter.go:141-222 | Start launches exactly one retribution for each breach it read |
| `BreachArbiter.StartLoadsOpenBreaches` | lnd/breacharbiter.go:141-222 | after Start's loop over the closed channels, in every run, what it resumes is exactly what it found stored less what is fully closed, and the store holds the same |
| `BreachHistory.RunKeepsHistory` | lnd/breacharbiter.go:141-750 | in every run with crashes, each goroutine's position, each justice transaction on record and each closed channel has its cause in an earlier event |
| `BreachHistory.ClosedIsServed` | lnd/breacharbiter.go:493-618 | in every run a channel is fully closed, or about to be, only after its breach was confirmed and a justice transaction was built and recorded, published, and confirmed |
| `BreachHistory.CauseComesFirst` | lnd/breacharbiter.go:493-618 | confirmation of the breach, building, publishing and confirmation of the justice transaction each come strictly after the one before |
| `BreachHistory.ReplacedAfterConflict` | lnd/breacharbiter.go:504-558 | a justice transaction on record is replaced only after publishing it met a conflict |
| `BreachHistory.StoredIsKept` | lnd/breacharbiter.go:141-750 | in every run, whatever happens next, a stored retribution is not changed, also by another event for the same breach, and is removed only when its channel is fully closed |
| `BreachHistory.StoredWasReported` | lnd/breacharbiter.go:640-700 | in every run each stored retribution is one that a breach event of its channel brought |
| `BreachHistory.RetributionsAreCounted` | lnd/breacharbiter.go:141-750 | every goroutine in a retribution was counted when it was started, at Start or by a breach event |
| `BreachHistory.UndisturbedServes` | lnd/breacharbiter.go:460-750 | however it is interleaved with others, a goroutine that meets no failure or crash takes a bounded number of steps, three more for each conflict; when it ends, the breach is acknowledged and the channel it owned fully closed |
| `BreachHistory.ThreeStepsToReady` | lnd/breacharbiter.go:460-531 | three undisturbed steps after it was resumed, a retribution has its justice transaction recorded and ready to be published |
| `BreachRecovery.RestartResumes` | lnd/breacharbiter.go:141-222 | from every state of every run a crash and a start lead to a running arbiter with a goroutine for each stored breach that is not fully closed |
| `BreachRecovery.StoredCanBeServed` | lnd/breacharbiter.go:141-618 | from every state of every run a stored breach can still be completed: its channel closed and both its records gone |
| `BreachRecovery.AcknowledgedIsServed` | lnd/breacharbiter.go:640-750 | an acknowledged breach has been served or still can be |
| `PeerConnections.OneSideGivesWay` | lnd/server.go:2032-2040 | of two nodes exactly one drops its own connection |
| `PeerConnections.LargerKeyGivesWay` | lnd/server.go:2032-2040 | the node with the numerically larger key drops its own connection |
| `PeerConnections.BothSidesDecideAlike` | lnd/server.go:2046-2233 | between two nodes that hold a connection of the same direction, the two ends of a new one decide alike whether it replaces the old |
| `PeerConnections.RunKeepsInv` | lnd/server.go:2046-2602 | every connection that arrived is live, scheduled, closed or lost; a scheduled one has no live rival but a departing peer; the watchers yet to run are those of the live and departing peers |
| `PeerConnections.WatcherSparesOthers` | lnd/server.go:2431-2568 | in every interleaving a watcher that was started and runs never takes down another peer, although it forgets whichever is filed |
| `PeerConnections.TieBreakIsSameDirection` | lnd/server.go:2046-2233 | the key comparison matters if and only if the live connection has the new one's direction |
| `PeerConnections.ScheduledIsTakenUp` | lnd/server.go:2431-2497 | in every interleaving, while a connection is scheduled some watcher is pending, and whichever runs next makes it live |
| `PeerConnections.ReplacementWaitsIff` | lnd/server.go:2431-2497 | a scheduled connection waits for the peer it replaces, in every continuation, if and only if no other peer of that key was leaving when it was scheduled |
| `PeerRegistry.HandlerRefines` | lnd/server.go:2046-2602 | each handler moves exactly one node's automaton and keeps the maps its projection |
| `PeerRegistry.InboundFollows` | lnd/server.go:2046-2124 | an inbound connection, in every branch |
| `PeerRegistry.OutboundFollows` | lnd/server.go:2129-2233 | an outbound connection, in every branch |
| `PeerRegistry.DisconnectFollows` | lnd/server.go:2729-2761 | a requested disconnection |
| `PeerRegistry.TerminationFollows` | lnd/server.go:2431-2568 | a watcher run, ignored or not, for any watcher that was started |
| `PeerRegistry.RunInOrder` | lnd/server.go:2046-2602 | in every interleaving of calls the maps project reachable nodes |
| `PeerRegistry.SingleConnection` | lnd/server.go:2335-2360 | the peers by key are the disjoint union of inbound and outbound ones; a scheduled key has no live peer but an ignored one whose watcher was started and has not run |
| `PeerRegistry.WatchersAreAccountedFor` | lnd/server.go:2288-2331 | in every interleaving the watchers started and not yet run are exactly those of the ignored and the live peers |
| `PeerRegistry.WatcherRemovesItsOwnPeer` | lnd/server.go:2572-2602 | a watcher that was started finds its own peer filed and removes it and no other, or was told to ignore it and removes none |
| `PeerRegistry.RequestsArePersistent` | lnd/server.go:2247-2282 | in every interleaving, connection requests are outstanding only for persistent peers |
| `PeerRegistry.DisconnectSticks` | lnd/server.go:2729-2761 | after a requested disconnection, and until a persistent connection is asked for again, no request is outstanding and an answer to an old one is closed |
| `PeerRequests.PersistentIff` | lnd/server.go:2640-2761 | a peer is persistent if and only if that was asked for while it was not connected and it was not disconnected on request since |
| `PeerRequests.ConnectionCancelsRequests` | lnd/server.go:2046-2282 | a connection that is taken up, live or scheduled, cancels all requests for its key; one that is ignored changes nothing |
| `PeerRequests.PursuedIff` | lnd/server.go:2046-2568 | in every interleaving a persistent peer is connected, scheduled or asked for, if and only if no failed creation, with the request already cancelled, has abandoned it |
| `PeerRequests.WantedIsPursued` | lnd/server.go:2046-2568 | so always, if every peer could be created |
| `PeerRequests.LostIsAskedFor` | lnd/server.go:2495-2529 | a persistent peer that is lost, and neither replaced nor disconnected, is asked for at once |
| `PeerRegistry.AskingFollows` | lnd/server.go:2640-2706 | asking for a connection does not touch the peers |
| `PeerRegistry.Server.constructor` | lnd/server.go:2335-2360 | starts with empty maps |
| `PeerRegistry.Server.Connected` | lnd/server.go:2288-2360 | files the new peer under its key and direction, if it could be created |
| `PeerRegistry.Server.Remove` | lnd/server.go:2572-2602 | unfiles it |
| `PeerRegistry.Server.Inbound` | lnd/server.go:2046-2124 | changes the maps as the inbound handler on values |
| `PeerRegistry.Server.Outbound` | lnd/server.go:2129-2233 | changes the maps as the outbound handler on values |
| `PeerRegistry.Server.Disconnect` | lnd/server.go:2729-2761 | changes the maps as the disconnect handler on values; an error if not connected |
| `PeerRegistry.Server.Connect` | lnd/server.go:2640-2706 | leaves a request for a persistent peer; an error if already connected |
| `PeerRegistry.Server.TerminationWatcher` | lnd/server.go:2431-2568 | changes the maps as the watcher on values, of which `PeerRequests.LostIsAskedFor` says that it asks again for a lost persistent peer |
| `InvoiceEvents.RunKeepsInv` | lnd/invoiceregistry.go:100-385 | in every interleaving queued events are in index order up to the database's, and each client's deliveries fit its cursors |
| `InvoiceEvents.NotifyKeepsTrack` | lnd/invoiceregistry.go:136-195 | offering the next or a repeated event to a client keeps its live deliveries increasing and complete |
| `InvoiceEvents.JoinedFits` | lnd/invoiceregistry.go:205-251 | a new client has been sent exactly the entries between its cursor and the database's count |
| `InvoiceEvents.OnceOrTwice` | lnd/invoiceregistry.go:108-251 | an event above the cursor that was dispatched since, or is in the backlog, arrives once or twice, one at or below it never |
| `InvoiceEvents.DeliveryIsExact` | lnd/invoiceregistry.go:108-251 | for both kinds and every interleaving: live deliveries strictly increase, and an event arrives once for the backlog and once if it was first dispatched after the client joined or came again ahead of everything offered since |
| `InvoiceEvents.SentTwiceIff` | lnd/invoiceregistry.go:108-251 | an event is sent twice if and only if it was in the backlog and dispatched, or came again, after the client joined |
| `InvoiceEvents.MissedIff` | lnd/invoiceregistry.go:205-251 | a dispatched event above the cursor is missed if and only if it came before the client, which got no backlog, and not again |
| `InvoiceEvents.DecidedOnJoining` | lnd/invoiceregistry.go:108-251 | for add events, and for settle events of runs that settle nothing twice, the count is decided when the client joins |
| `InvoiceEvents.NothingMissedIff` | lnd/invoiceregistry.go:205-251 | a client misses no event of a kind if and only if it was sent a backlog or everything that had been dispatched past its cursor came again |
| `InvoiceEvents.NothingMissedOnJoining` | lnd/invoiceregistry.go:205-251 | without repeated settlement, if and only if it was sent a backlog or nothing past its cursor had been dispatched |
| `InvoiceEvents.BacklogIff` | lnd/channeldb/invoices.go:256-313 | an add backlog is sent if and only if the add cursor is not zero and the settle index can be read or is not asked for |
| `InvoiceProgress.StuckIff` | lnd/invoiceregistry.go:100-135 | writer and notifier are stuck if and only if nothing is pending, queued or being registered |
| `InvoiceProgress.EveryEventIsDispatched` | lnd/invoiceregistry.go:100-195 | however they are scheduled, they take exactly the steps that were left and then stop, with every event dispatched |
| `InvoiceProgress.NothingOutstanding` | lnd/invoiceregistry.go:136-251 | at rest a client has received every event above its cursor that was written since it joined or is in its backlog |
| `InvoiceProgress.QueueHoldsAHundred` | lnd/invoiceregistry.go:60-70 | a writer can get ahead of the notifier by n events if and only if n is at most 100 |
| `InvoiceProgress.SettlesAgain` | lnd/channeldb/invoices.go:865-877 | settling a settled invoice again repeats its event and changes nothing else |
| `InvoiceProgress.ClientsStay` | lnd/invoiceregistry.go:108-195 | in every continuation without its cancellation a client stays registered, and nothing it was sent is taken back |
| `InvoiceProgress.SubscribersAreRegistered` | lnd/invoiceregistry.go:108-126 | a subscription that has begun is completed before the notifier does anything else |
| `InvoiceProgress.CanLeave` | lnd/invoiceregistry.go:128-134 | a client can always leave |
| `InvoiceNotifier.EntriesSince` | lnd/channeldb/invoices.go:256-313 | the entries above the cursor in order; none for zero |
| `InvoiceNotifier.SendBacklog` | lnd/invoiceregistry.go:222-248 | the loop queues exactly those entries, after what is queued |
| `InvoiceNotifier.SendEvent` | lnd/invoiceregistry.go:138-194 | sends the event unless the cursor is at or past it, and moves the cursor only then |
| `InvoiceNotifier.Notifier.constructor` | lnd/invoiceregistry.go:60-70 | starts without clients |
| `InvoiceNotifier.Notifier.Subscribe` | lnd/invoiceregistry.go:108-126 | registering takes the model's step, whether or not the backlog can be read |
| `InvoiceNotifier.Notifier.Dispatch` | lnd/invoiceregistry.go:136-195 | the loop offers the event to every client once, in any order |
| `InvoiceNotifier.Notifier.Cancel` | lnd/invoiceregistry.go:128-134 | forgets one client |
| `MessageStream.RunKeepsInv` | lnd/peer.go:744-822 | in every interleaving free tokens, reserved slots, queued messages and the one being applied add up to the buffer size, and no wake-up is lost |
| `MessageStream.BoundedAndInOrder` | lnd/peer.go:696-822 | the queue never exceeds the buffer size, returning a token never blocks, messages are applied in the order queued |
| `MessageStream.CallOrderIsKept` | lnd/peer.go:744-822 | each producer's messages are applied in the order of its calls |
| `MessageStream.StuckMeansDone` | lnd/peer.go:744-822 | with room for one message, no goroutine can move if and only if every message has been applied and the consumer sleeps |
| `MessageStream.EveryMessageIsApplied` | lnd/peer.go:744-822 | however they are scheduled, the goroutines stop within a computed number of steps, and then every message has been applied |
| `MessageStream.NoRoomNoProgress` | lnd/peer.go:696-718 | a stream of size zero never queues or applies anything |
| `MessageStream.MsgStream.constructor` | lnd/peer.go:696-718 | the loop fills the semaphore |
| `MessageStream.MsgStream.Acquire` | lnd/peer.go:799-812 | takes a token if there is one |
| `MessageStream.MsgStream.Append` | lnd/peer.go:814-822 | queues the message, within the buffer size |
| `MessageStream.MsgStream.Take` | lnd/peer.go:752-780 | takes the oldest message, or sleeps exactly if there is none |
| `MessageStream.MsgStream.Release` | lnd/peer.go:784-795 | returns the token; there is always room for it |
| `OpeningRecords.CompactIdIff` | lnd/lnwire/short_channel_id.go:29-43 | the compact form gives an id back if and only if its height and index fit three bytes |
| `OpeningRecords.CompactIdStable` | lnd/lnwire/short_channel_id.go:29-43 | every compact form is that of the id read from it |
| `OpeningRecords.RecordBack` | lnd/fundingmanager.go:3042-3082 | the ten bytes give back the state and the stored form of the id |
| `OpeningRecords.StateByte` | lnd/fundingmanager.go:3042-3082 | the second byte alone decides the state: 0, 1 and 2 are the three states, written with a zero before them |
| `OpeningRecords.OpeningStore.constructor` | lnd/fundingmanager.go:3029-3106 | starts without records |
| `OpeningRecords.OpeningStore.Save` | lnd/fundingmanager.go:3029-3051 | replaces the record of one channel |
| `OpeningRecords.OpeningStore.Get` | lnd/fundingmanager.go:3056-3089 | the record last saved, or not found |
| `OpeningRecords.OpeningStore.Delete` | lnd/fundingmanager.go:3092-3106 | removes one record; an error if none was ever saved |
| `ChannelOpening.StepKeepsInv` | lnd/fundingmanager.go:1912-2287 | every step, crash and restart keeps worker, record and sent messages consistent |
| `ChannelOpening.RankAdvances` | lnd/fundingmanager.go:1912-2287 | the persisted state never regresses and never skips a stage |
| `ChannelOpening.RunKeepsInv` | lnd/fundingmanager.go:587-693 | both hold over every run |
| `ChannelOpening.OpeningIsOrdered` | lnd/fundingmanager.go:2005-2287 | funding locked precedes the graph messages, these the announcement, which if public waits for max(6, required) confirmations; the record is deleted only after all four |
| `ChannelOpening.DepthIsAwaited` | lnd/fundingmanager.go:2196-2220 | in every run funding locked is sent at the required depth or later, and a public announcement at that depth and at least six confirmations |
| `ChannelOpening.AnnounceIff` | lnd/fundingmanager.go:2196-2220 | a public channel can be announced if and only if it has six confirmations and as many as it required; a private one at once |
| `ChannelOpening.OneChannelId` | lnd/fundingmanager.go:2081-2287 | every message carries the confirmed channel id, if the record can hold it |
| `ChannelOpening.LossIsTheGap` | lnd/fundingmanager.go:1912-1937 | a channel becomes lost if and only if it stops between the two writes that open it |
| `ChannelOpening.LostForever` | lnd/fundingmanager.go:587-602 | a lost channel never sends anything again |
| `ChannelOpening.UndisturbedFinishes` | lnd/fundingmanager.go:1968-2000 | however blocks and the worker's steps alternate, a worker that is not disturbed takes a bounded number of steps, can take one whenever the chain is deep enough, and stops only when the record is deleted |
| `ChannelOpening.RecoverableIff` | lnd/fundingmanager.go:587-693 | in every reachable state the opening can still be completed if and only if the channel is not lost |
| `OpeningMessages.OncePerStart` | lnd/fundingmanager.go:587-2287 | in every run each of the four messages is sent at most once, and once more for each restart |
| `OpeningMessages.ExactlyOnce` | lnd/fundingmanager.go:1968-2287 | a completed opening without restarts has sent each exactly once |
| `OpeningMessages.DepthIsBlocks` | lnd/fundingmanager.go:2200-2220 | the depth at which a message is sent is the number of blocks so far |
| `OpeningMessages.FailureWaitsForRestart` | lnd/fundingmanager.go:1968-2000 | a worker that fails leaves records and messages as they are, and nothing more happens until the node has gone down |
| `Shortfalls.FiveAndNineNeverMeet` | lnd/chancloser.go:541-615 | ideal fees 5 and 9: after four steps, every two deliveries bring back the same state |
| `Shortfalls.CribCallOnKindergarten` | lnd/nursery_store.go:336-413 | a crib call on a stored kindergarten output leaves indexes no ledger fits |
| `Shortfalls.WrappedHeightIsEarly` | lnd/nursery_store.go:465-495 | confirmed at height 2^32 - 1 with a delay of one block, an output is due at height 1 |
| `Shortfalls.LongScriptIsLost` | lnd/breacharbiter.go:1460-1464 | a second-level script of 1001 bytes is not read back |
| `Shortfalls.NoHtlcNoEnd` | lnd/breacharbiter.go:421-451 | a conflict over a commitment output alone is waited on for ever |
| `Shortfalls.EarlierWatcherTakesOver` | lnd/server.go:2475-2491 | after three connections, the watcher of the first makes the third live while the second is still leaving |
| `Shortfalls.FailedCreationAbandons` | lnd/server.go:2129-2233 | the answer to the only request for a persistent peer fails to create it, and it is neither connected nor asked for |
| `Shortfalls.QueuedAddIsSentTwice` | lnd/invoiceregistry.go:205-251 | an add event that is stored and still queued when a client joins is sent twice |
| `Shortfalls.SettledAgainIsSentTwice` | lnd/channeldb/invoices.go:865-877 | a settled invoice that is settled again is sent twice to a client that had it in its backlog |
| `Shortfalls.ZeroCursorMisses` | lnd/channeldb/invoices.go:256-313 | a client with a zero cursor misses what was dispatched before |
| `Shortfalls.SettleCursorLosesAdds` | lnd/invoiceregistry.go:205-220 | a settle cursor while nothing was settled costs a client its add backlog |
| `Shortfalls.LargeHeightIsLost` | lnd/lnwire/short_channel_id.go:29-43 | a block height of 2^24 is not given back |
| `Shortfalls.CrashInTheGap` | lnd/fundingmanager.go:1912-1937 | a crash after marking open and a restart leave a lost channel without a worker |

## Left out

- Encodings of kid and baby outputs, and the nursery driver that calls the store: outputs are values that carry their heights.
- `ForChanOutputs`, `ListChannels` and the last-height getters of the nursery store: plain reads of the same indexes.
- The order in which a bucket or a map yields its entries: the loops take them in any order.
- Database failures inside a transaction: a failed transaction changes nothing, so only the error results that depend on the contents are modelled.
- RatchetsAreBounded: assumes ideals of at least 10, below which a ratchet does not move; `CloseTerminates` bounds the messages of the other convergent ideals.
- RatchetsAreLogarithmic: assumes the same, for the same reason.
- FourteenPerDoubling: assumes the same, for the same reason.
- Signing, witnesses and curve arithmetic: a signature is the value it signs, a public key 33 bytes; signing and broadcasting in the closer do not fail.
- The script and weight libraries: witness sizes are constants, and the sanity check of the justice transaction is no inputs, a repeated input or an output out of range.
- The serialization of justice transactions: the store keeps them as values.
- Overflow of amounts: sums and fees are mathematical integers; stored amounts are 64-bit and heights wrap at 32 bits.
- Shutdown of the daemon (quit channels, wait groups), logging, timers and pings.
- The channel notifier, gossiper and switch: their answers are the outcomes a step may have.
- The cached subscriptions of the breach arbiter beyond one round: a round starts with whatever events they hold.
- Dialling, retries, addresses and back-off of connection requests: only whether a request for a key is outstanding matters.
- Simultaneous cross-connections of two nodes: each handler closes a connection against one of the other direction, so no single survivor is claimed.
- Concurrency inside one handler of the peer server: handlers run under one mutex, except that a watcher waits outside it before it starts.
- The proxy goroutine between a client's notification queue and its channels, and debug invoices.
- The funding flow before broadcast, the confirmation timeout of a channel that we did not open, channel barriers and discovery signals.
- Two workers for one channel: Start reads the open channels after it has launched the workers of pending ones, so a channel confirmed in between could get a second worker; the model has one.
- Reorganizations: confirmations only grow.
- `lnd` commands, configuration, wallet, routing and the other programs of the repository.
- Termination: no fairness of the scheduler is assumed; results about termination bound the steps that can be taken.
