# VaultMesh: a verified model

VaultMesh stores already-encrypted blobs as erasure-coded shards on an authoritative anchor, replicates them to
unreliable peers, repairs what is lost, and enforces capability tokens, quotas, retention and an abuse perimeter.
This project models those parts in Dafny and proves what they promise.

`dafny verify dfyconfig.toml` checks the whole project.

## How it is built

Each use case is a class or method over the stores it changes, with the source's loops, branches, error cases and
order of effects, proved against what the source promises of it. The laws that relate several calls are lemmas
about those specifications. What happens when use cases interleave is a machine whose steps are the use cases cut
at their awaits, with an invariant kept by every step and theorems about every reachable state.

| files | contents |
|---|---|
| `Gf256`, `Polynomial`, `ReedSolomon` | the field GF(2^8) with polynomial 0x11D, unique interpolation, and the systematic code that stands for the erasure library |
| `ErasureCoder` | the two coder adapters, splitting and joining, any k of n |
| `Prelude`, `Text`, `Utf8`, `Domain`, `Stores` | bytes and 64-bit arithmetic, printed numbers and delimited texts, domain values, the anchor, peers and metadata store |
| `PutBackup`, `GetBackup`, `RepairShards`, `DeleteBackup`, `PruneVersions`, `Naming`, `UsageReport`, `NodeAgent` | the use cases |
| `RepairLaws`, `PruneLaws` | laws across calls |
| `PruneRuns`, `PruneTies` | prunes at once with puts, deletes and name edits |
| `Cluster`, `ClusterInvariants`, `ClusterSteps`, `ClusterRuns`, `ClusterLaws` | the interleaving machine, its invariant, each step, every run, and the theorems |
| `SweepLaws`, `DeletionLaws`, `DeletionReturns` | in that machine, the repair loop among everything else, and which deleted blobs stay deleted |
| `PutRuns`, `SlowRestore`, `OvertakenDeletes` | example runs: where durability stops, and deletes undone |
| `QuotaRuns`, `QuotaExcess` | the quota check against concurrent puts and name edits, and runs that reach the bound |
| `Ledger`, `Responder`, `Capability`, `Wire` | the hash chain, the responder and its gate, tokens over runs, the peer protocol |

## Assumptions, all explicit

- The digest is any function. Restore and repair assume only that among what the anchor and the peers have for a
  shard nothing else carries its digest (`NoForgery`), and the machine only that no bytes which a fault left or a
  peer answered in the run carry the digest of a stored shard without being it (`Gates`). The ledger theorem assumes
  that the two ledgers compared do not collide and that digests have 64 digits (`NoCollision`).
- Signatures verify only on bytes that were issued, and issued ids contain no newline (`Unforgeable`).
- Erasure parameters have 1 <= k <= n, as their constructor demands; they can be deserialized without it.
- Blob ids are fresh and the clock does not go back.
- Peers may answer anything, in the machine anew at every read; within one sequential call a peer's answer for a
  shard is fixed.
- `reliable` anchors answer with the bytes or NotFound and their writes succeed; what does not need that is stated
  for any anchor, including writes that fail after taking effect.
- Strings are their UTF-8 bytes. Machine integers are unbounded where the source's type cannot overflow, and wrap
  or saturate explicitly where it does.

## Where the code and its documentation or expectation differ

- The quota comment (crates/vault-domain/src/contract.rs:92) says an admitted put stays in bounds. At a byte limit
  equal to the largest 64-bit value the saturating sum admits every size (`QuotaRuns.AdmitsBoundsBytes`), and
  concurrent puts and name edits can exceed both limits at once (`QuotaExcess.PutsReachBound`,
  `QuotaExcess.NameEditsReachBound`), by no more than `QuotaRuns.QuotaBound` allows.
- The anchor's comment (crates/vault-ports/src/storage.rs:41-42) guarantees restore from the anchor alone. That
  holds for each moment, not for a restore that is still reading when a repair finishes
  (`SlowRestore.SlowRestoreRefused`). For such a restore the hits count from the repair completed before it began
  (`ClusterLaws.RestoreNeverWrong`), and by that run one hit more can already have it refused.
- A delete does not wait for what is in flight: a repair can write a shard of the deleted blob afterwards, and a name
  edit can list it again, to be repaired (`OvertakenDeletes.DeleteOvertaken`).
  `DeletionReturns.DeletedForGoodIffSettled` says when a deleted blob stays deleted.
- The prune's comment (crates/vault-app/src/prune_versions.rs:87) says the newest versions are always retained. Prunes
  at once can remove all of several versions made in the same millisecond, since the order among these is arbitrary
  (`PruneTies.TiedBothGo`); `PruneTies.KeptIffGuaranteed` says when the promised number stays.
- `parse_key` also accepts indices printed with a plus sign or leading zeros (`Text.ParseU16Lenient`);
  `Wire.KeyRoundTrip` is about the keys the client prints. A key of 65536 bytes or more is cut by its length field; with a slash
  in an id, against the comment at crates/adapter-quic/src/wire.rs:19, it can then name another shard
  (`Wire.LongKeyMisdirected`).

## Model

| member | source | states |
|---|---|---|
| `Gf256.MulInv` | crates/adapter-reed-solomon/src/lib.rs:13 | every nonzero element of GF(2^8) with polynomial 0x11D has the inverse given, so the code's symbols form a field |
| `Polynomial.Unique` | crates/adapter-reed-solomon/src/lib.rs:89-94 | two polynomials with as many coefficients as there are distinct points, equal at those points, are equal everywhere |
| `ReedSolomon.ExtendSymbols` | crates/adapter-reed-solomon/src/lib.rs:89-94 | any k symbols of a codeword at distinct indices determine every symbol of it |
| `ReedSolomon.ReconstructCodeword` | crates/adapter-reed-solomon/src/lib.rs:88-94 | rebuilding from any k or more shards of a codeword fills every slot with the codeword's shard: the contract of the erasure library, proved for a systematic polynomial code |
| `ErasureCoder.JoinSplit` | crates/adapter-reed-solomon/src/lib.rs:35-46 | for any data and k, joining the zero-padded pieces and cutting to the length gives the data back |
| `ErasureCoder.RsEncode` | crates/adapter-reed-solomon/src/lib.rs:31-58 | n shards of one length, the smallest that holds the data k times over and at least one byte; byte j of shard i of the first k is byte i * length + j of the data, or zero past its end; the parity loops compute the specified code |
| `ErasureCoder.EncodedLayout` | crates/adapter-reed-solomon/src/lib.rs:31-58 | the specified encoding itself has that length and that data part, for all data and parameters |
| `ErasureCoder.RsDecode` | crates/adapter-reed-solomon/src/lib.rs:60-105 | the count, reconstruction and join loops compute the specified decoding; a wrong number of slots and fewer than k present are refused, each with its own error, and with the data shards present the answer is their bytes in order, cut to the length |
| `ErasureCoder.PresentDecodes` | crates/adapter-reed-solomon/src/lib.rs:60-105 | the specified decoding returns, whenever the first k slots are filled with equally long shards, exactly their bytes in order cut to the length |
| `ErasureCoder.RsDecodesSurvivors` | crates/adapter-reed-solomon/src/lib.rs:31-105 | for all data and all 1 <= k <= n <= 255, whatever slots survive, decoding gives exactly the data when k of them are present and is refused otherwise |
| `ErasureCoder.AnyKOfN` | crates/adapter-erasure/src/lib.rs:20-51 | the same law for either adapter on the parameters it supports |
| `ErasureCoder.ContractIffSupported` | crates/adapter-erasure/src/lib.rs:20-30 | an adapter meets the coder contract for exactly the parameters it supports: all well-formed ones for Reed-Solomon, k = 1 for passthrough |
| `Domain.HoldElapsedIff` | crates/vault-domain/src/contract.rs:116-122 | the hold is over exactly from the creation time plus 86,400,000 milliseconds for each day, and the product fits 64 bits for every 32-bit day count |
| `Domain.HoldMonotone` | crates/vault-domain/src/contract.rs:116-122 | a hold that is over stays over later and for older blobs |
| `Stores.MemoryMetadataStore.UsageOf` | crates/adapter-memstore/src/lib.rs:61-71 | the accumulating loop gives the independent 64-bit sum and count over the namespace's manifests |
| `Stores.MemoryMetadataStore.ListBlobs` | crates/adapter-memstore/src/lib.rs:95-103 | lists each blob of the namespace exactly once, as many as the namespace has manifests |
| `Stores.MemoryMetadataStore.ListNamespaces` | crates/adapter-memstore/src/lib.rs:57-59 | lists each namespace exactly once |
| `Stores.MemoryMetadataStore.PutManifest` | crates/adapter-memstore/src/lib.rs:73-79 | inserts under the manifest's own namespace and id, replacing what was there and nothing else |
| `Stores.MemoryMetadataStore.DeleteManifest` | crates/adapter-memstore/src/lib.rs:105-112 | removes that one manifest and nothing else |
| `UsageReport.PutMetered` | crates/adapter-memstore/src/lib.rs:61-79 | a put adds one object of its length or replaces the one it overwrites; other namespaces are unaffected |
| `UsageReport.DeleteMetered` | crates/adapter-memstore/src/lib.rs:61-71 | a delete takes exactly its object off the usage, and deleting again changes nothing |
| `UsageReport.Execute` | crates/vault-app/src/usage_report.rs:43-78 | one line for exactly the namespaces registered to the app with what the store meters, and totals equal to the 64-bit sums over all manifests of those namespaces |
| `UsageReport.CostExact` | crates/vault-app/src/usage_report.rs:69 | the estimate is 20,000 micros for each 2^30 bytes, rounded down, for exactly the totals whose product fits 64 bits, and a fixed ceiling beyond |
| `UsageReport.BillIsExact` | crates/vault-app/src/usage_report.rs:50-69 | while the true total is in range, the bill is for exactly the bytes the app's manifests add up to |
| `PutBackup.PutBackup.Replicate` | crates/vault-app/src/put_backup.rs:136-150 | one push to each configured peer in order when placement is on and none otherwise; the peers returned are exactly those that accepted it, in that order |
| `PutBackup.AcceptingPeers` | crates/vault-app/src/put_backup.rs:136-150 | the peers recorded for a shard: each one that accepts it, as often as it is configured, and no other |
| `PutBackup.PushAt` | crates/vault-app/src/put_backup.rs:107-120 | a put of all its shards pushes once for each shard and peer, shard by shard: push i * peers + j is shard i to peer j |
| `PutBackup.PutBackup.WriteShards` | crates/vault-app/src/put_backup.rs:107-120 | every shard is on the anchor at its own index, listed at that position with its hash, its size in 32 bits, the anchor and then the peers that took it; the pushes are exactly those of the shards written; a failure touches no other blob |
| `PutBackup.PutBackup.Publish` | crates/vault-app/src/put_backup.rs:104-131 | encodes, writes and then publishes one manifest; unsupported parameters write and push nothing, a failure of the anchor publishes nothing |
| `PutBackup.PutBackup.Execute` | crates/vault-app/src/put_backup.rs:74-132 | each refusal with its error and before anything is written or pushed, the quota one exactly when the size does not fit the byte limit or the objects are at theirs; a failure publishes nothing; a success leaves all shards, one manifest describing them, and one push of each shard to each configured peer if placement is on, none if not |
| `PutBackup.PublishedIsStored` | crates/vault-app/src/put_backup.rs:104-131 | what a completed put leaves, listed under its own positions, hashes, sizes, parameters, length and time, is what restore and repair rely on |
| `GetBackup.GetBackup.LoadShard` | crates/vault-app/src/get_backup.rs:131-148 | returns only bytes with the listed hash: those of the first recorded peer with a valid copy, whatever the anchor does, and otherwise the anchor's, which a reliable one gives whenever it has them |
| `GetBackup.GetBackup.Collect` | crates/vault-app/src/get_backup.rs:96-107 | the slots filled are those with a valid source, all of them with a reliable anchor and all with a valid peer copy with any |
| `GetBackup.GatedSlots` | crates/vault-app/src/get_backup.rs:93-121 | slots that pass the hash check are codeword shards, so k of them decode to exactly the data and fewer are refused |
| `GetBackup.GetBackup.Restore` | crates/vault-app/src/get_backup.rs:70-127 | whatever the anchor holds and the peers answer, the result is an error or the exact ciphertext; it succeeds when k indices have a valid peer copy, whatever the anchor does, and with a reliable anchor exactly when k indices have a source; what is reported missing is bounded both ways and then exact |
| `RepairShards.RepairShards.Classify` | crates/vault-app/src/repair_shards.rs:114-129 | each slot holds the anchor's bytes exactly when they carry the listed hash, and the bad list names exactly the empty slots |
| `RepairShards.RepairShards.BackfillFromPeers` | crates/vault-app/src/repair_shards.rs:63-100 | fills only slots a recorded peer has a valid copy for, with those bytes; when it ends with fewer than k, no peer copy was left unused |
| `RepairShards.RepairShards.ReReplicate` | crates/vault-app/src/repair_shards.rs:193-202 | one push to each recorded peer, in order, and none without a mesh |
| `RepairShards.OffersInOrder` | crates/vault-app/src/repair_shards.rs:193-202 | for a shard recorded as a put records it, these are the pushes the put made to the same peers |
| `RepairShards.RepairShards.Rewrite` | crates/vault-app/src/repair_shards.rs:171-181 | exactly the bad shards are replaced by the new encoding, each pushed to exactly the peers recorded for it, in order; a failure midway has written only shards of it and pushed those before it |
| `RepairShards.RepairPushesOf` | crates/vault-app/src/repair_shards.rs:171-202 | a push is among those of a repair exactly when it carries the new encoding of a bad index to a peer recorded for that index |
| `RepairShards.RepairShards.Execute` | crates/vault-app/src/repair_shards.rs:103-191 | even when it fails midway, which only the anchor can make it, only codeword shards are written, each at its own index; a completed pass reports unrepairable and touches nothing exactly when fewer than k indices have a source, and otherwise leaves every shard valid and has pushed exactly the bad ones, to the peers recorded for each |
| `RepairShards.EnoughIffSources` | crates/vault-app/src/repair_shards.rs:146-151 | although the backfill stops early, it finds k shards exactly when k indices have a source |
| `RepairShards.HealedOutcome` | crates/vault-app/src/repair_shards.rs:164-190 | rewriting the bad shards from k valid ones leaves the whole blob valid, with the counts reported |
| `RepairLaws.ReportAccounts` | crates/vault-app/src/repair_shards.rs:131-190 | in every report, checked is healthy plus still bad, and healthy is the number of valid shards on the anchor afterwards |
| `RepairLaws.NoGoodShardLost` | crates/vault-app/src/repair_shards.rs:171-181 | no repair, finished or failed midway, loses a good shard |
| `RepairLaws.OtherBlobsUntouched` | crates/vault-app/src/repair_shards.rs:171-181 | no repair, finished or failed midway, changes any other blob's shards, so a pass can judge each blob by the state before it |
| `RepairLaws.SecondPassIdle` | crates/vault-app/src/repair_shards.rs:133-142 | a pass after a completed repair repairs nothing and changes nothing |
| `RepairLaws.RestoreIffRepairable` | crates/vault-app/src/repair_shards.rs:144-160 | with the same anchor and peers, a restore succeeds exactly when a repair is possible, and after it a restore finds nothing missing |
| `NodeAgent.PassStep` | bins/node-agent/src/main.rs:121-142 | repairing one more blob of a pass leaves the earlier ones repaired and reports it as the state before the pass had it |
| `NodeAgent.NodeAgent.SweepPass` | bins/node-agent/src/main.rs:111-151 | for any anchor: every blob of a registered namespace is visited once; of those whose repair ran through, the ones with k sources end fully healthy, and the counters are the number of their bad shards and of the blobs with fewer; no blob loses a good shard whatever fails, and with a reliable anchor every repair runs through |
| `SweepLaws.SweptStaysWhole` | bins/node-agent/src/main.rs:111-151 | a repair of a sweep that began and finished while puts, reads, deletes, name edits, faults and other repairs went on: at any later moment every shard of its blob is good unless hit since the sweep began or reaped, so good shards and hit ones make up at least n |
| `NodeAgent.NodeAgent.HealReactively` | bins/node-agent/src/routes.rs:113-131 | whenever the spawned heal runs, with a reliable anchor: a listed blob with k sources and a bad shard is made whole and counted with the number of its bad shards; anything else is left alone and not counted; only codeword shards are ever written |
| `NodeAgent.NodeAgent.GetRoute` | bins/node-agent/src/routes.rs:99-136 | refused as the guard refuses or for an unlisted blob; otherwise the restore's own answer, with a heal to spawn exactly when the read was degraded: with a reliable anchor the exact data when k indices have a source and Unavailable when not, and with k valid peer copies the data whatever the anchor does |
| `NodeAgent.DegradedReadHeals` | bins/node-agent/src/routes.rs:106-131 | a heal that finds the blob as the degraded read did makes it whole and counts at least as many shards as the read found missing |
| `NodeAgent.TotalIsSum` | bins/node-agent/src/routes.rs:122-127 | under any interleaving of sweep and reactive updates, the total is the sweeps' sum plus the reactive sum, in 64 bits |
| `NodeAgent.SweptShare` | bins/node-agent/src/main.rs:143-150 | total minus reactive equals the sum of all sweeps' repaired counts while nothing has wrapped |
| `NodeAgent.CountsUpdates` | bins/node-agent/src/main.rs:143-150 | after any trace of updates, the two counts are the numbers of sweeps and of heals in it, in 64 bits |
| `NodeAgent.ShowsLastSweep` | bins/node-agent/src/main.rs:143-150 | after any trace of updates, the last figures and time are those of the last sweep in it |
| `NodeAgent.ShowsLastHeal` | bins/node-agent/src/routes.rs:122-127 | after any trace of updates, the time of the last heal is that heal's |
| `DeleteBackup.DeleteBackup.Execute` | crates/vault-app/src/delete_backup.rs:30-72 | refused, before any change, for a refused token, a missing contract, a missing manifest under a hold, and exactly until the creation time plus the hold; otherwise shards and manifest go and nothing else, unless the anchor fails, and the manifest never goes before the shards |
| `DeleteBackup.RetryFinishes` | crates/vault-app/src/delete_backup.rs:54-71 | a delete stopped anywhere and retried later leaves neither shards nor manifest, and nothing else changed |
| `PruneVersions.PruneVersions.Collect` | crates/vault-app/src/prune_versions.rs:66-73 | collects exactly the versions of the object, none twice, in whatever order the store lists |
| `PruneVersions.SortNewestFirst` | crates/vault-app/src/prune_versions.rs:88 | the same versions, newest first |
| `PruneVersions.HoldLineSplits` | crates/vault-app/src/prune_versions.rs:88-96 | newest first, the versions under hold are a prefix |
| `PruneVersions.CutPrunes` | crates/vault-app/src/prune_versions.rs:88-103 | for any order of ties, the survivors are newest ones and number min(total, max(keep, still held)) |
| `PruneVersions.PruneVersions.Execute` | crates/vault-app/src/prune_versions.rs:48-112 | the group keeps a newest set of that size, everything else in the stores is untouched, and kept + pruned + held = versions; a failure has touched only removable versions, shards first |
| `PruneLaws.HoldRespected` | crates/vault-app/src/prune_versions.rs:91-103 | a removed version is past its hold and keep versions at least as new survive it |
| `PruneLaws.SurplusHeld` | crates/vault-app/src/prune_versions.rs:91-103 | versions kept beyond `keepVersions` are all under hold |
| `PruneLaws.PrunedByPolicy` | crates/vault-app/src/prune_versions.rs:65-103 | what a finished prune removed was of this object, past its hold and with `keepVersions` others at least as new; such a version that stays has fewer than that strictly newer |
| `PruneLaws.PruneAccounts` | crates/vault-app/src/prune_versions.rs:65-112 | the stores differ by the manifests removed and their shards only, and the report counts the versions, the removed ones, the kept and the held |
| `PruneLaws.StoppedByPolicy` | crates/vault-app/src/prune_versions.rs:88-103 | a prune the anchor stopped midway left every other manifest and its shards as they were |
| `PruneLaws.SecondPruneIdle` | crates/vault-app/src/prune_versions.rs:88-103 | pruning again at the same time removes nothing |
| `PruneLaws.EarlierPruneAbsorbed` | crates/vault-app/src/prune_versions.rs:88-103 | pruning now and again later leaves, timestamp by timestamp, what a single later prune leaves |
| `PruneRuns.RemovedHadNewer` | crates/vault-app/src/prune_versions.rs:65-103 | however prunes, puts, deletes and name edits interleave, a prune removes a version only past its hold and only if `keepVersions` others, ever versions of the object, are at least as new |
| `PruneRuns.NewestSurvive` | crates/vault-app/src/prune_versions.rs:65-103 | while versions leave only by its prunes, any number of prunes at once leaves every version that fewer than `keepVersions` others are as new as, and without ties at least `keepVersions` |
| `PruneTies.KeptIffGuaranteed` | crates/vault-app/src/prune_versions.rs:87-103 | concurrent prunes always leave `keepVersions` versions, or all if fewer, exactly when that many have fewer than `keepVersions` others as new |
| `PruneTies.TiedBothGo` | crates/vault-app/src/prune_versions.rs:87-103 | two versions of the same time under a policy that keeps one: a run of prunes removes both |
| `Naming.SetManifestName` | bins/coordinator/src/meta.rs:105-122 | changes the name, and the object id when given, of that manifest only; usage stays what it was |
| `QuotaRuns.QuotaBound` | crates/vault-app/src/put_backup.rs:90-130 | with at most p writes of a namespace on their way (puts past their check, and name edits that read a manifest and have yet to store it), in every reachable state listed objects and those such a write may still list are at most the limit plus p - 1, their bytes at most the limit plus p - 1 times the largest, and usage never wraps |
| `QuotaRuns.AdmitsBoundsBytes` | crates/vault-domain/src/contract.rs:93-95 | the saturating check bounds the true byte sum exactly when the limit is below the largest 64-bit value |
| `QuotaExcess.PutsReachBound` | crates/vault-app/src/put_backup.rs:96-102 | for every quota, p and largest size it admits: p puts that all check before any publishes end p - 1 objects over the limit and p - 1 times the largest over what the limits allow in bytes, with at most p writes on their way throughout |
| `QuotaExcess.NameEditsReachBound` | bins/coordinator/src/meta.rs:111-121 | the same end is reached with one put at a time, when p - 1 name edits store back manifests that were deleted since they read them |
| `Ledger.LedgerIntrusionSink.EntryHash` | crates/adapter-perimeter/src/ledger.rs:25-40 | the hash of the bytes of the hasher updates, field by field, with a zero byte after each text |
| `Ledger.LedgerIntrusionSink.Append` | crates/adapter-perimeter/src/ledger.rs:52-66 | appends one entry with the next index, the last hash and its own, so a verifying ledger keeps verifying |
| `Ledger.LedgerIntrusionSink.Verify` | crates/adapter-perimeter/src/ledger.rs:82-95 | true exactly when every entry has its index, its predecessor's hash and its own hash |
| `Ledger.MessageInjective` | crates/adapter-perimeter/src/ledger.rs:25-40 | the delimiter-based encoding determines index, previous hash and record, up to an absent or empty fingerprint, when the texts contain no zero byte |
| `Ledger.HeadCommitsToHistory` | crates/adapter-perimeter/src/ledger.rs:82-95 | two verifying ledgers without collisions have the same head hash exactly when they are equal entry by entry |
| `Ledger.TruncationVerifies` | crates/adapter-perimeter/src/ledger.rs:82-95 | a verifying ledger cut at its tail still verifies |
| `Responder.EscalatingThreatResponder.Assess` | crates/adapter-perimeter/src/responder.rs:48-65 | the state and decision specified; blocked only grows |
| `Responder.StateIsCount` | crates/adapter-perimeter/src/responder.rs:48-65 | after any trace a fingerprint's strikes are its own assessments, capped at the limit, and it is blocked exactly from the limit on |
| `Responder.DecisionLaw` | crates/adapter-perimeter/src/responder.rs:48-65 | whatever the interleaving, a fingerprint's first limit - 1 decisions are tarpits and all later ones blocks |
| `Responder.Perimeter.Enter` | bins/coordinator/src/perimeter.rs:34-56 | exactly the blocked fingerprints are stopped, each with one footprint naming the blocklist and the path; the step of the gate on arrival |
| `Responder.Perimeter.Leave` | bins/coordinator/src/perimeter.rs:58-83 | statuses 401, 403 and 429, and no others, add one strike and one footprint with their class, the path, the status and the decision; the step of the gate on return |
| `Responder.GateBound` | bins/coordinator/src/perimeter.rs:34-83 | with at most p of its requests in flight, at most limit - 1 + p of a fingerprint's rejected requests ever reach the app |
| `Responder.OneFootprintEach` | bins/coordinator/src/perimeter.rs:40-81 | every refused request, early or late, leaves exactly one footprint |
| `Text.ParseU16Decimal` | crates/adapter-quic/src/wire.rs:29 | every 16-bit index printed in decimal parses back |
| `Text.ParseU16Lenient` | crates/adapter-quic/src/wire.rs:29 | any digits parse the same with a plus sign or a zero in front |
| `Wire.KeyRoundTrip` | crates/adapter-quic/src/wire.rs:20-38 | a shard key parses back to its shard exactly when the ids contain no slash |
| `Wire.RequestRoundTrip` | crates/adapter-quic/src/wire.rs:41-63 | a request parses back exactly when its key is shorter than 65536 bytes |
| `Utf8.ValidIffText` | crates/adapter-quic/src/wire.rs:61 | a key is taken for text exactly when it is the UTF-8 encoding of some sequence of Unicode scalar values |
| `Wire.RequestLayout` | crates/adapter-quic/src/wire.rs:41-48 | on the wire: the operation, the key length modulo 65536 with its high byte first, the key, the payload |
| `Wire.TargetIffCarried` | crates/adapter-quic/src/wire.rs:29-63 | the server takes a key for its own shard exactly when the ids hold no slash and the key is shorter than 65536 bytes; with no slash, or a shorter key, it otherwise takes it for nothing |
| `Wire.LongKeyMisdirected` | crates/adapter-quic/src/wire.rs:41-63 | a key of 65536 bytes or more with further slashes can be taken for another shard |
| `Wire.Serve` | crates/adapter-quic/src/server.rs:70-89 | status 2 and no effect for what it cannot read, 0 and the shard or 1 for a get, 0 for a put of the payload under the key; 2 also when the anchor fails, which may be before or after a put took effect |
| `Wire.SendIsPut` | crates/adapter-quic/src/transport.rs:53-60 | whatever the reference and however the anchor's call and the stream go: a remote put is the local put of the shard the server takes the key for, which is the shard itself exactly when its ids hold no slash and the key is shorter than 65536 bytes, if the request fits a frame; otherwise it is refused without effect |
| `Wire.FetchIsGet` | crates/adapter-quic/src/transport.rs:62-70 | whatever the reference and however the anchor's call and the stream go: a remote get is the local get of the shard the server takes the key for, if request and answer fit a frame; otherwise an error; the anchor never changes |
| `Capability.CanonicalInjective` | crates/vault-domain/src/capability.rs:91-101 | the signed bytes determine the claims as soon as one side's ids are free of newlines |
| `Capability.CanonicalLayout` | crates/vault-domain/src/capability.rs:91-101 | the signed bytes line by line |
| `Capability.AuthorizeAnswers` | crates/vault-app/src/guard.rs:10-33 | granted exactly for a verifying, unexpired token of this namespace and operation whose app owns the namespace; otherwise the first check that fails gives its error |
| `Capability.IssuedAnswers` | crates/vault-app/src/issue_capability.rs:41-59 | the claims exactly as asked: application, namespace, operation, nonce, and an expiry of now plus 1000 milliseconds a second where that fits |
| `Capability.IssueCapability.Execute` | crates/vault-app/src/issue_capability.rs:34-61 | exactly the owner gets a token, carrying the operation and lifetime asked for, clamped, and signed over its own claims; the two refusals each with their error |
| `Capability.IssuancesOk` | crates/vault-app/src/issue_capability.rs:34-61 | every issued token names the namespace's owner and the operation asked for, and expires after the time asked for, at least one second and at most 900, under saturating time |
| `Capability.AcceptedWasIssued` | crates/vault-app/src/guard.rs:10-33 | a request accepted at any time of any run matches an issuance that the owning app asked for, for that namespace and that operation, less than 900 seconds before |
| `Capability.IssuedIsAccepted` | crates/vault-app/src/guard.rs:10-33 | a token issued in a run is accepted for what was asked, until it expires, when its signature verifies |
| `ClusterRuns.RunInv` | crates/vault-app/src/repair_shards.rs:103-191 | the invariant of uploads, repairs, restores, name edits, deletes and prunes holds in every reachable state, for any interleaving at their awaits with faults, lying peers and crashes |
| `ClusterSteps.RepairReadStep` | crates/vault-app/src/repair_shards.rs:114-129 | reading a shard keeps the invariant: what passes the hash check is the codeword shard, what does not was hit by a fault or reaped |
| `ClusterSteps.RepairBorrowStep` | crates/vault-app/src/repair_shards.rs:77-98 | whatever a peer answers, a borrowed slot is the codeword shard of its index |
| `ClusterSteps.RepairDecideStep` | crates/vault-app/src/repair_shards.rs:150-169 | what is decoded and encoded again is the stored codeword |
| `ClusterSteps.RepairFinishStep` | crates/vault-app/src/repair_shards.rs:171-190 | a finished repair leaves every shard good or hit since the repair began |
| `ClusterSteps.UploadPublishStep` | crates/vault-app/src/put_backup.rs:122-131 | publishing lists a record whose every shard is good or hit since the put began |
| `ClusterSteps.ReapManifestStep` | crates/vault-app/src/delete_backup.rs:70-71 | a manifest is removed only after its shards |
| `ClusterLaws.Durable` | crates/vault-app/src/repair_shards.rs:103-191 | in every reachable state of any run, a published blob not reaped, with at most n - k shards hit since its last completed repair began, is listed, has k good shards, and its anchor shards decode to exactly the bytes put |
| `ClusterLaws.RestoreNeverWrong` | crates/vault-app/src/get_backup.rs:70-127 | a restore interleaved with anything gives the bytes put or is refused for want of k slots, and is not refused while at most n - k shards were hit since the repair completed before it began or went unanswered by the anchor when it asked |
| `SlowRestore.SlowRestoreRefused` | crates/vault-app/src/get_backup.rs:96-115 | for every coder, all parameters with k < n and all data there is a run that brings in nothing from outside and every state of which meets the bound of durability, and in which a restore spanning a finished repair is refused although every read was answered, with one shard more hit since its floor than `ClusterLaws.RestoreNeverWrong` allows |
| `ClusterLaws.RepairNeverWrong` | crates/vault-app/src/repair_shards.rs:63-169 | every slot a repair collects is the codeword shard of its index, k of them decode and encode to the stored codeword, and it is not short of k under the same bound |
| `ClusterLaws.OnlyShardsWritten` | crates/vault-app/src/repair_shards.rs:164-181 | besides faults and deletes, every change of the anchor is one codeword shard written at its own index, no good shard is lost to any step, and every push carries the codeword shard of its index |
| `ClusterLaws.CrashConsistent` | crates/vault-app/src/put_backup.rs:104-131 | a put stopped anywhere has published nothing, or a manifest whose positions, hashes and accepted peers are those of the encoding and whose every shard is good, hit since, or reaped |
| `ClusterLaws.RetentionSafe` | crates/vault-app/src/delete_backup.rs:54-71 | before the creation time plus the hold, in no reachable state is the manifest unlisted or any shard missing other than by a fault |
| `DeletionLaws.NameRevivesOnlyReaped` | bins/coordinator/src/meta.rs:111-121 | a name edit can bring back a deleted manifest, but only of a blob whose hold is over and whose shards were deleted |
| `DeletionLaws.ListedAgainIffNamed` | bins/coordinator/src/meta.rs:111-121 | in every reachable state, a step lists a deleted blob again exactly when it is a name edit of that blob storing back what it read |
| `DeletionReturns.DeletedForGoodIffSettled` | crates/vault-app/src/delete_backup.rs:54-71 | in every reachable state, a deleted blob stays without a shard through every continuation, faults that leave bytes at its places aside, exactly when nothing that can still write is in flight for it: no put, no name edit, and no repair but one that found nothing bad or rewrote all it found; then it stays unlisted, too |
| `OvertakenDeletes.DeleteOvertaken` | crates/vault-app/src/delete_backup.rs:70-71 | for every coder, all parameters, all data and any hold: a run completes a delete while only a repair, or only a name edit, of the blob is in flight, and goes on to have a shard of it on the anchor again |

## Left out

- HTTP, QUIC, TLS, S3, presigned URLs and the file system: only their map-like effect is kept (put, get or NotFound, idempotent delete).
- The internals of AES-GCM, HKDF, ed25519, SHA-256 and certificate issuance.
- The internals of the erasure library: its encode and reconstruct are modelled by interpolation over the same field, proved to meet the contract the adapter uses; that the library picks the same code is not part of this model.
- The naming registry, certificate revocation, admin views, the console and the scripts.
- The internal-plane endpoints that delete shards or manifests without the retention check.
- Registering contracts and creating namespaces, plain insertions: the use cases are proved for whatever is registered.
- PruneRuns.RemovedHadNewer: the machine of prunes has manifests only; the shards a prune drops just before are in `PruneVersions.PruneVersions.Execute`, and their deletion among other steps in the machine of the cluster.
- Token nonces: single use is not enforced by the code modelled.
- The message texts of errors; errors are kept as their kinds.
- Interrupted metadata-store calls: the in-memory store never fails.
- Retention, quota and erasure parameters of an app are fixed over a run of the machines; contracts can be registered anew in the source.
- RepairShards.RepairShards.Execute: one call sees one state of the peers and no concurrent writer; interleavings are in the machine.
- GetBackup.GetBackup.Restore: as above, one call on one state of the stores.
- NodeAgent.NodeAgent.SweepPass: the counters are for one pass with no other use case running; what its repairs achieve while others run is in `SweepLaws.SweptStaysWhole`. The infinite timer loop around it is not modelled.
- PruneVersions.SortNewestFirst: an insertion sort stands for the library's sort; only the order is used, since listing order is arbitrary.
- ClusterLaws.RetentionSafe: about blobs whose put published them; an id never published has no creation time to hold.
- The strength of fingerprints, which the perimeter takes from a header.
