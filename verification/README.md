# Moonclip: a verified model of the checkpoint store

Moonclip keeps checkpoints of named tensors. A snapshot is a full, or a set of entries (full,
compressed exclusive-or, skipped, alias) against one full base. Saves, loads, background merges,
retention and crash recovery all work on one manifest and one set of files. This project models
that store in Dafny and proves that it is, at every moment, the map from snapshot id to tensors
that its users take it for.

## How it is put together

| layer | modules |
|---|---|
| bytes and bits | `Bytes` `Shuffle` `Delta` `Compression` `Pack` `Float` `Float8` `Float16` `Casts` `Glob` |
| what the store relies on | `Env` (hash, zstd, JSON, casts by dtype, a disk whose operations may fail) |
| one tensor, one rank | `Tensor` `Dedup` `Shard` `Layout` `Save` `Core` `Load` `RoundTrip` |
| the manifest and its files | `Manifest` `ManifestIO` `Retain` `Order` `Recovery` |
| merging and readers | `Merge` `MergeKinds` `Merger` `InFlight` |
| every interleaving | `Protocol` (the state machine), `Steps` (what a step can change), `Safety*` (its invariant), `Theorems` (what holds of every run), `Progress` (what every run can come to), `Bases` (what a save is written against), `Losses` (what can take a snapshot out of the list), `Reopening` (what a restart brings back), `Describe` (what a snapshot says of itself), `Gaps` (where it keeps less than it promises), `Example` (a run into one of them), `Witness` (an environment that meets its laws) |
| self-contained protocols | `MultiRank` `Saver` `RemoteCopy` |

Code that changes state in steps is a class or a method with a loop, proved equal to a
specification function; the lemmas are about those functions. `Protocol` is built from the same
functions (`ProcessedAll`, `Laid`, `RetainedOf`, `Published`, `StrideDrops`, `LoadManifest`,
`Recovered`), so what a method is proved to compute is what its step does in a run.

The central notion is `Shard.ShardHolds`: a pack and its entries, read against a base, stand for
`contents`, a map from name to bytes and dtype. Saving establishes it, loading reads it back,
merging carries it over from a delta to a full, and `Safety.Inv` keeps it for every record that
any list, pin or pending delete can still reach.

A run (`Protocol.Run`) is any sequence of steps of one saver, one merger, any number of loaders,
crashes and restarts. A critical section of the manifest lock is one step, except that a persist
made under the lock is one step per file; each delete is a step of its own. Any read or write may
fail, any wait for readers may run out, and a restart may open the store at another level of the
same compression.

`dafny verify dfyconfig.toml` checks everything.

## Where the code differs from its comments

The model follows the code. For each difference there is a lemma that says exactly when the promise
holds.

- `src/cast.rs:1024-1033`: widening an fp16 subnormal uses an exponent one too small, so the value
  is halved (`Float16.WidenFp16Subnormal`); `Float16.WidenFp16ExactIff` says which patterns keep
  their worth and `Float16.Fp16RoundTrip` which survive the trip back.
- `src/cast.rs:578-594`: a shift of exactly 32 should round values above the midpoint up
  (`Float8.ShiftRoundEvenExactly`). No float8 format shifts a significand that large that far, so
  `Float8.EncodeIsNearest` holds without exception.
- `src/tensor.rs:170-176`: the deduplication key leaves the cast target out, so a name can be kept
  under another name's rule (`Save.TiedNamesCanDisagree`, `Save.OwnPolicyIff`).
- `src/coordinator/mod.rs:1929-1957`: protected fulls count against the cap, so the newest full can
  be evicted (`Retain.NewestCanGo`, `Retain.NewestSurvivesIff`).
- `src/coordinator/recovery.rs:186-201`: candidates are ordered by step alone, so a delta met before
  a base of the same step is lost (`Recovery.SameStepCanLose`, `Recovery.OrphanReadmittedIff`).
- `src/merger.rs:762-783`: the merger reads with its own configured algorithm. One set to store takes
  a compressing writer's frames for the bytes, hashes them afresh and publishes them
  (`MergeKinds.StoringMergerKeepsFrames`, `MergeKinds.StoringMergerCorrupts`). A merge is right
  exactly when the merger's algorithm gets each entry's bytes from the blobs it reads
  (`MergeKinds.MergedDeltaIsRightIff` for a rank the newest delta has,
  `MergeKinds.CarriedRankIsRightIff` for one carried over from the base), as it does when the
  algorithms are of one kind.
- `src/merger.rs:762-783` and `:1020-1040`: the checksums a load compares (`Load.DamageIsNoticed`) are not
  compared by a merge, which takes a damaged blob that still decodes for the tensor and hashes it
  afresh (`MergeKinds.DamageIsMerged`).
- `src/merger.rs:409-462` and `:609-660`: a pin is said to keep a snapshot whatever retention says,
  until it is unpinned. Retention sees to that, but neither merge asks: a pinned snapshot is folded
  away as any other
  (`Gaps.FullMergeTakesIff`, `Gaps.StrideTakesIff`, `Gaps.APinStopsNoMerge`).
- `src/coordinator/mod.rs:1002-1006` and `:1223-1225`: a load looks its base up again after pinning,
  and a publish in between makes it fail although the files are kept
  (`Gaps.APinnedLoadCanLoseItsBase`, `Example.ALoadIsLost`; `Theorems.EveryLoadSucceedsExactly` and
  `Theorems.EveryNameReadsExactly` say exactly when).
- `src/coordinator/mod.rs:706-730`: `create_snapshot` refuses a base a merge has claimed, but lets go
  of the lock with nothing held over its choice, so a merge that claims it next leaves the new delta
  without its base (`Gaps.CreatedLosesItsBase`, `Gaps.CreatedKeepsItsBaseIff`).
- `src/remote_sync.rs:553-554`: a copy holds more than its budget for a file that is larger than the
  whole of it, or larger than it was listed (`RemoteCopy.DataStaysWithinBudget`).
- `src/inflight.rs:231-237`: dropping a claim unmarks ids another outstanding claim shares
  (`InFlight.Registry.DropClaim` says exactly when). One merger never has two claims, so runs do not
  meet it.

## Model

| member | source | states |
|---|---|---|
| Theorems.EverySnapshotLoadsItsSave | src/coordinator/mod.rs:585-693 | the whole store against the abstract one, a map from id to save carried along the run: in every state of every run of saves, stride folds, full merges, evictions, loads, failed writes, crashes and restarts, each listed snapshot loads what the one save it stands for kept, bit for bit when no rule cast it |
| Describe.EverySnapshotIsDescribed | src/coordinator/mod.rs:1104-1178 | in every state of every run `describe` gives, of each listed snapshot, saved or merged, the tensors of the save it stands for: each once, with its own shape and dtype even where it shares its bytes with another name, and the size, hash and stored dtype of what is held |
| Describe.ADescriptionIsBorneOut | src/coordinator/mod.rs:1104-1178 | and a load bears it out: it has exactly the names described, and of each tensor kept in its own dtype as many bytes as were told, of that hash |
| Theorems.OriginsStay | src/coordinator/mod.rs:610-650 | which save an id stands for never changes again once it is recorded |
| Theorems.ASaveLoadsItself | src/coordinator/mod.rs:608-650 | a snapshot that was saved, not merged, loads its own save's tensors bit for bit as long as it is listed, whatever `pays_off` answered |
| Theorems.AMergeLoadsItsNewestDelta | src/merger.rs:618-917 | a merged full loads, in every later state, what the newest delta it folded loaded, and carries its step: the last delta against the newest full in the list the merge began over |
| Theorems.AMergeStandsForItsNewestDelta | src/merger.rs:618-632 | and it stands for the very save that delta stood for |
| Theorems.EveryListedSnapshotLoads | src/coordinator/mod.rs:952-1088 | in every reachable state each snapshot of the manifest in memory loads what it stands for: right bytes, all of them, and an error only when a cast cannot be undone |
| Theorems.EveryCrashIsConsistent | src/manifest_io.rs:144-196 | cut any run between any two writes or deletes: the index then on storage reads back, no delta in it lacks its base, and each snapshot it names loads what it stands for |
| Theorems.EveryFinishedLoadIsRight | src/coordinator/mod.rs:966-1280 | a load, of everything or of some names, interleaved with saves, merges and retention returned the right bytes or an error |
| Theorems.EveryLoadSucceedsExactly | src/coordinator/mod.rs:966-1088 | of the last step of a load beside everybody else: it succeeds exactly when every cast can be undone and either the manifest still listed the base at the load's second lookup or no entry needs it; what it then returns is what the snapshot stands for |
| Theorems.EveryNameReadsExactly | src/coordinator/mod.rs:1195-1280 | of each name a `load_tensors` reads beside everybody else: right bytes exactly when the name is there, its cast can be undone, and the base is listed at that step or the name's entry needs none; else the call fails |
| Gaps.APinnedLoadCanLoseItsBase | src/coordinator/mod.rs:1002-1006 | from any state of any run in which a full merge can begin over a delta that has a skipped or delta entry, finitely many steps in which nothing fails lead to a load of that delta about to fail, the packs of the delta and of its base still on storage |
| Example.ALoadIsLost | src/coordinator/mod.rs:1002-1006 | and such a run there is: a setup with a lawful environment, and from nothing on storage a restart, two saves of one tensor, a merge and one load that ends in the error, with no step failing before it |
| Example.TwoSavesLeadThere | src/coordinator/mod.rs:608-656 | in a store of one rank, over any lawful environment that describes three small packs in 1000 bytes each, saving one tensor twice leads to a state in which that merge can begin |
| Witness.SomethingToRelyOn | src/coordinator/mod.rs:585-693 | a hash, a codec and three encodings that meet every law asked of them, built outright: what is assumed of the environment can be met |
| Theorems.PinnedPacksStay | src/inflight.rs:120-136 | from the pin to the end of a load the pack of the snapshot and that of its base stay on storage |
| Theorems.NothingNeededIsDeleted | src/merger.rs:522-568 | the step that removes a file removes one whose snapshot is in neither the manifest, nor the index on storage, nor a list a failed write would restore, and that nobody pins |
| Losses.EveryLossHasItsReason | src/coordinator/mod.rs:585-693 | once the index on storage names it, a snapshot stays in the index, and in the manifest of an open store, through every failed write, crash and restart of a run, until retention takes it, or a stride fold with nobody pinning it, or a full merge that began over a list in which it was the newest full or a delta on it with nobody pinning it |
| Losses.AFailedFoldChangesNothing | src/merger.rs:892-905 | a stride fold or a merge's publish that could not be written down leaves the list as it was before it took the lock, and the index as it was |
| Gaps.CreatedKeepsItsBaseIff | src/coordinator/mod.rs:706-730 | a delta that `create_snapshot` lists against a base it chose before letting the lock go keeps that base, whichever of its two halves a merge's publish falls between or after, exactly when the base was not the newest full of the list the merge was planned over |
| Gaps.CreatedLosesItsBase | src/coordinator/mod.rs:706-730 | a merge planned over the list that base was chosen from always spends it |
| Bases.EverySaveTakesItsBase | src/coordinator/mod.rs:600-615 | in every state of every run, a save that begins is a delta exactly when the list's newest full is claimed by no merge, lies less than `full_snapshot_every_steps` steps back, the list does not end in `max_deltas_per_full` deltas and more than one snapshot may be kept; and then against that full |
| Bases.EveryRecordHasItsBase | src/coordinator/mod.rs:618-650 | what a save records has the step, time and metadata it was given and that base or none, by the list it began over |
| Bases.EveryDeltaIsInReach | src/manifest.rs:266-293 | in every state of every run each delta ever recorded has its base on record and is less than `full_snapshot_every_steps` steps past it |
| Manifest.ForcedExactly | src/manifest.rs:266-293 | a full is forced exactly when the list's last full could not serve as a base |
| Progress.TheLockIsNeverStuck | src/manifest_io.rs:144-196 | in every state of every run with the manifest lock held, one of the holder's puts can be made, and from there on enough of them that the lock is free again |
| Progress.EveryLoadCanEnd | src/coordinator/mod.rs:966-1280 | from every state of every run, whatever the saver and the merger have in hand, finitely many steps in which nothing fails bring any load under way to its end and let its pins go |
| Progress.NoWaitIsForEver | src/merger.rs:522-540 | so a saver or merger that waits for readers before it deletes can always come to the end of its wait: nothing waits for a reader that waits for it |
| Progress.EverySaveCanBeMade | src/coordinator/mod.rs:585-693 | from every state of every run with the lock free and the saver idle, a save whose tensors can be processed can be made to its end, whatever the merger and the loaders have in hand: as a delta exactly when the list allows one, listed, retention applied, its pins gone, nothing else changed |
| Theorems.ManifestStaysSound | src/coordinator/mod.rs:2035-2063 | distinct ids, every delta's base present and a full, in every reachable state |
| Theorems.EveryRecordHasItsSave | src/coordinator/mod.rs:608-650 | in every state of every run the recorded ids are those some save is named for, each holds what that save kept, and that save was handed in earlier: merges and recoveries add nothing of their own |
| Theorems.RunHistoryOnlyGrows | src/coordinator/mod.rs:610-650 | what an id stands for never changes once it is recorded |
| Theorems.StepKeeps | src/coordinator/mod.rs:585-693 | each of the 28 kinds of step keeps the invariant the run theorems rest on |
| Theorems.RunKeeps | src/coordinator/mod.rs:585-693 | the invariant holds in every state of every run |
| Theorems.UncastReads | src/tensor.rs:222-250 | the contents of a save no rule casts read as the very tensors it was given |
| SafetyBoot.IndexReadsBack | src/manifest_io.rs:210-290 | in every reachable state the index on storage reads back as the manifest it was last written from |
| SafetyBoot.RebuildsToRecord | src/coordinator/recovery.rs:16-64 | a snapshot directory with its one pack rebuilds to the snapshot that was written there |
| Reopening.EveryWrittenPackReturns | src/coordinator/recovery.rs:138-231 | at any restart of any run, whatever a crash left: a recorded snapshot whose pack is on storage is in the list again exactly when the index names it, or it is a full, or its base is listed, or its base's pack is on storage too and is met first in order of step |
| SafetyBoot.RecoveredIsListed | src/coordinator/recovery.rs:138-231 | after a crash, what recovery readmits are the records that were written, and the list is sound |
| SafetyBoot.RejectsAreKnown | src/coordinator/recovery.rs:203-214 | what recovery rejects is nothing the index names |
| SafetyFiles.FinderNeverWrong | src/coordinator/mod.rs:1002-1046 | the lookups of a load that raced a publish give the base's own bytes or nothing |
| SafetyFiles.SaveCacheIsFaithful | src/coordinator/mod.rs:1704-1732 | the base a save diffs against is the one it pinned, whether read from memory or from its pack |
| SafetyFiles.MergedIsGood | src/merger.rs:705-865 | a merge that succeeds beside other actors wrote a full that holds the newest delta's contents |
| SafetyPublish.PublishedBySave | src/coordinator/mod.rs:652-656 | what a save pushes and what retention leaves of it is a sound list of known snapshots |
| SafetyPublish.DyingIsUnneeded | src/merger.rs:529-540 | an id being swept is in no list and under no pin |
| RoundTrip.LoadUndoesSave | src/coordinator/mod.rs:1543-1700 | for any distinctly named tensors and any full base: a load has exactly the saved names and gives each tensor no rule casts bit for bit, provided the rules send names that share bytes to one stored dtype |
| RoundTrip.LoadOfSomeUndoesSave | src/coordinator/mod.rs:1195-1280 | `load_tensors(names)` after a save is `load` restricted to those names, and fails exactly for a name that was not saved |
| Save.SavedHolds | src/coordinator/mod.rs:1543-1700 | the pack and entries a save writes stand for every tensor it was given, whether skipped, delta, full or alias |
| Save.OwnPolicyIff | src/tensor.rs:159-183 | deduplication gives a name what its own cast rule asks for exactly when the rule agrees, on the stored dtype, with that of the name whose bytes it shares |
| Save.TiedNamesCanDisagree | src/tensor.rs:170-176 | a concrete pair of tied weights where it does not: the cast target is not part of the key |
| Save.UncastIsHeldExactly | src/tensor.rs:229-249 | a tensor that shares with none a rule casts is held bit for bit |
| Save.SavedMeansGiven | src/tensor.rs:220-392 | a save that succeeded could cast everything it kept |
| Dedup.DedupPlan | src/tensor.rs:159-183 | the loop computes the plan: large tensors with the hash and dtype of an earlier one share its name |
| Dedup.OwnersHoldTheSameBytes | src/tensor.rs:159-183 | the owner holds the same bytes and dtype and is itself an owner: no chain of aliases |
| Dedup.DuplicatesAreShared | src/tensor.rs:164-179 | no large buffer of one dtype is written twice |
| Tensor.ProcessedStores | src/tensor.rs:220-392 | whatever the sampled and the full verdicts answered, the entry and blob stand for the tensor given |
| Tensor.LoadsWhatIsStored | src/tensor.rs:586-679 | reading a stored entry gives back the bytes, wherever its blob is read from |
| Tensor.DamageShows | src/tensor.rs:586-679 | whatever has become of storage, a tensor kept in full loads exactly when the bytes read for it are the ones written, and fails as an integrity error when they are others; one kept as a delta loads, if at all, as what it was |
| Tensor.SkippedExactly | src/tensor.rs:252-280 | a tensor is skipped exactly when the base holds the same bytes under its name, and full when there is no base to hold any |
| Tensor.DeltaExactly | src/tensor.rs:280-392 | a delta is only of different buffers of one length, large enough, over a base kept in full; with the base in memory, exactly when the estimate on it says it pays off |
| Tensor.CastIsAsAsked | src/tensor.rs:222-250 | a tensor a rule casts is kept in the dtype the rule asks for, marked with its own, and reads as the cast undone |
| Tensor.UncastIsExact | src/tensor.rs:229-249 | a tensor no rule casts is kept and read back bit for bit |
| Tensor.ResolveBaseEntry | src/tensor.rs:561-583 | the loop follows aliases in the base for at most eight lookups, as the recursive reading does |
| Shard.ResolvesInOneHop | src/tensor.rs:561-583 | in a full that a save wrote, one lookup past the first always suffices |
| Shard.FullBaseGivesRaw | src/tensor.rs:586-600 | any name a full holds is found in it, through at most one alias, with its bytes |
| Layout.BlobSlicesBack | src/pack.rs:73-101 | blob k of a pack is what the pack holds at the offset recorded for it |
| Layout.OffsetsDisjoint | src/coordinator/mod.rs:1605-1617 | blobs do not overlap each other, the header or the description |
| Layout.PlacedHolds | src/coordinator/mod.rs:1605-1700 | laying blobs out keeps what every entry stands for, aliases included |
| Core.Core.SaveRankTensors | src/coordinator/mod.rs:1543-1700 | the method writes one pack or nothing, returns its entry, and retains a full's bytes, as the specification of one rank's save says |
| Core.AssignOffsets | src/coordinator/mod.rs:1605-1617 | the offset loop gives each blob its place, one after the other from the end of the header |
| Core.DescribeRank | src/coordinator/mod.rs:1639-1672 | the counting loop gives the totals and counts the rank entry records |
| Layout.RankEntryCounts | src/coordinator/mod.rs:1639-1672 | those counts are how many entries are kept in each way, together all of them, and the total is what the blobs take |
| Core.CacheIsFaithful | src/coordinator/mod.rs:1704-1732 | an in-memory base and the decompressed one on disk are the same base |
| Core.RetainedIsWritten | src/coordinator/mod.rs:1799-1829 | each retained buffer is what the pack just written holds under that name |
| Core.EveryFullIsRetained | src/coordinator/mod.rs:1799-1829 | and every tensor just kept in full and uncast is retained |
| Load.LoadEntries | src/coordinator/mod.rs:1048-1088 | the two passes compute the load: entries first, then aliases of them |
| Load.LoadTensors | src/coordinator/mod.rs:1237-1280 | the loop loads each asked-for name, through its alias when it is one |
| Load.LoadIsContents | src/coordinator/mod.rs:952-1088 | `load` returns, under every name the snapshot holds and no other, exactly what it holds there |
| Load.LoadNamesIsRestriction | src/coordinator/mod.rs:1195-1280 | `load_tensors` is `load` restricted to the names asked for |
| Load.LoadAllNeverWrong | src/coordinator/mod.rs:1048-1088 | whatever becomes of the base, and whatever is read for the pack, a load that succeeds returns the right bytes |
| Load.DamageIsNoticed | src/tensor.rs:586-679 | with any bytes in place of the snapshot's pack and any in place of its base's, a load gives all the snapshot holds, or an error |
| Load.LoadAllExactly | src/coordinator/mod.rs:1048-1088 | with a base that is found, or found nowhere: a load succeeds exactly when every cast can be undone and the base was found or no entry needs it |
| Load.OneLoadsExactly | src/coordinator/mod.rs:1237-1280 | the same of one name, through its alias when it is one |
| Load.LookupIsTable | src/coordinator/mod.rs:1839-1882 | asking the manifest for each name finds the entries the prefetched table has |
| MergeKinds.MergedDeltaIsRightIff | src/merger.rs:705-865 | a merge of a rank the newest delta has, under any algorithm whatever, comes out right exactly when that algorithm gives each entry's bytes from the blobs it is read from: a full entry's own blob decodes to them, a skipped one's carrier in the base does, a delta's two blobs decode and apply to them |
| MergeKinds.SameKindMergesRight | src/merger.rs:705-865 | so a merge whose algorithm is of the writers' kind succeeds and its full holds what the newest delta held: Full, Skipped through a base alias, shuffled delta, Alias |
| MergeKinds.CarriedRankIsRightIff | src/merger.rs:695-816 | a rank only the base has, merged under any algorithm whatever, comes out holding what the base held exactly when that algorithm decodes each of its blobs to what the writer's does |
| MergeKinds.StoringMergerKeepsFrames | src/merger.rs:762-816 | a merger set to store, given one tensor a compressing writer kept in full in the newest delta or, where that has no such rank, in the base: it succeeds and leaves a full that passes every check and holds the frames; that is right exactly when the frames are the bytes |
| MergeKinds.StoringMergerCorrupts | src/merger.rs:762-816 | at every level there is such a delta, of one tensor: whenever its frames differ from its bytes the merge of it succeeds and is wrong |
| MergeKinds.FramesDiffer | src/compression.rs:17-43 | and they do differ: for the empty tensor, and for one at least of any two of which one begins the other |
| MergeKinds.DamageIsMerged | src/merger.rs:762-783 | of a tensor kept in full whose blob has changed on storage and still decodes: every load refuses it, and a merge of it succeeds and keeps what it now decodes to, under hashes that pass every check after it |
| Merge.SameKindDecodesAlike | src/merger.rs:762-783 | algorithms of one kind, at whatever levels, decode alike |
| Merge.MergedRankExtends | src/merger.rs:676-865 | a merge gives the same whatever else is on storage |
| Merge.BaseTensorData | src/merger.rs:971-1012 | the alias walk through the base computes its recursive reading |
| Merge.MergeEntries | src/merger.rs:752-816 | the merge loop reads, recompresses and places each entry, as the specification lists them, or fails as it does |
| Merge.MergeRank | src/merger.rs:676-865 | one rank's merged pack and entry |
| Merger.UnlinkSnapshots | src/merger.rs:522-568 | nothing is deleted while a reader is there at the deadline; otherwise, once deletes succeed, no pack, no tensor file and no ranks file of any of the snapshots is left, and no other file goes |
| Merger.FilesOfIs | src/merger.rs:529-556 | the files of a snapshot are the packs and tensor files of its ranks and its ranks file, no more and no less |
| Merger.WriteMergedRanks | src/merger.rs:676-865 | the loop over ranks: every rank of base and newest delta is written and holds the newest contents |
| Merger.Publish | src/merger.rs:892-905 | a failed write puts the list in memory back; a good one leaves on storage exactly the new list |
| Merger.DoFullMerge | src/merger.rs:609-917 | busy exactly while something it would fold is being read; a reported merge left a full on every rank for the last delta the list had on its newest full, with its step and metadata, listed and indexed in place of what it folded; with readers gone none of their files is left; on a disk that does not fail there is no error; anything else left the manifest as it was; no other pack changed |
| Merger.FoldsIntoNewest | src/merger.rs:618-632 | what a full merge folds into is the last delta in the list against its newest full |
| Merger.DeltasAddUp | src/merger.rs:625-632 | a fold takes the finalized deltas on that full in the list's order, each once |
| Merger.FoldsExactlyWhen | src/merger.rs:618-660 | it has nothing to merge exactly when no delta on the newest full is finalized, and stands down for a save in progress exactly when some are and some are not |
| Merger.PublishedInOrder | src/merger.rs:879-890 | the published list is in order of step |
| Merger.DoStrideMerge | src/merger.rs:409-501 | at the depth limit a full merge whatever the stride; below it all superseded deltas leave the list or none does, always when nobody reads one, and the index on storage says so; with readers gone none of their files is left; on a disk that does not fail there is no error |
| Merger.PublishKeepsSound | src/merger.rs:879-905 | publishing leaves no delta without its base |
| Merger.OthersLoadAsBefore | src/merger.rs:879-917 | every snapshot not folded loads as before: the same tensors or the same error |
| Load.LoadIsOver | src/coordinator/mod.rs:952-1088 | what a load gives, its error included, depends on what the snapshot holds and not on where it is kept |
| Merger.StrideKeepsSound | src/merger.rs:436-462 | a stride fold keeps every full, every unfinalized snapshot and the newest finalized one, and every base |
| Gaps.FullMergeTakesIff | src/merger.rs:609-660 | whether or not its user pinned it, a snapshot leaves the list in a full merge exactly when it is the newest full or a delta against it |
| Gaps.StrideTakesIff | src/merger.rs:409-462 | and in a stride fold exactly when it is a finalized delta of the tail, not the newest one, with the newest one's base |
| Gaps.APinStopsNoMerge | src/coordinator/mod.rs:1281-1326 | so a pinned delta, which retention always keeps, is kept by a full merge exactly when it is against another full than the newest |
| ManifestIO.Persist | src/manifest_io.rs:144-196 | ranks files first, the index last; a failed put leaves the index as it was and says which files were written |
| ManifestIO.Load | src/manifest_io.rs:210-290 | the loop reads the index and each snapshot's ranks, from memory where lent |
| ManifestIO.LoadUndoesPersist | src/manifest_io.rs:144-290 | `load` after `persist` gives back every snapshot with its ranks, in order, over page padding |
| ManifestIO.IndexLoadsBack | src/manifest_io.rs:210-290 | an index and the ranks files it names stand for the manifest it was written from |
| ManifestIO.LoadIgnoresLending | src/manifest_io.rs:224-256 | loading with the previous in-memory copy gives what the files alone give |
| ManifestIO.LoadIsClosed | src/manifest_io.rs:269-280 | one pass of dropping what an unreadable base held up leaves no delta without its base |
| ManifestIO.LoadsWhatIsReadable | src/manifest_io.rs:210-290 | an incomplete store loads as exactly the snapshots whose ranks can be read and whose base, where the index names one, can be read too |
| Manifest.LastFull | src/manifest.rs:245-250 | the newest finalized full: nothing after it is one |
| Manifest.PendingDeltas | src/manifest.rs:258-264 | the length of the run of deltas at the tail |
| Manifest.RollbackOf | src/manifest.rs:324-349 | at most `max` rollback points, each a full on the interval |
| Retain.RollbackIsNewest | src/manifest.rs:324-349 | they are the newest: exactly those fulls on the interval that have fewer than `max` of them after them |
| Retain.RollbackPointsStay | src/coordinator/mod.rs:1916-1957 | and retention keeps each |
| Manifest.ProtectedIsClosed | src/manifest.rs:311-322 | the protected set contains the base of whatever it contains |
| Retain.ApplyRetention | src/coordinator/mod.rs:1916-2018 | both capping loops terminate and leave what the specification of retention leaves, in memory and persisted; the evicted are what is gone from the list |
| Retain.RetentionKeeps | src/coordinator/mod.rs:1916-2018 | retention keeps the list closed under base, never evicts a protected snapshot, and stays over the total cap only when every unprotected snapshot but the newest is a full something depends on |
| Retain.OldestDeltasGoFirst | src/coordinator/mod.rs:1976-2013 | of the deltas whose bases stay the oldest go first: when one goes, every older one nothing protects is gone, at least as many as the cap allows are left, and it was neither protected nor the newest |
| Retain.OlderGoesFirst | src/coordinator/mod.rs:1988-2013 | the same of the second pass by itself, and of fulls nothing depends on |
| Retain.CapTotalCounts | src/coordinator/mod.rs:1988-2013 | the second pass takes nothing from a list within the cap and never takes one below it |
| Retain.TakenFor | src/coordinator/mod.rs:1997-2009 | it takes only what is finalized, unprotected and not the newest, and a full only once every delta on it is gone |
| Retain.NothingGoesWithinTheCaps | src/coordinator/mod.rs:1916-2018 | a list that fits both caps is left as it is |
| Retain.TheCapThatIsSetCounts | src/coordinator/mod.rs:1976-2013 | a cap on the total that was set is the one that counts: no more are left unless the pass is stuck, and where fulls are within their cap exactly as many |
| Retain.DefaultCapFits | src/manifest.rs:203-206 | a cap on the total that nobody set just fits as many fulls as may be kept with as many deltas each as they may have |
| Retain.FullSurvivesIff | src/coordinator/mod.rs:1929-1957 | exactly which unprotected fulls the first pass keeps |
| Retain.DeltaFollowsBase | src/coordinator/mod.rs:2021-2033 | a delta stays or goes with its base |
| Retain.NewestSurvivesIff | src/coordinator/mod.rs:1916-2018 | the exact condition under which the newest checkpoint survives |
| Retain.NewestStaysWhileThereIsRoom | src/coordinator/mod.rs:1929-1957 | with fewer protected fulls than the cap the newest checkpoint stays |
| Retain.NewestCanGo | src/coordinator/mod.rs:1929-1957 | a pinned full filling the cap makes the newest full the one that goes |
| Order.SortIsStable | src/coordinator/recovery.rs:186-186 | sorting candidates by step keeps the order within a step |
| Order.SortBefore | src/coordinator/recovery.rs:186-186 | one candidate is sorted before another exactly when its step is smaller, or the same and it was met first |
| Recovery.RebuildFromPacks | src/coordinator/recovery.rs:16-64 | the loop equals the rebuild specification |
| Recovery.RebuiltExactly | src/coordinator/recovery.rs:16-64 | a snapshot is rebuilt exactly when there is a pack, every pack describes itself, and they are of as many ranks as the first says there are; its ranks are the ones described |
| MultiRank.RebuildsExactlyWhenAllWrote | src/coordinator/recovery.rs:41-64 | whatever order the ranks wrote in and their packs are listed in: rebuilt exactly when as many ranks had written as there are, with the entry each wrote; a save cut short in between is not |
| Recovery.DataIsIntact | src/coordinator/recovery.rs:76-103 | the loop says yes exactly when every stored blob hashes to what its entry records |
| Recovery.IntactExactly | src/coordinator/recovery.rs:66-105 | a snapshot in packs is intact exactly when every blob they were written with is still there unchanged |
| Recovery.RecoverOrReclaimOrphans | src/coordinator/recovery.rs:138-231 | the pass leaves the recovered list, deletes files of rejected orphans only, and all of them when deletes succeed |
| Recovery.OrphanReadmittedIff | src/coordinator/recovery.rs:138-201 | an intact orphan comes back exactly when it is a full, or its base is listed, or its base is an intact orphan of a smaller step, or of the same step and met before it |
| Recovery.RecoveryIsSafe | src/coordinator/recovery.rs:138-231 | what was listed stays; what is readmitted is intact and rebuilt from its own packs, with its base |
| Recovery.RecoveredInOrder | src/coordinator/recovery.rs:186-231 | a list something was readmitted to is in order of step |
| Recovery.SameStepCanLose | src/coordinator/recovery.rs:186-201 | the same two intact directories on storage, a delta's and its base's, of one step: met delta first the delta is rejected, met base first both come back |
| Recovery.SecondRunIsIdle | src/coordinator/recovery.rs:138-231 | once its deletes have gone through a second run finds nothing to do |
| InFlight.Registry.Pin | src/inflight.rs:120-130 | every pin handed out is counted |
| InFlight.Registry.DropPin | src/inflight.rs:208-222 | dropping a guard uncounts exactly that guard; an id at zero leaves the table |
| InFlight.Registry.Claim | src/inflight.rs:151-164 | refused exactly while an outstanding pin names one of the ids; never waits |
| InFlight.Registry.DropClaim | src/inflight.rs:231-237 | withdraws the claim's marks; they stay exact for the other claims exactly when none shares an id |
| InFlight.PinnedIffGuarded | src/inflight.rs:101-106 | the counts show an id in use exactly when an outstanding guard names it |
| InFlight.WaitUntilUnpinned | src/inflight.rs:188-199 | the wait succeeds exactly when some look up to the deadline finds none of the ids pinned |
| MultiRank.CollectRankShards | src/coordinator/mod.rs:803-835 | the loop over listed packs collects each rank's entry or fails on the first malformed one |
| MultiRank.CollectsWhatWasWritten | src/coordinator/mod.rs:803-835 | after any interleaving of the ranks' writes, and for any listing order, collecting gives exactly the entry each rank wrote |
| MultiRank.OrderDoesNotMatter | src/coordinator/mod.rs:742-794 | two interleavings of the same ranks' writes leave the same storage |
| MultiRank.LaidIsWritten | src/coordinator/mod.rs:742-794 | the pack a rank's save lays out is one its entry can be collected from |
| MultiRank.MalformedPackIsRefused | src/coordinator/mod.rs:814-831 | one pack that does not describe itself, and nothing is collected |
| ManifestIO.ReloadManifest | src/coordinator/mod.rs:1885-1904 | the manifest re-read from storage, its ranks lent by a trusted copy; with nothing or nothing readable there the copy in memory stays |
| MultiRank.FinalizeSnapshot | src/coordinator/mod.rs:837-885 | re-reads the manifest, then refuses and writes nothing, or records the shards and applies retention: on success memory and storage are exactly the retained list persisted, on a failed write nothing but ranks files has changed |
| MultiRank.FinalizeIsConfluent | src/coordinator/mod.rs:837-862 | fewer than `world_size` ranks: refused; otherwise exactly what each rank wrote is recorded and nothing else changes |
| Saver.RunKeeps | src/coordinator/saver.rs:53-85 | in every interleaving of submitters, flushers and the worker the shared slot behaves as a sequential one |
| Saver.OneJobAtATime | src/coordinator/saver.rs:129-175 | one job at most is outstanding; while one is, no error is stored |
| Saver.SlotIsFreed | src/coordinator/saver.rs:97-103 | while the slot is taken somebody has a step to take, and within any three steps of any run it is free: nobody waits longer for it |
| Saver.EachFailureIsReportedOnce | src/coordinator/saver.rs:106-164 | a failed save's error is returned by exactly the next call to get the slot, and no call returns any other error |
| Saver.LastFailureIsKept | src/coordinator/saver.rs:66-79 | a failure nobody has been told of is stored, not overwritten |
| Saver.FlushLeavesNothingBehind | src/coordinator/saver.rs:106-118 | a flush that returned found every save taken before it ended or given back |
| Saver.OnlyBegunSavesEnd | src/coordinator/saver.rs:53-85 | a report is always of the one save taken and not yet ended |
| Saver.Shared.Claim | src/coordinator/saver.rs:145-164 | in terms of everything done under the lock so far: refuses with the failure the last save ended with while no call has been told of it, and otherwise the job is from now on the one in hand |
| Saver.Shared.TakeError | src/coordinator/saver.rs:113-120 | in the same terms: no save is in hand when a flush gets the slot, it returns what the last one still owed, and nothing is owed afterwards |
| Saver.Shared.Report | src/coordinator/saver.rs:66-82 | in the same terms: the job in hand has ended and exactly its outcome is owed to the next call, nothing of an earlier one |
| Saver.Shared.GiveBack | src/coordinator/saver.rs:168-174 | in the same terms: the job in hand was never sent, and nothing is owed for it |
| RemoteCopy.MemoryStaysWithinBudget | src/remote_sync.rs:634-672 | in every interleaving the bytes held are the sum of the outstanding takes and at most the limit |
| RemoteCopy.DataStaysWithinBudget | src/remote_sync.rs:553-660 | the bytes in memory at once never pass the budget, or the largest file if that is larger, as long as no file is larger than it was listed |
| RemoteCopy.EveryCopyEnds | src/remote_sync.rs:560-672 | whatever the source does meanwhile, the workers take at most 8 steps a file and 2 a worker, and until every one has stopped some worker can take the next: no wait for the budget is for ever, and the copy ends |
| RemoteCopy.EachFileIsTakenOnce | src/remote_sync.rs:574-580 | no two workers have the same file in hand |
| RemoteCopy.FatesAreFinal | src/remote_sync.rs:596-608 | a file that was copied, gone or failed stays so |
| RemoteCopy.CopyAddsUp | src/remote_sync.rs:601-627 | with no failure copied plus vanished is the number of files; with one, some file did fail with it |
| RemoteCopy.CopiesAreExact | src/remote_sync.rs:596-603 | each copied file is, byte for byte, what the source held at some time of the run; a vanished one was missing at some time; other destination files are untouched |
| RemoteCopy.CopiesAreTheListedFiles | src/remote_sync.rs:596-603 | when the source only loses files, a copied file is what was there at the start |
| RemoteCopy.Budget.Take | src/remote_sync.rs:649-658 | one more take among those outstanding, of what was asked capped at the limit, and together they do not pass the limit |
| RemoteCopy.Budget.Drop | src/remote_sync.rs:666-672 | whichever take is given back, the counter is the sum of those that are left, and whoever could have been served before still can |
| Glob.GlobMatch | src/cast.rs:246-270 | the matcher that only ever goes back to the last star answers as the recursive meaning does, within p + n * (p + 1) turns for a pattern of length p and a name of length n |
| Glob.ForTensor | src/cast.rs:205-212 | the first matching rule decides, and a name no rule matches is kept |
| Float8.ShiftRoundEvenExactly | src/cast.rs:578-594 | rounds to nearest, ties to even, for every 32-bit value and shift but the values above the midpoint at a shift of 32 |
| Float8.EncodeIsNearest | src/cast.rs:619-666 | for any consistent format every finite fp32 narrows to the nearest finite float8, ties to even, saturating, never NaN or infinity |
| Float8.KnownFormatsConsistent | src/cast.rs:541-573 | the two formats there are, e4m3fn and e5m2, are consistent in the sense all of these ask for |
| Float8.EncodeSpecials | src/cast.rs:620-631 | a NaN stays a NaN; an infinity becomes the format's infinity or a NaN |
| Float8.EncodeMonotone | src/cast.rs:619-666 | a larger magnitude never narrows to a smaller one |
| Float8.FinitePatterns | src/cast.rs:672-706 | the finite patterns are those up to `max_finite_bits`, each worth its magnitude |
| Float8.DecodedIsRepresentable | src/cast.rs:672-706 | every float8 value is exactly an fp32 value |
| Float8.EncodeUndoesDecode | src/cast.rs:619-706 | encode after decode is the identity on every pattern but the NaNs |
| Float16.Bf16IsNearest | src/cast.rs:967-978 | bf16 rounds every non-NaN fp32 to the nearest, ties to even, and the addition never wraps |
| Float16.Bf16KeepsNaN | src/cast.rs:967-972 | a NaN keeps its sign and stays a NaN |
| Float16.Bf16RoundTrip | src/cast.rs:967-978 | widen then narrow is the identity exactly off the NaNs without a quiet bit |
| Float16.Fp16IsNearest | src/cast.rs:980-1013 | fp16 rounds every non-NaN fp32 to the nearest, ties away from zero |
| Float16.Fp16KeepsNaN | src/cast.rs:984-991 | a NaN stays a NaN of its sign |
| Float16.WidenFp16Bits | src/cast.rs:1015-1043 | the normalising loop computes the widened pattern |
| Float16.WidenFp16ExactIff | src/cast.rs:1015-1043 | a finite fp16 pattern widens to an fp32 of its own worth exactly when it is zero or a normal |
| Float16.WidenFp16Subnormal | src/cast.rs:1024-1033 | a widened subnormal is worth half of what it should be |
| Float16.Fp16RoundTrip | src/cast.rs:980-1043 | exactly which patterns survive the trip through fp32 |
| Casts.NarrowBuffer | src/cast.rs:311-348 | the chunked narrowing loop is the elementwise map, and refuses a ragged length |
| Casts.WidenBuffer | src/cast.rs:353-384 | the chunked widening loop is the elementwise map |
| Casts.NarrowedAt | src/cast.rs:391-427 | element i of the narrowed buffer is element i narrowed |
| Casts.WidenedAt | src/cast.rs:430-464 | element i of the widened buffer is element i widened |
| Casts.BufferRoundTrip | src/cast.rs:311-464 | a buffer survives widening and narrowing exactly when each of its patterns does |
| Shuffle.ShuffleBytes | src/shuffle.rs:39-62 | the plane-by-plane loop computes the transpose, ragged tail included |
| Shuffle.UnshuffleBytes | src/shuffle.rs:65-91 | the blocked loop computes the inverse transpose |
| Shuffle.UnshuffleShuffle | src/shuffle.rs:39-91 | unshuffle undoes shuffle for every length and item size |
| Shuffle.ShufflePermutes | src/shuffle.rs:39-62 | shuffle is a permutation of the bytes |
| Compression.Compress | src/compression.rs:17-43 | the chunk loop appends one frame per chunk |
| Compression.ChunkSizes | src/compression.rs:17-43 | every frame but the last is of one whole chunk, and none is empty or larger than that |
| Compression.FrameLayout | src/compression.rs:45-66 | the scan finds each frame, or gives up where a header does not say |
| Compression.Decompress | src/compression.rs:68-114 | parallel slices or one stream: the output is the concatenated contents or an error |
| Compression.DecompressFrames | src/compression.rs:82-105 | the output slices partition the buffer in frame order |
| Compression.LayoutRecoversFrames | src/compression.rs:45-66 | the layout read back is exactly the frames that were concatenated |
| Compression.DecompressUndoesCompress | src/compression.rs:17-114 | decompress undoes compress for every length and whatever level either side was set to |
| Delta.XorBytes | src/delta.rs:25-55 | the chunked loops with their ragged tail compute the bytewise exclusive or |
| Delta.BuffersEqual | src/delta.rs:57-70 | the chunked comparison is equality |
| Delta.ComputeDelta | src/delta.rs:131-146 | a delta for buffers of one length, large enough and different, and nothing otherwise |
| Delta.ApplyDelta | src/delta.rs:149-160 | a delta of another length is refused |
| Delta.ApplyUndoesCompute | src/delta.rs:131-160 | applying a computed delta to its base gives the target |
| Delta.DeltaZeroOnlyForEqual | src/delta.rs:25-47 | a delta is all zeros exactly for equal buffers |
| Pack.EncodeHeader | src/pack.rs:73-101 | the header that is written is the length the reader takes it for, and whatever follows it in the file the reader finds the span it was built for |
| Pack.HeaderBytes | src/pack.rs:73-88 | byte by byte: magic, version, and both numbers of the span least significant byte first |
| Pack.HeaderRoundTrip | src/pack.rs:73-101 | whatever follows it, a header gives back its span |
| Pack.DecodeAcceptsOnlyHeaders | src/pack.rs:90-101 | nothing but such a header is accepted |

## Left out

What the model assumes of its surroundings:

- Hashing is a function that never collides on the bytes in play; zstd is a lossless codec with the frame laws of section 3.1 of RFC 8878; JSON text is read back as written, is not empty and does not end in a zero byte.
- `pays_off`, the sampled prefix and the dtype casts of whole tensors are arbitrary functions of their inputs; `fp8_scale`, float64 casts and scales other than 1 in hardware arithmetic are not modelled.
- Storage is a map from paths to bytes with atomic puts and trailing zero padding; temporary files, fsync, directories and S3 are left out. `storage.list` gives the right names in any order.
- Time is left out: a timeout is a choice to leave the files, a condition variable is a step that is enabled when its condition holds, an id is any id not used before.
- Parallel loops over tensors and chunks are sequential.

What the repository does that is not here:

- The multi-rank path interleaved with a merger in `Protocol`: it is proved from the ranks' writes on (`MultiRank`), and its one gap beside a merge by itself (`Gaps.CreatedLosesItsBase`).
- A store reopened with compression switched on or off between restarts: runs keep to one kind, at any level; what a merger makes of another kind is in `MergeKinds`.
- `sync_pins` and several processes writing one manifest; `set_pinned` during a run (pins are an arbitrary fixed field of each snapshot where retention and merges are proved).
- Fetching a pack a load does not find from a remote (`fetch_absent`), recovery from a poisoned lock, the remote syncer's thread and its deletes, restore from a remote, Python bindings.
- Snapshots in the older one-file-per-tensor layout are modelled for a single tensor and for deletes, not in whole runs.
- Quality of compression and speed.

Contracts that say less than one could ask:

- Theorems.EverySnapshotLoadsItsSave: for a store of one rank; bit for bit where no rule casts, and otherwise the stored form the save kept.
- Theorems.StepKeeps: a save's and a merge's reads of the base are one step each, and so are a load's last reads and the lookup and read of one name; ranks files are put in any order rather than the manifest's; a crash during a persist keeps whole files only.
- Theorems.NothingNeededIsDeleted: pins here are those of readers; no step sets a snapshot's own pin, so protection inside a run is that of rollback points; that retention keeps what is pinned is `Retain.RetentionKeeps`.
- Progress.EveryLoadCanEnd: says that the end can be reached, step by step, not that a scheduler gives each actor its turn; for a given run `Saver.SlotIsFreed` and `RemoteCopy.EveryCopyEnds` bound the steps instead.
- Recovery.OrphanReadmittedIff: asks that no orphan is a delta against another delta, which every save and merge sees to.
- Merger.DoFullMerge: the order of its writes and deletes is part of `Protocol`, not of this contract, which speaks of the end.
- Recovery.RecoverOrReclaimOrphans: takes the orphan directories and the packs listed under each as parameters.
- InFlight.WaitUntilUnpinned: the condition variable and the clock are a sequence of looks at the counts, up to the last one before the deadline.
- MultiRank.FinalizeSnapshot: the unlinking of what was evicted is `Merger.UnlinkSnapshots`, called after it.
- Saver.Shared.Claim: the wait before it is a precondition; that the wait ends is `Saver.SlotIsFreed`.
- Saver.Shared.TakeError: the same of the wait of a flush.
- RemoteCopy.Budget.Take: the wait before it is a precondition; that the wait ends is `RemoteCopy.EveryCopyEnds`.
- RemoteCopy.DataStaysWithinBudget: for a budget above zero, as its one caller passes; with none, nothing waits.
- RemoteCopy.CopiesAreExact: a put that fails leaves the destination as it was.
