# Verified models of the GATE-1 qualification scripts

The scripts under `scripts/` qualify a deployment: they stage and withdraw a firewall rule on a live project, search
build output for private values, write and read archives, walk a mounted tree by descriptors, guard Redis traffic
during a restart, take one exclusive attempt at a diagnosis, own disposable accounts and load two targets from four
workers. Each file here models one of those components in Dafny and proves what it promises, for all inputs and all
runs. `dafny verify dfyconfig.toml` checks everything. `Wrappers.dfy` and `Finite.dfy` hold the few helpers they share.

| file | component | main results |
|---|---|---|
| `FirewallPolicy.dfy`, `LogReceipt.dfy` | firewall trial and recovery | `RunReceipt`, `AddedRuleIsInsertion`, `InsertionIsAdded` |
| `AliasResolution.dfy` | link resolution against an inventory | `ResolveAliases`, `StaysInside` |
| `AliasCoverage.dfy` | unfolding of a directory graph with aliases | `Cover`, `CycleIffInfinite` |
| `FilePathMaps.dfy` | overlay of mapped files | `Prepare`, `OrderIndependent`, `PrepareEitherWay` |
| `Representations.dfy` | encodings of a private value | `EmbeddedValueIsLabelled`, `AlignmentComplete`, `WindowIsWidest` |
| `SourceMapTargets.dfy` | binary search for an absent target | `AbsentMapTarget` |
| `StrictJson.dfy` | duplicate-key checkers | `CheckerIsExact`, `NothingOverwritten` |
| `Ustar.dfy`, `CacheTar.dfy` | ustar writer and reader | `WriterReaderAgree` |
| `PaxArchive.dfy` | pax source archive | `ArchiveRoundTrip`, `SourceArchive` |
| `LinkMetadata.dfy` | descriptor-bounded tree walker | `Inspect` |
| `TransportGuard.dfy` | transport guard | `RunsBalance`, `LatchedForGood`, `ForwardedExactly` |
| `OneAttempt.dfy` | lock and reservation | `OneHolder`, `ReleasedExactly`, `SavedCompletedMeans`, `UndisturbedCompletes` |
| `Diagnosis.dfy` | classifier and report validator | `ExactlyTheReports` |
| `OwnedAccounts.dfy` | disposable accounts | `Lifecycle` |
| `Topology.dfy` | four workers on two targets | `RunTopology` |

How the models are built:

- A component that updates fields is a class with those fields; a loop is a loop. What cannot be seen from the code
  (the provider, the file system, the clock, Docker, the network) is a parameter that may answer anything at any
  call, so a result holds for every failure point. `World`, `Io`, `Environment`, `ProvisionFate` and `Outcome` are
  such parameters.
- Code between two awaits runs as one step. `TransportGuard.Run`, `OneAttempt.Run`, `OwnedAccounts.Services.Cleanup`
  and `Topology.Runner.LoadPhase` quantify over every interleaving of such steps.
- In `LogReceipt`, a mutation that was sent is applied at once, applied later or never, and its reply arrives or is
  lost, independently; nobody else edits the configuration, and a success reply means that the mutation was applied.
- Hashes, name patterns, byte lengths of names and the like are function parameters: the results hold for all of them.

Where the code has an edge that its description does not mention, the model follows the code:

- `execute` keeps the lock when its own reservation fails, although nothing was started (`FailedReservationKeepsLock`).
  `ReleasedExactly` says when an attempt gives it back: if and only if persistence did not fail and either no container
  was asked for or its removal was confirmed.
- The saved report and the returned result can differ. `SavedCompletedMeans` holds of every report that says completed:
  its attempt had its reservation, validated the diagnosis, and took everything down cleanly; and once that attempt has
  returned, the result says completed exactly when the lock was given back, and stopped exactly when one of three calls
  failed: the write of the report broke off, the lock was no longer recognised as its own, or it could not be removed.
  `SavedCompletedReturnedStopped` gives one run for each of the three.
- `runReceipt` reports restoration from readbacks, so a mutation that was dispatched and dropped leaves the trial
  unresolved. `RunReceipt` makes this exact: when cleanup is served, an armed trial that lost no dispatched mutation
  ends restored; when nothing commits late, a trial that ends restored has lost none. `LostInsertion` is a run in which
  everything but the insertion is answered and applied, and which ends unresolved. Safety holds for all providers.

## Model

| member | source | states |
|---|---|---|
| `FirewallPolicy.MatchIsSamePolicy` | scripts/gate1-log-receipt.js:265-286 | an active configuration matches the baseline exactly when both enforce the same policy |
| `FirewallPolicy.AddedRuleIsInsertion` | scripts/gate1-log-receipt.js:300-311 | a recognised addition is the baseline's rules, in order, with exactly one matching new rule put in |
| `FirewallPolicy.InsertionIsAdded` | scripts/gate1-log-receipt.js:289-311 | conversely, one matching rule with a new id is recognised wherever it was inserted |
| `FirewallPolicy.OwningDiffers` | scripts/gate1-log-receipt.js:276-311 | a policy with one owned rule never passes for the baseline's, so the two branches of cleanup exclude each other |
| `LogReceipt.CommitIsFine` | scripts/gate1-log-receipt.js:787-838 | committing any mutation that may be outstanding, now or late, leaves an allowed policy in force |
| `LogReceipt.DraftPublishes` | scripts/gate1-log-receipt.js:874-879 | publishing a draft recognised as baseline plus one rule puts exactly that policy in force |
| `LogReceipt.RemovalPublishes` | scripts/gate1-log-receipt.js:826-834 | publishing a draft recognised as the baseline puts the baseline back in force |
| `LogReceipt.SameAddition` | scripts/gate1-log-receipt.js:300-311 | what was recognised in the draft is recognised again once published, and as the same rule |
| `LogReceipt.Trial.Send` | scripts/gate1-log-receipt.js:725-784 | dispatch of one phase: each phase goes out at most once, its budget counters move by one, a mutation becomes pending before it leaves |
| `LogReceipt.Trial.Mutate` | scripts/gate1-log-receipt.js:785-794 | one mutation without retry: acknowledged and applied, never sent, or pending with its effect open |
| `LogReceipt.Trial.OwnRule` | scripts/gate1-log-receipt.js:795-799 | a rule is taken as ours exactly when it matches, is the one verified before, and does not collide with the token |
| `LogReceipt.Trial.Reconcile` | scripts/gate1-log-receipt.js:804-838 | both branches of cleanup: success means baseline policy, no draft, nothing outstanding; a resolvable state is resolved unless a mutation of cleanup is lost, and a mutation lost before cleanup is reported unresolved |
| `LogReceipt.Trial.Cleanup` | scripts/gate1-log-receipt.js:801-838 | restored exactly when cleanup reports no failure, never for lack of budget; without late commits not if any mutation was lost, and always if the state could be undone and none was |
| `LogReceipt.RunReceipt` | scripts/gate1-log-receipt.js:840-895 | in every run every state has the baseline policy or the baseline plus one owned rule in force, also after a late commit; verified restoration means baseline, no draft, nothing outstanding; at most 6 main, 5 cleanup and 11 provider calls, and the budget guard never fires; with cleanup served and nothing committed late, an armed trial is restored if and only if every dispatched mutation took effect, and with the main phase answered too it completes exactly when it is restored and the last write of the report succeeds; a completed trial sent its seven main phases first and in order, each was answered, and the baseline with one owned rule was in force in some state of the run |
| `LogReceipt.LostInsertion` | scripts/gate1-log-receipt.js:801-838 | a concrete provider that loses only the insertion: the trial ends unresolved and nothing is claimed restored |
| `AliasResolution.LandsWhereItEnds` | scripts/gate1-build-artifact-privacy.js:240-254 | resolution along the chain of directories and resolution on paths succeed together, and the path found is where the chain ends |
| `AliasResolution.StaysInside` | scripts/gate1-build-artifact-privacy.js:240-254 | a resolution that succeeds stands, after every component, at one path of the tree that is a directory, and never leaves the root |
| `AliasResolution.ResolveAlias` | scripts/gate1-build-artifact-privacy.js:237-258 | one link is accepted exactly when path resolution of section 4.13 of POSIX.1-2017 ends in an inventoried directory within the limits without crossing another link; the path returned is the one path that component-by-component resolution arrives at, also among directories with equal contents; each refusal has its stated cause |
| `AliasResolution.ResolveAliases` | scripts/gate1-build-artifact-privacy.js:231-260 | the inventory is accepted exactly when every link resolves so, and every link then carries the one path its resolution arrives at |
| `AliasCoverage.FiniteUnfolding` | scripts/gate1-build-artifact-privacy.js:277-314 | a path whose directory chain repeats nothing is shorter than the number of directories: the walk ends without the caps |
| `AliasCoverage.CycleIffInfinite` | scripts/gate1-build-artifact-privacy.js:292-296 | an alias cycle is exactly what makes the unfolding infinite |
| `AliasCoverage.NothingMissed` | scripts/gate1-build-artifact-privacy.js:284-312 | once the queue is worked off every logical path of the graph has been recorded |
| `AliasCoverage.GroupByParent` | scripts/gate1-build-artifact-privacy.js:278-283 | grouping files every entry under its parent, in inventory order |
| `AliasCoverage.Cover` | scripts/gate1-build-artifact-privacy.js:277-314 | it accepts exactly when there is no reason to refuse; then nodes are precisely the logical paths, locations the inverse image of each physical file, and there is no cycle; an error is always justified; under limits that the finite unfolding cannot reach it fails with alias_cycle if and only if the graph has a cycle, and accepts every other graph |
| `FilePathMaps.UnfoldingIsSane` | scripts/gate1-build-artifact-privacy.js:277-314 | what the unfolding returns meets all the overlay asks of its tree |
| `FilePathMaps.Overlay.Project` | scripts/gate1-build-artifact-privacy.js:366-400 | a projected path is recorded together with its known file and its physical file's location, and only if it agrees with what is there |
| `FilePathMaps.Overlay.Expand` | scripts/gate1-build-artifact-privacy.js:349-404 | one request shows exactly the part of the tree below its source; a refusal other than the entry limit means no order of requests is acceptable; the limit is hit only if the request does not fit |
| `FilePathMaps.Overlay.CoverSite` | scripts/gate1-build-artifact-privacy.js:333-405 | one configuration: all its pairs are read, counted and shown |
| `FilePathMaps.Overlay.NoFileAbove` | scripts/gate1-build-artifact-privacy.js:421-430 | the closing pass finds exactly the projections that lie below a regular file |
| `FilePathMaps.Overlay.Prepare` | scripts/gate1-build-artifact-privacy.js:408-430 | room given, it accepts exactly when every configuration parses and the set of requested triples is functional, agrees with the tree, has no file above a path and passes every check; it then shows exactly that set |
| `FilePathMaps.OrderIndependent` | scripts/gate1-build-artifact-privacy.js:333-430 | a permutation of the configurations needs the same room, is accepted or refused alike and, where accepted, shows the same overlay |
| `FilePathMaps.PrepareEitherWay` | scripts/gate1-build-artifact-privacy.js:408-430 | two runs on permuted configurations: the same verdict where there is room, and the same state after both |
| `FilePathMaps.SourceReaderReads` | scripts/gate1-build-artifact-privacy.js:319-347 | the reader of one pair never asks for the root and never fails with a limit |
| `Representations.EncodeAt` | scripts/gate1-build-artifact-privacy.js:112-119 | base64 of RFC 4648 sections 4 and 5: every complete group of six bits becomes the symbol at its index |
| `Representations.AlignmentComplete` | scripts/gate1-build-artifact-privacy.js:114-119 | the encoding of any text around the value contains the window for the value's offset modulo three |
| `Representations.WindowNonEmpty` | scripts/gate1-build-artifact-privacy.js:51-53 | windows are empty only for a one-byte value at offset one, which the accepted lengths exclude |
| `Representations.WindowIsWidest` | scripts/gate1-build-artifact-privacy.js:116-118 | the symbols just outside a window depend on the neighbours, so no wider window would be complete |
| `Representations.Representations` | scripts/gate1-build-artifact-privacy.js:111-121 | the list holds exactly the defined forms, none empty, none twice |
| `Representations.LabelReported` | scripts/gate1-build-artifact-privacy.js:124-131 | any form that occurs in the bytes puts its label in the findings |
| `Representations.EmbeddedValueIsLabelled` | scripts/gate1-build-artifact-privacy.js:111-131 | wherever a text containing the value is written raw, JSON-escaped, percent-encoded or in either base64, the value's label is reported |
| `SourceMapTargets.LowerBound` | scripts/gate1-build-artifact-privacy.js:535-542 | the low/high loop splits the sorted names at the query |
| `SourceMapTargets.PrefixInterval` | scripts/gate1-build-artifact-privacy.js:543-545 | names with a common prefix are contiguous in the sorted list |
| `SourceMapTargets.DirnameIsNearest` | scripts/gate1-build-artifact-privacy.js:530-534 | repeated dirname visits exactly the proper ancestors, nearest first |
| `SourceMapTargets.AbsentMapTarget` | scripts/gate1-build-artifact-privacy.js:528-548 | true exactly when the path is not the root, not listed, nothing listed lies below it and no proper ancestor is a known file |
| `StrictJson.EvalIsExact` | scripts/gate1-vercel-build-diagnostic.js:54-73 | reading a value succeeds exactly when its keys are clean and its depth and count fit |
| `StrictJson.CheckerIsExact` | scripts/gate1-build-qualification.js:108-126 | on the tokens of any document the stack machine accepts exactly when no object repeats a key and the bounds hold |
| `StrictJson.Strict` | scripts/gate1-build-qualification.js:111-123 | the unbounded token loop computes that machine |
| `StrictJson.Bounded` | scripts/gate1-vercel-build-diagnostic.js:58-71 | the loop that also counts values computes that machine with the depth and node bounds |
| `StrictJson.NothingOverwritten` | scripts/gate1-build-qualification.js:108-126 | a parsed object has one entry per member exactly when no key repeats: accepting loses nothing |
| `Ustar.FieldRoundTrip` | scripts/gate1-build-qualification.js:464-467 | an octal field reads back as its number |
| `Ustar.HeaderFits` | scripts/gate1-build-qualification.js:460-472 | the checksum always fits six octal digits and the size eleven; the header has 512 bytes |
| `Ustar.HeaderReads` | scripts/gate1-build-qualification.js:460-472 | any reader of the ustar fields recovers name, mode, size, type and checksum |
| `Ustar.HeaderSum` | scripts/gate1-build-qualification.js:340-345 | the sum the reader takes is the sum the writer stored |
| `Ustar.TarHeader` | scripts/gate1-build-qualification.js:459-472 | the header is written exactly when name, size, mode and type are admissible, and then holds the specified bytes |
| `CacheTar.ContextTar` | scripts/gate1-build-qualification.js:474-501 | the archive is written exactly when every member is sound: members in order, then two zero blocks |
| `CacheTar.CheckCacheTar` | scripts/gate1-build-qualification.js:321-364 | the offset loop with its closing checks computes the block-by-block scan |
| `CacheTar.ReadWritten` | scripts/gate1-build-qualification.js:330-356 | a written member is read back as its own name and size, whatever follows |
| `CacheTar.WriterReaderAgree` | scripts/gate1-build-qualification.js:321-501 | the reader accepts what the writer wrote exactly when it admits every member and there are 1 to 250000, and walks exactly those entries in order |
| `PaxArchive.PaxLength` | scripts/gate1-build-qualification.js:508-512 | the self-referential length is the least one that states itself |
| `PaxArchive.RecordLength` | scripts/gate1-build-qualification.js:508-512 | the length loop terminates on that length |
| `PaxArchive.RecordRoundTrip` | scripts/gate1-build-qualification.js:506-514 | an extended record gives back the path, whatever bytes it holds |
| `PaxArchive.SourceArchive` | scripts/gate1-build-qualification.js:503-536 | it succeeds exactly when every blob arrives on time with its hash and the archive fits; its size is the running total, a multiple of 512 and within the limit |
| `PaxArchive.ArchiveRoundTrip` | scripts/gate1-build-qualification.js:503-536 | decoding by the pax rules gives back exactly the manifest's names, modes and bytes, in order |
| `LinkMetadata.Reader.Tick` | scripts/gate1-link-rejection-metadata.js:61-65 | the deadline comes first, then the ordinary share of the budget, and only a granted operation is counted |
| `LinkMetadata.Reader.CleanupCall` | scripts/gate1-link-rejection-metadata.js:72-75 | reserved calls are refused only at the full cap |
| `LinkMetadata.Reader.OpenDirectory` | scripts/gate1-link-rejection-metadata.js:90-99 | a directory is held exactly when opened and unchanged; on every failure its descriptor is closed again |
| `LinkMetadata.Reader.CloseChain` | scripts/gate1-link-rejection-metadata.js:101-112 | everything in a chain is closed from its end, under anchors that are still open, whatever fails on the way |
| `LinkMetadata.Reader.Acquire` | scripts/gate1-link-rejection-metadata.js:113-126 | a path is reopened one directory below the other, or everything taken is given back |
| `LinkMetadata.Reader.AdmitFile` | scripts/gate1-link-rejection-metadata.js:172-190 | the first file with another link count than one is selected, and every name of its inode is counted once |
| `LinkMetadata.Reader.Walk` | scripts/gate1-link-rejection-metadata.js:142-211 | a finished walk has no directory twice, counts each name of the selected inode, equals the first walk where it is the second, and is the closed tree where every answer was true of one |
| `LinkMetadata.Reader.Recount` | scripts/gate1-link-rejection-metadata.js:232-239 | a diagnosis rests on equal walks and on all names of the inode carrying one stamp |
| `LinkMetadata.Inspect` | scripts/gate1-link-rejection-metadata.js:56-285 | for every file system and failure point the report satisfies the validator, every descriptor is closed exactly once, cleanup never lacks budget; a diagnosed count is the number of names in both walks and in the whole tree; on a plain tree that is served in time it is inconclusive only for a limit that the tree as a whole exceeds: more than 50000 entries or 25000 files, a directory deeper than 64, path, file or link bytes above their caps, or more calls for two walks than the ordinary budget has; otherwise the outcome and the counts are those of the tree |
| `LinkMetadata.ServingServes` | scripts/gate1-link-rejection-metadata.js:56-285 | every tree has a file system that serves it, so what is said of served trees is never said of none |
| `LinkMetadata.TwoNamesPlain` | scripts/gate1-link-rejection-metadata.js:172-190 | one file under two names is a plain tree that exceeds no limit and has a link count to diagnose |
| `TransportGuard.Guard.CountCommands` | scripts/gate1-restart-transport.js:108-124 | the loop over the commands: kinds and counts, or refusal |
| `TransportGuard.Guard.Begin` | scripts/gate1-restart-transport.js:136-156 | the code up to the send, as one step |
| `TransportGuard.Guard.End` | scripts/gate1-restart-transport.js:157-187 | the code after the reply, as one step |
| `TransportGuard.InspectBooks` | scripts/gate1-restart-transport.js:97-133 | a refused request changes no figure; an admitted one is taken from its allowance |
| `TransportGuard.ForwardedExactly` | scripts/gate1-restart-transport.js:97-156 | a call is forwarded exactly when the latch is open, its options object is new, nothing is cancelled, fewer than four calls are in flight and its request is admissible |
| `TransportGuard.AbsorbLedger` | scripts/gate1-restart-transport.js:166-178 | credits come one for one with NOSCRIPT replies to this call's EVALSHA commands |
| `TransportGuard.RunsBalance` | scripts/gate1-restart-transport.js:78-187 | under every interleaving noscript = eval + credits, eval <= noscript <= evalsha <= maxDecisions, commands is the sum, active is the number in flight and at most 4, and no options object is sent twice |
| `TransportGuard.LatchedForGood` | scripts/gate1-restart-transport.js:84-91 | after the latch nothing is sent and the code never changes |
| `TransportGuard.SnapshotsFit` | scripts/gate1-restart-transport.js:11-24 | every snapshot of every run meets the published schema |
| `OneAttempt.RunsKeep` | scripts/gate1-vercel-build-diagnostic.js:338-395 | the protocol invariant holds after every interleaving of attempts with failures at any call |
| `OneAttempt.OneHolder` | scripts/gate1-vercel-build-diagnostic.js:349-354 | at most one attempt holds the lock |
| `OneAttempt.OneReservation` | scripts/gate1-vercel-build-diagnostic.js:361-363 | at most one attempt per key passes the reservation |
| `OneAttempt.FreeLockMeansNoContainer` | scripts/gate1-vercel-build-diagnostic.js:366-391 | while the lock is free no attempt's container is left |
| `OneAttempt.ReleasedSafely` | scripts/gate1-vercel-build-diagnostic.js:379-392 | the lock goes away only by its creator's hand, after a complete report and with no container or a confirmed removal |
| `OneAttempt.CompletedMeans` | scripts/gate1-vercel-build-diagnostic.js:323-395 | a returned completed implies a validated report, saved, and a clean teardown |
| `OneAttempt.ReleasedExactly` | scripts/gate1-vercel-build-diagnostic.js:382-392 | an attempt that returned gave the lock back exactly when persistence did not fail and no container was asked for or its removal was confirmed |
| `OneAttempt.SavedCompletedMeans` | scripts/gate1-vercel-build-diagnostic.js:338-395 | a report saved as completed is of a reserved, validated and cleanly removed attempt; its returned result is completed exactly when the lock was given back, and stopped exactly when the write, the identity check or the unlink failed |
| `OneAttempt.SavedCompletedReturnedStopped` | scripts/gate1-vercel-build-diagnostic.js:379-393 | for each of those three failures a run with a report that says completed and a result that says stopped |
| `OneAttempt.UndisturbedCompletes` | scripts/gate1-vercel-build-diagnostic.js:338-395 | after any history, an attempt that is ready and left undisturbed completes in its twelve calls, with its report saved, its container gone and the lock free |
| `OneAttempt.ReservedForGood` | scripts/gate1-build-qualification.js:417-424 | an exclusive reservation is never withdrawn and never changes hands |
| `OneAttempt.KeptForGood` | scripts/gate1-vercel-build-diagnostic.js:382-393 | a lock an ended attempt left behind stays |
| `OneAttempt.FailedReservationKeepsLock` | scripts/gate1-vercel-build-diagnostic.js:360-383 | an attempt whose reservation failed never gives the lock back |
| `Diagnosis.ReportIsValid` | scripts/gate1-vercel-build-diagnostic.js:92-121 | whatever the file holds, the validator accepts the reader's report |
| `Diagnosis.ValidIsReport` | scripts/gate1-vercel-build-diagnostic.js:259-289 | every report the validator accepts is the reader's report on some file |
| `Diagnosis.ExactlyTheReports` | scripts/gate1-vercel-build-diagnostic.js:75-289 | the two together: the validator accepts exactly the reports the reader can write under the same approval |
| `OwnedAccounts.Services.Provision` | scripts/gate1-shared-ip-load.js:348-386 | an acknowledged account is owned before anything else can fail; a create without a usable answer is uncertain; nothing else changes |
| `OwnedAccounts.Services.Consider` | scripts/gate1-shared-ip-load.js:413-425 | an account with both tags becomes ours by settling one uncertain create, is ours already, or marks the scan as failed |
| `OwnedAccounts.Services.Reconcile` | scripts/gate1-shared-ip-load.js:402-431 | the scan leaves a delete for every create within the budget, and loses no tagged account of a page it has read |
| `OwnedAccounts.Services.TakeTurn` | scripts/gate1-shared-ip-load.js:446-459 | one step of one deleting worker, whichever it is |
| `OwnedAccounts.Services.Cleanup` | scripts/gate1-shared-ip-load.js:433-461 | in every interleaving each delete has its own target and what was owned stays owned or was sent a delete; the workers do exactly what the schedule has them do |
| `OwnedAccounts.Lifecycle` | scripts/gate1-shared-ip-load.js:300-461 | created = owned + deleted, created + unconfirmed <= attempts <= sessions, all requests within three per session, distinct deletes of ids shown with both tags, no acknowledged account lost; every account with both tags on a page that the scan has read is still owned or was sent a delete, unless the scan is marked as failed, and a scan that stops early with a create still uncertain is marked so; the workers' steps are those of the schedule, a schedule with three rounds for each account drains the list whatever becomes of the calls, and if all of them are good nothing stays owned |
| `OwnedAccounts.FairDrains` | scripts/gate1-shared-ip-load.js:443-461 | a schedule that can be cut into three rounds per account, with a turn for each worker in every round, leaves nothing to take and nothing in hand |
| `Topology.DispatchedOnce` | scripts/gate1-redis-topology-http.js:294-313 | load requests sent for consecutive ordinals dispatch the first ordinals once each and no others |
| `Topology.EvenShares` | scripts/gate1-redis-topology-http.js:295-301 | alternating ordinals give both targets the same share |
| `Topology.Runner.Check` | scripts/gate1-redis-topology-http.js:238-246 | a latched failure comes first; a check that passes is within both deadlines |
| `Topology.Runner.LoadPhase` | scripts/gate1-redis-topology-http.js:294-317 | under every interleaving of the workers, and with a timer or a listener latching any failure between any two steps: the ordinals are dispatched in order, each at most once and to its own target, each dispatched one is done with once, nothing is sent after a latched failure, and only such a failure leaves any ordinal undispatched |
| `Topology.Runner.Rejections` | scripts/gate1-redis-topology-http.js:318-322 | the two visits behind the load, inside the boundary deadline, with the state they leave the offline fixture in |
| `Topology.RunTopology` | scripts/gate1-redis-topology-http.js:193-390 | every run, stopped or not, is accounted for: the counts are those of the requests sent and of valid answers that the environment gave to them, the phases come in their order, each ordinal is dispatched at most once and in order, and after the one latched failure nothing is sent; completed exactly when nothing failed, and then each target had 205 requests, each answered once and as its phase wants, and the answers of the run in order are 2 build pages, 2 accepted, 400 accepted under load, 2 rejected, 2 accepted, 2 build pages; never more than 410 attempts; against the offline fixture every interleaving completes, and so ends with these answers |
| `Topology.AnswersInBlocks` | scripts/gate1-redis-topology-http.js:248-333 | valid answers of phases that come in their order form one block for each phase |
| `Topology.GoodIsScript` | scripts/gate1-redis-topology-http.js:303-347 | genuine answers in staged phases, 205 valid ones for each target and no others, are the script of a completed run |

## Left out

- HTTPS exchanges, Docker, git, child processes, stdin, files kept as evidence and the command lines: each call is a parameter that may fail or answer anything.
- Timers, abort signals and the `checkTime` deadline of the scanner: a clock reading, a step that stops, or a failure latched while something is awaited stands for them.
- The byte and path counters of the scanner (`charge`, `mappedPathBytes`) and the credential patterns: per-input sums and matching without state.
- Zod profile schemas, attestation lists, approval hashes, random ids and the literal report fields that never change.
- Windows path separators: paths are POSIX paths, as lists of components where the code splits them.
- The text level of JSON: the checkers are proved on the tokens of any document, not on the regular expression that cuts them.
- UTF-8 decoding, the size of an encoded report and reads that return fewer bytes than asked for.
- `FilePathMaps.Overlay.Prepare`: a refusal with the entry limit is proved to mean that the requests do not fit, not which of them was one too many.
- `LogReceipt.RunReceipt`: the events returned by the one lookup and the response formats are not part of the model.
- `inspectJson` of `scripts/gate1-build-artifact-privacy.js`, which walks a parsed document on a stack under the bounds that `StrictJson.dfy` proves for the token loops, and the cookie jar of `scripts/gate1-shared-ip-load.js`: easier members of kinds proved elsewhere.
- `LinkMetadata.Inspect`: link texts beyond their lengths, paths outside the output and access times are not part of the model; anchors are given by the parent's descriptor and the logical path, not by a path under the process directory.
- `OneAttempt.CompletedMeans`: the inspect, kill, inspect, remove and list calls of teardown are one step that ends clean, unclean or unconfirmed.
- `OwnedAccounts.Lifecycle`: session contents, cookies and the marker file's name are not part of the model.
- `Topology.RunTopology`: durations, headers and build markers are validated by one predicate on each answer.
- The read-only configuration checks, the follow-up and the explicit discard of `scripts/gate1-log-receipt.js`: straight sequences of calls proved here inside the trial.
- The reading of the one diagnostic file with its ancestor checks: the same descriptor discipline is proved for the tree walker.
- Runners that repeat these protocols (`scripts/gate1-restart-continuity.js`, the reproduction, source-map and absent-target families, the execution of `scripts/gate1-build-qualification.js`): easier copies of the same properties.
