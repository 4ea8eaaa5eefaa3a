# A verified model of the sigillum-dnssec signer

This project models the signer half of sigillum-dnssec: the key rollover engine and the cache accounting it
rests on, the crash-safe key files, the three-way merge of the state file, the denial chains with their
independent verifier, and the smaller protocols around them (hook dispatch, the registrar's rate limiter and
DS replacement, the TOML editor, SOA serials). Code that steps fields in place is a class with methods proved
against pure transition functions; the theorems are about those functions and about all runs of them.

`dafny verify dfyconfig.toml` verifies the whole project.

| file | content |
|---|---|
| `Common.dfy` | what several parts share |
| `Rollover.dfy`, `RolloverManager.dfy` | the zone record, the rollover transitions, the manager that performs them |
| `RolloverRuns.dfy`, `RolloverSafety.dfy`, `RolloverConsequences.dfy` | resolver caches, runs, safety over every run, horizons and progress |
| `RolloverLimits.dfy`, `RolloverRecords.dfy`, `RolloverWitnesses.dfy` | exact conditions for the moves the environment's rules speak of, first by what resolvers hold, then by the record and the parent alone, and runs that break them |
| `SigningKeys.dfy` | the key set of each phase, signing, coverage |
| `KeyTransactions.dfy` | key files under crashes |
| `StateMerge.dfy` | merge, reload, save, and what survives any run of them |
| `CanonicalNames.dfy`, `ZoneModel.dfy`, `DenialChain.dfy` | name identity and order, occlusion, NSEC and NSEC3 |
| `HookDispatch.dfy`, `HookResults.dfy` | the dispatcher, and which completions may confirm a publication |
| `RateLimiter.dfy`, `Registrar.dfy`, `Serials.dfy`, `TomlEdit.dfy` | the smaller protocols |

## The main results

- **Rollover safety** (`RunsAreSafe`). In every state of every run, every DS set, DNSKEY RRset and signed data that
  any resolver may still hold, in any combination, form a chain of trust for every algorithm the DS set names
  (sections 4.1.2 and 4.1.4 of RFC 6781). Runs interleave signing, deployment, confirmation, cache fills, DS changes
  at the parent, starts, completions and checks of all three kinds of rollover, with failing saves, any registrar
  replies, and a configuration that may change between any two steps. `HorizonsOverRuns` gives the cache-horizon bound
  and `ResigningCannotPostpone` the progress half.
- **Crash safety** (`StartRollover`, `StartAlgorithmRollover`, `RestartAfterCrash`). Cut a rollover start after any file
  operation: restart yields exactly the recorded generation, and no pair that ever verified is lost.
- **No lost update** (`UnsavedWorkSurvives`, `ForeignWorkIsAdopted`, `RevisionRises`) over any run of reloads, failing and
  committed saves, and other writers.
- **Denial chains** (`AcceptedChainDenies`, `GeneratedChainAccepted`, `Nsec3AcceptedIffNoCollision`).
- **Where safety stops** (`RolloverLimits`, `RolloverRecords`, `RolloverWitnesses`): runs that leave the rules, each
  beside an if-and-only-if.
- **Phase keys** (`PhaseKeysCoverZone`, `LoadedKeysAreThePhaseKeys`), **single flight** (`HookDispatcher`), **the rolling
  quota** (`NoWindowExceedsQuota`, `ReserveIsFree`), **TOML edits** (`RemoveAfterAdd`, `RemovalKeepsPositions`).

## What the environment is assumed to do

Clocks, randomness, probes, registrar replies and save outcomes are parameters, free in every theorem except for
these rules, all written in `RolloverRuns.Enabled` and `Init`:

- The clock never goes back, caches respect TTLs, and the parent's DS TTL does not change.
- A confirmed generation is what every server answers with from the recorded instant on; a generation that some server answers
  with before its confirmation is confirmed before the next signing.
- The parent's DS set changes only as the gates and the advice to the operator allow (`DSAllowed`); in particular, while an
  algorithm changes it names the old KSK or is the new DS alone. It never passes through the empty set that a
  registrar-side replacement may show for a moment.
- A check works from a reading of the clock at its start, and its registrar update from a second one; what it does comes no
  earlier. No signing falls between the reading of a ZSK check and its end: the process lock is held.
- A KSK completion finds the new DS at the parent and records a wait that outlives every DS set fetched before the new DS
  appeared (`WaitCovers`). An algorithm completion needs nothing.
- When an algorithm check takes the old DS for gone, it is gone, and the wait counted from the check's reading outlives every DS
  set fetched before the parent's came down to the new DS alone (`RemovalCovers`).
- A KSK check without a DS publisher does not end a rollover whose new KSK has not propagated (`EndsUnpropagated`).
- A new key has the algorithm of its rollover and is not the live key. A zone comes under management unsigned, with
  KSK and ZSK of one algorithm and only DS records of it at the parent, its KSK's among them.

## What the model shows about the code

Where a promise fails, a run or an input shows it. Beside it stands an if-and-only-if over all states, in terms of the record,
the servers and the parent alone: what is safe whatever resolvers hold (`RolloverRecords`).

- `CheckAlgorithmRollover` (signer/internal/signer/rollover.go:962-1024) reads the clock, has the registrar remove the old DS,
  probes, and dates the removal by the reading. A resolver that fetched both DS in between outlasts the wait:
  `OwnUpdateStrandsResolver`. Retiring is safe exactly one DS TTL after the parent's set came down to the new DS, or when a recorded
  wait known to cover that is over (`AlgorithmWaitIsExact`).
- `runRolloverComplete` (signer/main.go:1477) likewise reads the clock before it probes the parent:
  `EarlyObservationStrandsResolver`. Retiring the old KSK is safe exactly one DS TTL after the new DS appeared, or when a recorded
  wait known to cover that is over (`KSKWaitIsExact`).
- Without a publisher, `pushOldDSRemoval` reports the removal as settled, so a KSK rollover may end before its horizon:
  `MissingPublisherBreaksChain`. Ending is safe exactly when a recorded DNSKEY horizon is past (`KSKEndIsExact`).
- `BuildDSSet` names the new algorithm's DS throughout an algorithm rollover, without the propagation test the manager's own
  push applies: `EarlyPushBreaksChain`. Once the new keys are served, pushing the set is safe exactly when the recorded horizons of
  both DNSKEY RRsets and signatures are past (`PhaseSetIsExact`). At any time before the old algorithm retires, naming both keys is
  safe exactly when everything in reach carries the new algorithm (`BothDSCondition`). `PhaseSetIsAllowed` is about the rule on DS
  sets, whose clause is the propagation test itself.
- A DS left over from an earlier rollover breaks an algorithm rollover: the advice and the probe speak of the old KSK's DS
  only. `LeftoverDSBreaksChain` is the run; `AlgorithmDSCondition` says which DS sets are safe.
- The horizons forget a generation that was served but superseded before it was confirmed
  (`UnconfirmedServiceEscapesHorizons`). They still bound it exactly when its TTLs reach no further than the recorded horizon and
  the TTLs confirmed before it (`SupersededKeysCondition`, `SupersededDataCondition`).
- In probe mode the clock is read before the servers are probed (signer/daemon.go:1240). A confirmation dated before the last
  server switched sets a horizon that a late fetch outlives: `EarlyConfirmationEscapesHorizons`, with the exact bound in
  `ConfirmationKeysCondition` and `ConfirmationDataCondition`.
- During an algorithm rollover no check compares the key algorithms: `MixedAlgorithmsLoad` is an accepted record and key store whose
  signed zone fails its own coverage check, and `AlgorithmPhasesComplete` gives the exact condition.
- A second reload of the same disk is not always without effect: `ReloadIsIdempotent` gives the one exception, a stale removal
  marker on a zone the disk has lost.
- A start whose save fails sets `ForceResign` to false instead of restoring it (the failure clause of
  `RolloverManager.StartKSKRollover`).
- The limiter's `limit > 0` test would leave ordinary callers unlimited were the reserve as large as the quota; the model
  takes the reserve below the quota, as the constants are (10 and 60).

## Model

| member | source | states |
|---|---|---|
| `RolloverSafety.RunsAreSafe` | signer/internal/signer/rollover.go:116-1057 | in every state of every run, reconfigurations included, all DS sets, DNSKEY RRsets and data in reach chain up, for each algorithm of the DS set |
| `RolloverSafety.StepKeepsInv` | signer/internal/signer/rollover.go:116-1057 | every enabled step of the manager, the signer, the parent or a resolver keeps the phase invariant |
| `RolloverSafety.CheckKSKKeepsInv` | signer/internal/signer/rollover.go:341-392 | a KSK check, with any reply and any failing save, retires the old KSK only when every DS set in reach names the new one |
| `RolloverSafety.CheckZSKKeepsInv` | signer/internal/signer/rollover.go:554-674 | a ZSK check switches and retires only when nothing in reach still depends on the key that leaves |
| `RolloverSafety.CheckAlgorithmKeepsInv` | signer/internal/signer/rollover.go:956-1057 | an algorithm check, working from its own earlier clock readings, keeps both algorithms complete until no DS set in reach needs the old one |
| `RolloverSafety.CompleteKeepsInv` | signer/internal/signer/rollover.go:212-255 | recording the observed DS keeps the invariant when the wait covers earlier fetches, also when the stamp's save fails; an algorithm completion always does |
| `RolloverSafety.SignKeepsInv` | signer/internal/signer/sign.go:392-441 | a signing with the phase's keys brings nothing unsafe into reach |
| `RolloverRuns.PropagatedMeansHeld` | signer/internal/signer/rollover.go:319-331 | past the horizon, every DNSKEY RRset and signature any resolver holds carries the new keys |
| `RolloverRuns.InvIsSafe` | signer/internal/signer/rollover.go:212-392 | the invariant excludes every broken combination of caches |
| `RolloverConsequences.HorizonsOverRuns` | signer/internal/state/state.go:239-263 | over runs with reconfigurations the horizons never fall, and bound the expiry of every cache of a superseded confirmed generation, TTL decreases included |
| `RolloverConsequences.DueCheckLeavesPhase` | signer/internal/signer/rollover.go:554-674 | a check of a stamped ZSK phase that is due leaves the phase |
| `RolloverConsequences.ResigningCannotPostpone` | signer/internal/signer/rollover.go:554-674 | a stamped ZSK phase keeps its horizon through any re-signing or reconfiguration, and a check that reads the clock past it leaves the phase |
| `RolloverLimits.PhaseSetIsAllowed` | signer/internal/registrar/registrar.go:80-144 | the phase DS set meets the rule on DS sets exactly outside an algorithm rollover with unpropagated keys |
| `RolloverLimits.PhaseSetIsSafe` | signer/internal/registrar/registrar.go:80-144 | pushing the phase set anywhere else keeps every chain intact |
| `RolloverWitnesses.EarlyPushBreaksChain` | signer/internal/registrar/registrar.go:80-144 | a run in which pushing the phase set breaks a resolver's chain |
| `RolloverWitnesses.UnconfirmedServiceEscapesHorizons` | signer/internal/state/state.go:239-263 | a run in which a served, unconfirmed, superseded generation outlives the horizons |
| `RolloverLimits.AlgorithmDSCondition` | signer/internal/signer/rollover.go:868-902 | with the new algorithm propagated, a DS set is safe exactly when it is the new DS alone or still names the old KSK |
| `RolloverWitnesses.LeftoverDSBreaksChain` | signer/internal/signer/rollover.go:956-1057 | a run in which removing the old KSK's DS, as advised, leaves another DS of the old algorithm and a broken chain |
| `RolloverLimits.BothDSCondition` | signer/internal/registrar/registrar.go:80-144 | before the old algorithm retires, naming both KSKs is safe exactly when all keys and data in reach carry the new algorithm |
| `RolloverRecords.PhaseSetIsExact` | signer/internal/registrar/registrar.go:80-144 | with the new keys served, pushing the phase set is safe whatever resolvers hold exactly when both recorded horizons are past |
| `RolloverLimits.KSKRetirementCondition` | signer/internal/signer/rollover.go:352-367 | retiring the old KSK is safe exactly when every DS set in reach names the new one |
| `RolloverLimits.WaitIsLongEnough` | signer/internal/signer/rollover.go:352-367 | after a wait that covers the DS sets fetched before the new DS appeared, every DS set in reach names it |
| `RolloverRecords.KSKWaitIsExact` | signer/internal/signer/rollover.go:352-367 | retiring the old KSK is safe whatever resolvers hold exactly one DS TTL after the new DS appeared, or at the end of a covering recorded wait |
| `RolloverWitnesses.EarlyObservationStrandsResolver` | signer/main.go:1477-1500 | a run in which an observation instant read before the probe, after the last signing, ends in a retirement that strands a resolver |
| `RolloverRecords.AlgorithmWaitIsExact` | signer/internal/signer/rollover.go:1032-1042 | retiring the old algorithm is safe whatever resolvers hold exactly one DS TTL after the parent's set came down to the new DS, or at the end of a covering recorded wait |
| `RolloverWitnesses.OwnUpdateStrandsResolver` | signer/internal/signer/rollover.go:962-1030 | a run in which one check updates the registrar, sees the old DS gone, dates that by its earlier reading, and strands a resolver |
| `RolloverLimits.AlgorithmRetirementCondition` | signer/internal/signer/rollover.go:1032-1042 | retiring the old algorithm is safe exactly when every DS set in reach is the new DS alone |
| `RolloverLimits.KSKEndCondition` | signer/internal/signer/rollover.go:368-389 | after the end, every DS set allowed is safe exactly when every DNSKEY RRset in reach carries the new KSK |
| `RolloverRecords.KSKEndIsExact` | signer/internal/signer/rollover.go:368-389 | ending a KSK rollover is safe whatever resolvers hold exactly when a recorded DNSKEY horizon is past |
| `RolloverWitnesses.MissingPublisherBreaksChain` | signer/internal/signer/rollover.go:868-902 | a run without a publisher that ends before its horizon and lets an allowed DS set break a chain |
| `RolloverLimits.SupersededKeysCondition` | signer/internal/state/state.go:239-263 | the horizon bounds every fetch of a superseded unconfirmed DNSKEY RRset exactly when its TTL reaches no further |
| `RolloverLimits.SupersededDataCondition` | signer/internal/state/state.go:239-263 | the same for its signatures |
| `RolloverLimits.ConfirmationKeysCondition` | signer/daemon.go:1238-1260 | a confirmation's horizon bounds every fetch of the DNSKEY RRset served till then exactly when it reaches as far as the last one |
| `RolloverLimits.ConfirmationDataCondition` | signer/daemon.go:1238-1260 | the same for its signatures |
| `RolloverWitnesses.EarlyConfirmationEscapesHorizons` | signer/daemon.go:1238-1260 | a run and a reading of the clock before the last server switched, whose horizon a cache outlives |
| `RolloverManagement.RolloverManager.StartKSKRollover` | signer/internal/signer/rollover.go:116-187 | the new record on success, nothing on refusal, and the restored record (force-resign cleared) when the save fails |
| `RolloverManagement.RolloverManager.StartAlgorithmRollover` | signer/internal/signer/rollover.go:714-808 | both keys and the rollover change in one record, or nothing does |
| `RolloverManagement.RolloverManager.StampPropagation` | signer/internal/signer/rollover.go:294-315 | the horizon is stamped once, from the served generation's floors and the recorded horizons |
| `RolloverManagement.RolloverManager.PushRemoval` | signer/internal/signer/rollover.go:868-902 | the registrar is asked only after propagation, and success is recorded once |
| `RolloverManagement.RolloverManager.Complete` | signer/internal/signer/rollover.go:212-255 | the propagation phase starts with the observed instant and TTL, or the configured TTL for a zero |
| `RolloverManagement.RolloverManager.CheckKSKRollover` | signer/internal/signer/rollover.go:341-392 | one periodic check is the KSK transition the safety theorem is about |
| `RolloverManagement.RolloverManager.CheckAlgorithmRollover` | signer/internal/signer/rollover.go:956-1057 | one periodic check is the algorithm transition, with every reply, probe and save outcome |
| `RolloverManagement.RolloverManager.CheckZSKRollover` | signer/internal/signer/rollover.go:395-505 | starts a ZSK rollover when due, otherwise advances the running one |
| `RolloverManagement.RolloverManager.AdvanceZSK` | signer/internal/signer/rollover.go:554-674 | one periodic check is the ZSK transition |
| `SigningKeySets.LoadKeysForSigning` | signer/internal/signer/sign.go:636-801 | exactly the keys the record dictates, or a refusal when one is missing or the algorithms disagree |
| `SigningKeySets.LoadedKeysAreThePhaseKeys` | signer/internal/signer/sign.go:636-761 | for every record that loads, published and signing tags are those the phase prescribes |
| `SigningKeySets.OrdinaryPhasesAreComplete` | signer/internal/signer/sign.go:769-784 | outside an algorithm rollover a set that loads has both roles for every published algorithm |
| `SigningKeySets.AlgorithmPhasesComplete` | signer/internal/signer/sign.go:636-784 | during one, it does exactly when KSKs and ZSKs name the same algorithms |
| `SigningKeySets.MixedAlgorithmsLoad` | signer/internal/signer/sign.go:769-784 | an accepted record and key store in a retiring algorithm rollover that load, are incomplete and fail the coverage check |
| `SigningKeySets.SignRecords` | signer/internal/signer/sign.go:1307-1361 | signs exactly the signable RRsets, each with every key of its role |
| `SigningKeySets.VerifyCoverage` | signer/internal/signer/sign.go:1423-1502 | accepts exactly when every signature is by a published key over an RRset of the zone, every input RRset survives, and each signable one is covered for each published algorithm |
| `SigningKeySets.PhaseKeysCoverZone` | signer/internal/signer/sign.go:1476-1502 | signing with loaded keys passes the coverage check exactly when they are algorithm-complete and no input RRset was lost (section 5.11 of RFC 6840) |
| `KeyTransactions.KeyDirectory.StageKeyPair` | signer/internal/signer/keytx.go:213-275 | the pair ends under its tag, the live pair untouched, no verified pair disturbed at any step |
| `KeyTransactions.KeyDirectory.SetAside` | signer/internal/signer/keytx.go:125-157 | the content ends under a name that was free, earlier asides are kept, and no state on the way loses a pair |
| `KeyTransactions.KeyDirectory.EnsureVerifiedBackup` | signer/internal/signer/keytx.go:370-444 | a verifying live pair ends verified under its tag; unverifiable and conflicting pairs are reported as such |
| `KeyTransactions.KeyDirectory.ReserveUnique` | signer/internal/signer/keys.go:337-381 | a base neither of whose files existed, or a fault |
| `KeyTransactions.KeyDirectory.CopyLiveUnique` | signer/internal/signer/keytx.go:182-205 | whatever halves the live slot holds, verifying or not, are copied under a fresh base |
| `KeyTransactions.KeyDirectory.PreserveLivePair` | signer/internal/signer/keytx.go:329-361 | afterwards a verified live pair is also held elsewhere, and halves that do not verify have copies |
| `KeyTransactions.KeyDirectory.ActivateKeyPair` | signer/internal/signer/keytx.go:284-323 | the tagged pair becomes live; every intermediate state keeps all other pairs |
| `KeyTransactions.KeyDirectory.EnsureLiveKey` | signer/internal/signer/keytx.go:453-488 | yields the generation with the expected tag whenever the live or tagged slot holds it, makes it live, and describes every state on the way |
| `KeyTransactions.KeyDirectory.StartRollover` | signer/internal/signer/rollover.go:116-187 | every state a crash can leave is recoverable to the recorded generation with the old one loadable by tag |
| `KeyTransactions.KeyDirectory.StartAlgorithmRollover` | signer/internal/signer/rollover.go:714-808 | the same for both roles at once, since both tags are recorded in one save |
| `KeyTransactions.RestartAfterCrash` | signer/internal/signer/keytx.go:453-488 | recovery on any such state yields exactly the recorded generation; every state it leaves, cut or faulty, is again one to recover from, and no pair is lost |
| `KeyTransactions.LiveWriteLosesNothing` | signer/internal/signer/keytx.go:284-323 | overwriting one live half loses no pair that is held elsewhere |
| `StateMerge.MergeDiagnostics` | signer/internal/state/state.go:898-930 | the loops compute the merged list the next two rows are about |
| `StateMerge.WarningsAreSetMerged` | signer/internal/state/state.go:898-930 | an entry survives exactly when both sides keep it or one side added it |
| `StateMerge.ErrorsOnePerOperation` | signer/internal/state/state.go:898-939 | merged errors hold at most one entry per operation |
| `StateMerge.OneSidedChangesSurvive` | signer/internal/state/state.go:713-786 | a field class, a diagnostics list or the force-resign flag (outside a key conflict) that only one side changed keeps that side's value |
| `StateMerge.WarningMerged` | signer/internal/state/state.go:713-786 | a warning follows the three-way set rule whichever way the zone is merged |
| `StateMerge.MemoryErrorsSurvive` | signer/internal/state/state.go:898-939 | errors of an operation only memory changed are memory's |
| `StateMerge.DiskErrorsSurvive` | signer/internal/state/state.go:898-939 | errors of an operation only the disk changed are the disk's, when it holds one per operation |
| `StateMerge.DiskConfirmationAdopted` | signer/internal/state/state.go:713-868 | a confirmation only the disk saw is adopted even where memory's pending flag was recomputed |
| `StateMerge.MergeKeepsInvariants` | signer/internal/state/state.go:713-868 | the merge of valid sides is valid, lowers no horizon and hides no pending signing |
| `StateMerge.KeyConflictForcesResign` | signer/internal/state/state.go:713-786 | when both sides moved the keys the disk's stand and the zone is signed again |
| `StateMerge.ReloadIsIdempotent` | signer/internal/state/state.go:631-709 | a second reload changes nothing, exactly outside the stale-marker case |
| `StateMerge.State.ReloadFromDisk` | signer/internal/state/state.go:631-709 | every domain's zone, marker and image follow the per-domain reload |
| `StateMerge.State.Save` | signer/internal/state/state.go:955-992 | changed zones get a revision past memory and image; a failed save leaves the image |
| `StateRuns.RevisionRises` | signer/internal/state/state.go:955-992 | over any run, the revision on disk strictly rises whenever the zone on disk changed |
| `StateRuns.UnsavedWorkSurvives` | signer/internal/state/state.go:631-786 | a field class, a warning, an operation's errors or the force-resign flag only memory changed survives failed saves, reloads and foreign commits, and the next committed save writes it |
| `StateRuns.OneErrorPerOperation` | signer/internal/state/state.go:898-939 | memory, image and disk never hold two errors of one operation |
| `StateRuns.ForeignWorkIsAdopted` | signer/internal/state/state.go:631-786 | the same parts, changed only by others, equal the disk's after every reload; for publications those changes are confirmations, which never go back |
| `CanonicalNames.CanonicalLabelBytes` | signer/internal/signer/sign.go:1909-1932 | the scanner yields the lowercased wire octets |
| `CanonicalNames.CanonicalLabelRoundTrip` | signer/internal/signer/zonemodel.go:56-77 | decoding a canonical label gives back its wire octets |
| `CanonicalNames.CanonicalLabelIdentity` | signer/internal/signer/zonemodel.go:56-77 | canonical labels are equal exactly when the wire octets are |
| `CanonicalNames.CanonicalNameIdentity` | signer/internal/signer/zonemodel.go:33-94 | canonical names are equal exactly when their wire labels are |
| `CanonicalNames.CanonicalLess` | signer/internal/signer/sign.go:1937-1963 | the loop decides canonical order (section 6.1 of RFC 4034) |
| `CanonicalNames.LessTrichotomy` | signer/internal/signer/sign.go:1937-1963 | exactly one of less, equal, greater |
| `CanonicalNames.LessTransitive` | signer/internal/signer/sign.go:1937-1963 | the order is transitive |
| `CanonicalNames.SubtreeFirst` | signer/internal/signer/sign.go:1937-1963 | a name precedes everything below it |
| `CanonicalNames.SubtreeContiguous` | signer/internal/signer/sign.go:1937-1963 | what lies between two names of a subtree is in it |
| `ZoneData.ZoneModel.Add` | signer/internal/signer/zonemodel.go:146-164 | the indexes are those of the longer record list; no occlusion is answered before all records are in |
| `ZoneData.ZoneModel.IsOccluded` | signer/internal/signer/zonemodel.go:185-203 | the memoized answer is the definition's |
| `ZoneData.ZoneModel.IsSignable` | signer/internal/signer/zonemodel.go:223-231 | visible, and at a delegation only DS and NSEC |
| `ZoneData.AncestorsAreVisible` | signer/internal/signer/zonemodel.go:185-203 | ancestors of a name that is not occluded are not occluded |
| `ZoneData.NonTerminalsAgree` | signer/internal/signer/zonemodel.go:248-265 | the generator's and the verifier's empty non-terminals are the same set |
| `NsecChains.GenerateNSECChain` | signer/internal/signer/sign.go:1808-1880 | one record per authoritative owner, in canonical order, closed into a cycle |
| `NsecChains.VerifyNSEC` | signer/internal/signer/sign.go:1521-1556 | accepts exactly the chains the input dictates |
| `NsecChains.AcceptedIsExact` | signer/internal/signer/sign.go:1521-1556 | an accepted chain holds the expected records and no others |
| `NsecChains.AcceptedChainDenies` | signer/internal/signer/sign.go:1521-1556 | every in-zone name is a chain owner covered by no record, or is covered by exactly one |
| `NsecChains.GeneratedChainAccepted` | signer/internal/signer/sign.go:1808-1880 | the generated chain of every stripped zone is accepted, each side having sorted for itself |
| `Nsec3Chains.GenerateNSEC3Chain` | signer/internal/signer/sign.go:1978-2084 | one record per owner and empty non-terminal, in hash order, closed |
| `Nsec3Chains.AddEmptyNonTerminals` | signer/internal/signer/sign.go:1883-1902 | adds exactly the names between the owners and the apex |
| `Nsec3Chains.VerifyNSEC3` | signer/internal/signer/sign.go:1593-1640 | accepts exactly the chains the input and the hash dictate |
| `Nsec3Chains.HashOrderUnique` | signer/internal/signer/sign.go:2015-2018 | under an injective hash there is one hash order |
| `Nsec3Chains.Nsec3AcceptedIffNoCollision` | signer/internal/signer/sign.go:1564-1640 | the generated NSEC3 chain is accepted exactly when the hash separates the zone's names |
| `Nsec3Chains.GenerateNSEC3Denial` | signer/internal/signer/sign.go:1969-2084 | one NSEC3PARAM at the apex and the configured parameters on every record of the chain |
| `Nsec3Chains.VerifyNSEC3Denial` | signer/internal/signer/sign.go:1564-1640 | accepts exactly one matching NSEC3PARAM at the apex, matching records, and the chain |
| `Nsec3Chains.DenialAcceptedIffNoCollision` | signer/internal/signer/sign.go:1564-1640 | the whole generated denial is accepted exactly when the hash separates the names, for all parameters |
| `HookDispatch.HookDispatcher.Dispatch` | signer/hook_dispatch.go:111-160 | what is queued, superseded and started; queued and running stay a disjoint partition of the active generations |
| `HookDispatch.HookDispatcher.DropQueuedOlder` | signer/hook_dispatch.go:164-182 | older queued generations of the zone leave the queue and the active set, nothing else does |
| `HookDispatch.HookDispatcher.PurgeQueued` | signer/hook_dispatch.go:187-196 | afterwards active is exactly what is running |
| `HookDispatch.HookDispatcher.TakeJob` | signer/hook_dispatch.go:216-230 | a worker takes the head or leaves; a non-empty queue keeps a worker |
| `HookDispatch.HookDispatcher.Settle` | signer/hook_dispatch.go:250-277 | a finished invocation frees exactly its generations and backs each failure off once |
| `HookDispatch.HookDispatcher.SingleFlight` | signer/hook_dispatch.go:111-277 | a generation is queued or running at most once, exactly when active |
| `HookDispatch.OfferedCycle` | signer/hook_dispatch.go:111-139 | a cycle accepts exactly what is neither active nor held back, and leaves no older generation of it queued |
| `HookDispatch.RetryDelay` | signer/hook_dispatch.go:264-273 | the doubling loop computes min(base * 2^(k-1), max) |
| `HookDispatch.KthFailure` | signer/hook_dispatch.go:261-275 | over any sequence of settlements the k-th failure in a row backs off by that delay, with the base then in force, and a success clears the record |
| `HookResults.Daemon.RecordHookResult` | signer/daemon.go:1153-1220 | under a superseded generation nothing changes; otherwise every zone shows the simultaneous effect |
| `HookResults.Daemon.Reload` | signer/daemon.go:384-397 | configuration, state and generation change in one step |
| `HookResults.Daemon.Sign` | signer/internal/signer/sign.go:392-441 | a signing leaves the zone pending, or confirmed in immediate mode |
| `HookResults.OnlyCurrentSigningConfirmed` | signer/daemon.go:1153-1220 | a hook changes a publication exactly when it deployed the zone's current pending signing, which it confirms; horizons never fall |
| `RateLimiting.WindowLimiter.TryAdmit` | signer/internal/registrar/registrar_ratelimit.go:116-148 | admits exactly when neither quota nor spacing holds the caller back; otherwise the wait suffices |
| `RateLimiting.WindowLimiter.Prune` | signer/internal/registrar/registrar_ratelimit.go:102-111 | keeps exactly the admissions still in the window |
| `RateLimiting.WindowLimiter.Gate` | signer/internal/registrar/registrar_ratelimit.go:116-148 | an uncontended caller waits at most once and is admitted, unless cancelled first, which takes no slot |
| `RateLimiting.NoWindowExceedsQuota` | signer/internal/registrar/registrar_ratelimit.go:9-23 | no half-open window, wherever it ends, holds more than the quota |
| `RateLimiting.ReserveIsFree` | signer/internal/registrar/registrar_ratelimit.go:9-23 | a recovery caller with fewer than `reserve` recovery admissions in the window is never quota-blocked |
| `DSReplacement.CompareDSSets` | signer/internal/registrar/registrar.go:155-177 | the two set differences |
| `DSReplacement.Registrar.AddDS` | signer/internal/registrar/registrar_dynadot.go:564-581 | success is the upsert of every record; no outcome empties a non-empty set |
| `DSReplacement.Registrar.ReplaceDS` | signer/internal/registrar/registrar_dynadot.go:606-679 | success means exactly the requested set; no error but the empty one leaves a non-empty set empty |
| `Serials.SerialGtIsOrder` | signer/internal/signer/sign.go:517-519 | serial comparison is integer order within half the space (section 3.2 of RFC 1982) |
| `Serials.PublishedAdvances` | signer/internal/signer/sign.go:538-558 | a successful epoch signing advances the serial, wraparound included |
| `Serials.PublishedIsMaximum` | signer/internal/signer/sign.go:538-558 | within one half-window the serial is max(now, source+1, previous+1), or max(now, source+1) with no previous serial |
| `Serials.SerialsAdvanceOverRuns` | signer/internal/signer/sign.go:538-558 | every published serial of a sequence exceeds the non-zero one before it |
| `TomlSyntax.TomlBasicString` | signer/internal/config/config_edit.go:185-217 | the printed string, whose reading back the next rows prove |
| `TomlSyntax.EscapeDecodes` | signer/internal/config/config_edit.go:433-481 | every escape the writer emits decodes to its character |
| `TomlSyntax.ParseKeySegment` | signer/internal/config/config_edit.go:383-425 | the segment grammar on the rest of the line |
| `TomlSyntax.ParseTableHeader` | signer/internal/config/config_edit.go:330-371 | the header grammar, path and array flag |
| `TomlSyntax.ScanTOMLLine` | signer/internal/config/config_edit.go:246-304 | the multi-line string state after a line |
| `TomlEdit.HeaderParsesBack` | signer/internal/config/config_edit.go:313-316 | for every name the printed header parses to exactly zones.name, a standard table |
| `TomlEdit.PrintedLinesScan` | signer/internal/config/config_edit.go:246-304 | neither printed line leaves the scanner inside a string |
| `TomlEdit.TomlHeaderPositions` | signer/internal/config/config_edit.go:230-238 | for each line, whether it begins outside any multi-line string |
| `TomlEdit.AddZone` | signer/internal/config/config_edit.go:41-58 | the candidate text of an addition |
| `TomlEdit.RemoveZone` | signer/internal/config/config_edit.go:81-115 | the candidate text of a removal, or the missing table |
| `TomlEdit.RemoveAfterAdd` | signer/internal/config/config_edit.go:35-127 | removing a just-added table returns the original less its last newline, when it ends outside a string and has no such table |
| `TomlEdit.RemovalKeepsPositions` | signer/internal/config/config_edit.go:76-127 | no kept line moves into or out of a multi-line string |
| `TomlEdit.CutIsOneTable` | signer/internal/config/config_edit.go:84-110 | what is cut is the zone's one table and at most one blank line before it |

## Left out

- RolloverSafety.RunsAreSafe: a failed save leaves the stepped record in memory and the run goes on from it; a restart that falls back to the older saved record is not a step.
- Cryptography, DS digests, NSEC3 hashing and key file syntax: a pair verifies or not, and the hash is any function.
- Zone file parsing and most of the record validation; the denial theorems take zones that are in bailiwick and stripped.
- Record TTLs and the number of records in an RRset; that changing the letter case of a hexadecimal salt does not change the hash.
- The library sorts: the model sorts by insertion. Dispatch does not sort accepted zones by domain before it queues them.
- DSReplacement.Registrar.ReplaceDS: the transient empty set between clear and restore is in the model, but the rollover runs assume the parent never publishes it.
- KeyTransactions.KeyDirectory.SetAside: searches names without the source's bound of 10000; running out is one of the abstract faults.
- StateRuns.UnsavedWorkSurvives: the force-resign flag is followed up to a key conflict, which sets it.
- HookResults.Daemon.RecordHookResult: starts from the record after the reload from disk, and leaves out the save that follows.
- RolloverManagement.RolloverManager.CheckKSKRollover: does not model action and warning text, nor blocked-phase notes.
- HookDispatch.HookDispatcher.Settle: one settlement per job, since a job is one invocation; a hook that panics is a failed one.
- RateLimiting.WindowLimiter.Gate: one caller at a time; contention is covered by `TryAdmit`, which keeps the quota for any interleaving.
- TomlEdit.RemoveZone: stops at the candidate text; the comparison of decoded documents before the file is replaced is not part of the model.
- Generation of key tags that avoid existing ones, imports, roll-back of imports, and key recovery from files at start-up.
- File ownership, durability classes and the cross-process lock: changes are atomic, saves may fail, and locked sections do not overlap.
- HTTP servers, dashboards, heartbeat, metrics, hook processes, the registrar's request layer and the validator module.
