# Project Sentinel: verified models of its build and acceptance tooling

This project models five programs of the repository and one small sweep, and proves what they keep over whole runs. It is
written in Dafny 4.11; `dafny verify dfyconfig.toml` checks all of it. `common.dfy` holds what the modules share.

- **The CI-lab controller** (`lab_*.dfy`, `lab.dfy`). Class `Lab` is the controller with its state file, its in-memory copy and
  the host. Every host call, clock read and save is one step at which the host may have moved by itself (late starts land,
  guests shut down, balloons shrink, snapshot effects finish, memory becomes resident) and at which the process may die. A
  command that dies leaves the last saved file. The invariants are predicates over the saved records and the host.
- **The resumable journey runner** (`journey_*.dfy`, `json_pointer.dfy`). Class `Runner` has the ledger file and the evidence
  file; answers and kills come from a script. Digests, operation ids and query encoding are function parameters.
- **The dependency audit** (`audit_*.dfy`): the stack parser, the compact printer and loader, the worklists, the classes.
- **The test archive** (`archive_*.dfy`): planner, plan check, receipts and summary, filter expressions and batches.
- **The candidate receipt** (`candidate_*.dfy`): the consumer's independent accounting, agreement with the producer, conservation.
- **The interval sweep** (`intervals.dfy`) of the parallel report.

Findings that hold only under a condition are stated with that condition, both ways where possible:

- Retention of memory. On a calm host balloons only shrink, memory only becomes resident, availability falls by no more, in
  whole MiB, than the owed total does, and a guest may go down once its run is recorded as running. Over such a host every
  command but a resize keeps the *owed* headroom. The guard's own count also charges guests that are down although recorded
  as running, so a guest that shuts itself down can lose it (`ShutdownLosesRetention`); `RetainedIffLostAreCovered` and
  `DownCost` say exactly when.
- A balloon that shrinks between the status read and the save of `resize` lets too much growth through
  (`ShrinkingBalloonOutrunsResize`). `ResizeKeepsIff` gives the exact condition on the host before the call, and `Resize`
  and `OperateCalmly` hold under it.
- `guard` can report missing headroom that is there: when memory becomes resident while it samples
  (`GuardCountsLateResidencyTwice`), when a balloon shrinks between its two reads of a slot (`GuardCountsShrinkingBalloon`),
  and when a guest goes down before it is read (`GuardCountsFallenGuest`). `GuardIsQuietIff` gives the exact condition on
  the host before the call, and `Guard` holds under it.
- A step id that matches the sensitive-key pattern passes the plan check but its ledger can never be loaded again
  (`ReloadNeedsPublicIds`).
- Step ids and capture names may hold dots, so two steps can capture one `step.capture` name. A resume reads the ledger
  sorted by step id, not in plan order. `LookupsAreStableIff` says for which plans every replay still finds what the step
  found at first, `SameRequestIff` that a request changes exactly with what it looks up, and `CollidingRun` is a run
  after which no run of the same plan ever succeeds again, whatever its later steps are.
- Producer and consumer of the applicability decisions compare the identity differently: by value, and by canonical text
  (`Agreement`, `OnlyTheProducerAccepts`).

Comparisons of two sorted lists of plain values are written as equality of multisets. Python exceptions are error results.

## Model

| member | source | states |
|---|---|---|
| `LabControl.Lab.Operate` | deploy/ci-lab/control.py:405-874 | for any sequence of commands, each possibly killed at any host call or save, on any host: at every recorded instant each VM has at most one start in flight and any boot carries the generation and holder of its current lease record, preserved snapshots are never deleting, deleted or queued for deletion, and a record is ready only after an external snapshot was listed under its name with its own owner; all lease records of one generation share holder and effective purpose; once a slot and holder are invalidated no later command succeeds for them, and no later instant shows a start of theirs that was not there already, killed commands included |
| `LabControl.Lab.OperateCalmly` | deploy/ci-lab/control.py:405-874 | over any sequence of all commands on a calm host, killed anywhere, with what each command met: after a last command that was no resize, or one that the host it met fitted or whose balloon was left alone, and that was admitted or found the headroom kept, available memory minus what the slots owe minus margin is at or above reserve + 256 MiB and active is within the limit; and that is the retention the guard asks for as long as no guest is down although its run is recorded as running |
| `LabRules.KeptOnceAdmitted` | deploy/ci-lab/control.py:405-874 | if every resize was of that kind, headroom is kept at the end if and only if it was kept at first or a start or growth was admitted on the way |
| `LabControl.Lab.TakeTurn` | deploy/ci-lab/control.py:892-922 | one such command keeps or establishes the headroom, and the file and host that it met are among the recorded instants |
| `LabRules.FaultsAreSticky` | deploy/ci-lab/control.py:439-445 | if no step between two instants starts anything for an invalidated slot and holder, then any start of theirs that shows later was there when the fault was filed |
| `LabControl.Lab.Execute` | deploy/ci-lab/control.py:892-922 | one command in a fresh process, killed anywhere: invariants kept, faults and lease log only grow, success only for holders that were not invalidated, and headroom kept or established unless it is a resize that neither fits nor is left alone |
| `LabControl.Lab.constructor` | deploy/ci-lab/control.py:215-224 | an empty state file on a quiet host satisfies the invariants |
| `LabControl.Lab.Drift` | deploy/ci-lab/control.py:38-45 | between two steps of a command the host may move by itself within the stated rely condition: late starts land, balloons shrink, memory becomes resident, running guests go down; the invariants hold at that instant |
| `LabControl.Lab.Save` | deploy/ci-lab/control.py:226-227 | writing a state that is safe for the present host keeps the lab safe whether or not the process dies first |
| `LabControl.Lab.Owned` | deploy/ci-lab/control.py:239-260 | only the template and configured slots pass, as the host shows them |
| `LabControl.Lab.StatusOf` | deploy/ci-lab/control.py:262-264 | the status is that of the slot at the end of the read |
| `LabControl.Lab.OwnedActivity` | deploy/ci-lab/control.py:746-769 | every slot with a promise is read, and each reading lies between the start and the end of the call |
| `LabControl.Lab.OwnedCommitments` | deploy/ci-lab/control.py:270-309 | the sampled commitment is at least what is owed at the end of the call and at most the worst count for the host when reading began, or what was counted then if balloons are left alone; the active count is exact |
| `LabControl.Lab.Resources` | deploy/ci-lab/control.py:311-350 | an allowed decision leaves reserve + 256 MiB after the target and the promised growth; on a calm host its figures are on the safe side of the host at the end of the call |
| `LabCapacity.Admission` | deploy/ci-lab/control.py:131-141 | accepts targets of 2048 to 8192 MiB and non-negative growth only; allowed if and only if active is below the limit and available covers reserve, target and growth |
| `LabControl.Lab.FenceStarting` | deploy/ci-lab/control.py:393-403 | success proves that no start of this slot is in flight any more |
| `LabControl.Lab.RequireLease` | deploy/ci-lab/control.py:439-445 | passes only the current, unexpired holder, and not an invalidated one |
| `LabControl.Lab.GrantLease` | deploy/ci-lab/control.py:410-437 | either renews the same generation and holder, or starts a fresh generation on a slot that is proven quiet; every other lease, run and target is unchanged, and the expiry lies the asked time after the call |
| `LabControl.Lab.Renew` | deploy/ci-lab/control.py:421-437 | the same generation gets a new expiry and nothing else changes |
| `LabControl.Lab.Acquire` | deploy/ci-lab/control.py:424-437 | a takeover happens only after a stopped readback and a fence, so it never outruns an unfinished start |
| `LabControl.Lab.TakeOver` | deploy/ci-lab/control.py:427-437 | a new generation replaces lease and run of a quiet slot and keeps the headroom; its expiry lies the asked time after the call |
| `LabControl.Lab.RecordTakeOver` | deploy/ci-lab/control.py:427-437 | the saved lease is the fresh one, run and target of the slot are forgotten, and nothing else changes |
| `LabControl.Lab.Start` | deploy/ci-lab/control.py:447-488 | success means a running record under the current lease of the caller, with its target, and nothing else moved; headroom is kept, and holds after an admitted cold start |
| `LabControl.Lab.Reconnect` | deploy/ci-lab/control.py:452-460 | a guest that is already up is recorded as running only under the generation that was started, and neither its launch charge nor its target changes |
| `LabControl.Lab.ColdStart` | deploy/ci-lab/control.py:464-488 | the intent is saved before the start is issued, under the same generation and holder |
| `LabControl.Lab.Launch` | deploy/ci-lab/control.py:483-487 | the saved intent is started once and then recorded as running; headroom is kept |
| `LabControl.Lab.QmStart` | deploy/ci-lab/control.py:483-484 | a start accepted for a quiet slot with a saved intent, under a holder that is not invalidated, keeps the boot invariant however late it lands |
| `LabControl.Lab.RecordStart` | deploy/ci-lab/control.py:471-480 | saving the start records after an admission makes the headroom condition hold |
| `LabControl.Lab.Resize` | deploy/ci-lab/control.py:490-519 | success records the target within 2048 to 8192 MiB and changes nothing else; on a calm host headroom is kept, or established by an admitted growth, if the host fitted the target before the call, and also if the balloon is left alone meanwhile |
| `LabControl.Lab.DecideResize` | deploy/ci-lab/control.py:492-511 | an allowed growth, or none, is at least the worst cost of the target for the host before the call, and the host still affords it, whenever that host fitted the target |
| `LabControl.Lab.RecordResize` | deploy/ci-lab/control.py:512-515 | a covered target keeps the headroom when it is saved |
| `LabControl.Lab.Release` | deploy/ci-lab/control.py:521-528 | only a quiet slot is released: its lease expires now, and every other lease, run, target, snapshot and fault is unchanged |
| `LabControl.Lab.Stop` | deploy/ci-lab/control.py:648-657 | success proves the slot quiet and without promise; other slots keep runs and targets; headroom is kept, and so is the retention of the guard if no slot is lost |
| `LabControl.Lab.Shutdown` | deploy/ci-lab/control.py:648-650 | a guest that is told to shut down may go down before its run is recorded as quiesced, and headroom is kept meanwhile |
| `LabControl.Lab.DeferStart` | deploy/ci-lab/control.py:530-555 | queues the request of the holder without touching leases, runs, targets, snapshots or faults |
| `LabControl.Lab.ProcessDeferred` | deploy/ci-lab/control.py:557-608 | no deferred start succeeds for an invalidated holder, whatever ends the command; on success exactly the pending requests that started are recorded as started, only their states changed, and headroom is kept |
| `LabControl.Lab.AttemptDeferred` | deploy/ci-lab/control.py:564-606 | one attempt changes at most the state of its request, which is started only if the start succeeded for a holder that is not invalidated |
| `LabControl.Lab.ReconcileSnapshot` | deploy/ci-lab/control.py:659-685 | changes at most this record; it is ready only if an external snapshot of its own owner was just listed, and a deleting one stays deleting until it is gone |
| `LabControl.Lab.TakeSnapshot` | deploy/ci-lab/control.py:687-716 | success means a ready record under this name whose own external snapshot was listed; leases, faults, other records and other slots are unchanged |
| `LabControl.Lab.QmDelSnapshot` | deploy/ci-lab/control.py:738-742 | a deletion is issued only for a deleting record whose own external snapshot was listed by the immediately preceding host call |
| `LabControl.Lab.Rollback` | deploy/ci-lab/control.py:718-725 | only to a tracked ready snapshot by a holder that is not invalidated |
| `LabControl.Lab.RequireReady` | deploy/ci-lab/control.py:718-722 | passes only a tracked snapshot that is ready and whose own external snapshot was just listed |
| `LabControl.Lab.DiscardSnapshot` | deploy/ci-lab/control.py:727-744 | success means that a tracked, unpreserved record is gone and every other record is unchanged |
| `LabControl.Lab.DeleteSnapshot` | deploy/ci-lab/control.py:859-871 | intent, second reconcile, deletion and proof; only this record may change |
| `LabControl.Lab.FinishDeletion` | deploy/ci-lab/control.py:867-870 | after a second reconcile the deletion is issued, and success proves it gone; only this record may change |
| `LabControl.Lab.Guard` | deploy/ci-lab/control.py:771-840 | every leased slot with a reason to act, hard, growth or unexpected stop, ends up invalidated under its holder; if headroom was kept the active limit is never reported; and on a calm host with ample headroom before the call the headroom reason is not reported, for which less is enough if balloons are left alone |
| `LabControl.Lab.GuardSlot` | deploy/ci-lab/control.py:801-833 | a slot with hard reasons, growth under a measurement lease, or an unexpected stop is invalidated under its present holder before it is stopped |
| `LabControl.Lab.GuardSlots` | deploy/ci-lab/control.py:801-833 | every condemned slot is invalidated, in any order, and headroom is kept |
| `LabControl.Lab.Observe` | deploy/ci-lab/control.py:772-799 | what the guard sees: with headroom kept it never adds the active limit, and with ample headroom before the call on any calm host it does not add the headroom reason |
| `LabControl.Lab.Reap` | deploy/ci-lab/control.py:842-874 | leases and faults are unchanged, runs under a live lease are left alone, exactly the snapshot records that are preserved, unexpired or of a leased slot remain, and every idle slot lost its promise or is reported as pending |
| `LabControl.Lab.ReapRuns` | deploy/ci-lab/control.py:847-858 | every idle slot without a live lease loses its promise or is reported as pending |
| `LabControl.Lab.ReapSnapshots` | deploy/ci-lab/control.py:859-873 | deletes every record that is not spared and no other |
| `LabBoot.BootSafeRely` | deploy/ci-lab/control.py:393-403 | late landings, failures and shutdowns keep the boot invariant, and a quiet guest stays quiet |
| `LabBoot.AcceptedIsSafe` | deploy/ci-lab/control.py:474-484 | a start accepted under the saved lease and run keeps the boot invariant |
| `LabBoot.StoppedReadback` | deploy/ci-lab/control.py:648-657 | a slot read as stopped is quiet unless its run is recorded as starting |
| `LabRules.LandedLater` | deploy/ci-lab/control.py:452-460 | a slot read as running has no start on its way, then or later |
| `LabSnapshots.SnapshotSafeRely` | deploy/ci-lab/control.py:659-685 | late snapshot effects never remove a preserved snapshot or give a record a foreign owner; every record carries an owner minted here |
| `LabSnapshots.AcceptedEffects` | deploy/ci-lab/control.py:700-742 | accepting a creation for a record being created, or a deletion for one being deleted, keeps the snapshot invariant |
| `LabSnapshots.AdvanceRecord` | deploy/ci-lab/control.py:676-678 | with nothing in flight a record may become ready, or deleting if it is not preserved |
| `LabSnapshots.DropRecord` | deploy/ci-lab/control.py:679-682 | a record is forgotten only when its external snapshot is gone and nothing is in flight |
| `LabMemory.HeadroomHolds` | deploy/ci-lab/control.py:270-309 | on a calm host, whose balloons may shrink and whose running guests may go down, available minus owed does not fall |
| `LabMemory.RetainedIffLostAreCovered` | deploy/ci-lab/control.py:783-794 | the guard's condition holds if and only if the kept headroom also covers the promises of guests that are down though recorded as running |
| `LabMemory.AdmittedStartKeeps` | deploy/ci-lab/control.py:471-480 | an admitted start establishes the headroom condition in whole MiB, byte rounding included |
| `LabMemory.AffordedTargetKeeps` | deploy/ci-lab/control.py:490-519 | a target whose cost is afforded keeps the headroom condition |
| `LabMemory.GrowthCost` | deploy/ci-lab/control.py:498-515 | raising a target by some MiB over what is counted costs at most that many MiB |
| `LabMemory.RunningReleasesEnvelope` | deploy/ci-lab/control.py:485-487 | recording a start as running keeps retention |
| `LabLimits.TargetCost` | deploy/ci-lab/control.py:490-519 | on one host a target costs exactly its distance from the commitment: headroom and retention hold after it if and only if that growth is afforded |
| `LabLimits.ResizeKeepsIff` | deploy/ci-lab/control.py:490-519 | for every host: all resizes that the code admits, read, decided and saved at any moments of a calm host, keep the headroom if and only if before the call the host affords the worst cost of the target or the admission is bound to cover it |
| `LabLimits.AdmissionMayBeEnough` | deploy/ci-lab/control.py:490-519 | a concrete host on which the worst cost is not afforded and yet every admitted resize is safe |
| `LabLimits.WorstCovers` | deploy/ci-lab/control.py:498-515 | wherever a calm host moves, a target costs at most its worst cost |
| `LabLimits.ShrinkingBalloonOutrunsResize` | deploy/ci-lab/control.py:490-519 | a concrete resize that is admitted and still loses retention because the balloon shrank in between |
| `LabLimits.GuardCountsLateResidencyTwice` | deploy/ci-lab/control.py:783-794 | a concrete sample in which retention holds throughout and the guard still reports missing headroom |
| `LabLimits.GuardSeesHeadroomIff` | deploy/ci-lab/control.py:772-794 | on hosts that leave balloons alone while the guard samples: no continuation makes it report missing headroom if and only if the headroom at the start also covers all that can become resident |
| `LabGuard.GuardIsQuietIff` | deploy/ci-lab/control.py:772-794 | on any calm host: no sample, with statuses, processes and availability read one after the other, makes the guard report missing headroom if and only if the headroom before the call covers the worst count of every slot and all that can become resident |
| `LabGuard.GuardCountsShrinkingBalloon` | deploy/ci-lab/control.py:276-300 | a concrete balloon that shrinks between status and process read and is counted at 2048 MiB although nothing is owed |
| `LabGuard.GuardCountsFallenGuest` | deploy/ci-lab/control.py:276-283 | a concrete running guest that goes down before it is read and is counted at its whole launch memory |
| `LabLimits.DownCost` | deploy/ci-lab/control.py:270-309 | after a promised guest went down retention holds if and only if slack and freed memory cover the promise charged from then on, less what it still owed |
| `LabLimits.ShutdownLosesRetention` | deploy/ci-lab/control.py:270-309 | a concrete guest whose own shutdown loses the retention of the guard while the owed headroom is kept |
| `LabRules.SampledMore` | deploy/ci-lab/control.py:270-309 | adding one slot to the sample keeps it between what is owed now and the worst count when reading began |
| `LabRules.MeasureAtWorst` | deploy/ci-lab/control.py:270-309 | whatever a calm host does between the two reads of a slot, it is counted at no more than its worst count |
| `JourneyRunner.Runner.Runs` | scripts/product-acceptance/run_m0_journey.py:1748-1920 | for any sequence of runs, each killed at any write or request or stopped at any checkpoint: the files pass the resume checks and each ledger extends the last as an unchanged record prefix; if no name is shadowed, no step is ever sent two different requests and no resume conflict is raised |
| `JourneyRunner.Runner.RunLocked` | scripts/product-acceptance/run_m0_journey.py:1748-1920 | one run keeps the files acceptable and the records a prefix; a run that succeeds got past every record on file below its record count, and one that adds a record got past all of them; complete evidence covers the whole plan and checkpoint evidence ends at the requested checkpoint |
| `JourneyRunner.Runner.TakeStep` | scripts/product-acceptance/run_m0_journey.py:1781-1899 | a step on file is replayed and a new one recorded; success means that all records below it replay without conflict, and records are added only after all on file did |
| `JourneyRunner.ReplayedOn` | scripts/product-acceptance/run_m0_journey.py:1790-1798 | the file determines the references of a replay, so one replay without conflict settles the record for every run from that file |
| `JourneyRunner.Runner.constructor` | scripts/product-acceptance/run_m0_journey.py:1923-1955 | without files a run starts from an accepted, empty ledger |
| `JourneyRunner.Runner.Resume` | scripts/product-acceptance/run_m0_journey.py:1757-1774 | on files left by any earlier run every resume check passes, lagging evidence is repaired and the references of all records are gathered |
| `JourneyRunner.Runner.ReplayStep` | scripts/product-acceptance/run_m0_journey.py:1790-1832 | raises a resume conflict if and only if the request resolved now differs from the recorded one, never without shadowed names; passes only if the new answer has the recorded status and matching captures |
| `JourneyRunner.Runner.PerformStep` | scripts/product-acceptance/run_m0_journey.py:1834-1890 | the record is the one that the reply and the references determine, passes every later check, and without shadowed names remembers the request its earlier captures determine |
| `JourneyRunner.Runner.RecordStep` | scripts/product-acceptance/run_m0_journey.py:1891-1899 | appends exactly that record if neither write is killed, and the references are those of the longer ledger |
| `JourneyRunner.Runner.WriteLedger` | scripts/product-acceptance/run_m0_journey.py:1895-1895 | the ledger file is replaced by an accepted, longer one, or is unchanged |
| `JourneyRunner.Runner.WriteEvidence` | scripts/product-acceptance/run_m0_journey.py:1896-1899 | the evidence file is replaced by accepted evidence, or is unchanged |
| `JourneyRunner.Runner.Publish` | scripts/product-acceptance/run_m0_journey.py:1907-1920 | evidence for the first records can always be built and is accepted by the next resume |
| `JourneyRunner.Runner.CompletedReferences` | scripts/product-acceptance/run_m0_journey.py:1383-1390 | under each name the capture of the step with the greatest id, since ledger files are sorted by id |
| `JourneyRunner.Answer` | scripts/product-acceptance/run_m0_journey.py:1672-1745 | an observation has an expected status, well-typed captures without credentials and an attempt count within bounds |
| `JourneyRunner.ServedIsOriginal` | scripts/product-acceptance/run_m0_journey.py:1781-1798 | without shadowed names a replayed step and the next step send exactly what the captures before them determine, however the runs were cut |
| `JourneyRunner.MadeRecordIsOk` | scripts/product-acceptance/run_m0_journey.py:1857-1890 | a public-safe record passes every check that a resume makes |
| `JourneyRunner.AcceptedGrows` | scripts/product-acceptance/run_m0_journey.py:1891-1899 | a kill between the two writes leaves evidence that lags by one record and is still accepted |
| `JourneyRunner.EvidenceIsAccepted` | scripts/product-acceptance/run_m0_journey.py:1545-1582 | evidence for a prefix of the records is public-safe and bound to the ledger |
| `JourneyRunner.GenuineGrows` | scripts/product-acceptance/run_m0_journey.py:1857-1895 | appending a record keeps every earlier request determined by earlier captures |
| `JourneyLedger.ValidateCompletedPrefix` | scripts/product-acceptance/run_m0_journey.py:1179-1279 | the walk with a running digest accepts exactly plan prefixes whose records are in order and chained |
| `JourneyLedger.ChainTipDeterminesLedger` | scripts/product-acceptance/run_m0_journey.py:1174-1279 | two ledgers accepted for one plan with equal chain tips hold identical records, if the hash does not collide on them; operation ids may coincide |
| `JourneyLedger.TipDeterminesChain` | scripts/product-acceptance/run_m0_journey.py:1174-1279 | induction from the tip back to the zero digest |
| `JourneyLedger.RequestAgrees` | scripts/product-acceptance/run_m0_journey.py:1585-1636 | a request is the same under any references that agree on what the step looks up |
| `JourneyLedger.SameRequestIff` | scripts/product-acceptance/run_m0_journey.py:1790-1798 | two requests of a step have equal digest and query if and only if no reference that the step looks up differs, where digests and encoding tell these two apart |
| `JourneyTemplate.ResolveAgrees` | scripts/product-acceptance/run_m0_journey.py:950-977 | a valid template resolves without error, and equally under any references that agree on what it looks up |
| `JourneyTemplate.ResolvesSameIff` | scripts/product-acceptance/run_m0_journey.py:950-977 | with an injective delivery digest it resolves to the same value if and only if no capture that it looks up has changed |
| `JourneyReferences.LookupsAreStableIff` | scripts/product-acceptance/run_m0_journey.py:1383-1390 | every lookup of every run, however earlier runs were cut, finds the capture that the step found at first, if and only if for each name that a step looks up the last step before it that captures the name has the greatest id of all that do |
| `JourneyReferences.DistinctIsUnshadowed` | scripts/product-acceptance/run_m0_journey.py:860-860 | distinct reference names are enough |
| `JourneyReferences.ServedIsUnique` | scripts/product-acceptance/run_m0_journey.py:1383-1390 | the file a run starts from and the steps it records determine its references |
| `JourneyReferences.DotsCollide` | scripts/product-acceptance/run_m0_journey.py:53-53 | two different step and capture names that share one reference name |
| `JourneyCollision.CollidingRun` | scripts/product-acceptance/run_m0_journey.py:1748-1832 | a plan that opens with three readiness steps of which the first and third capture one name, with any valid continuation, either schema: if the first run is cut after its third record, the replay of the second step raises a resume conflict, and none of any number of later runs succeeds, whatever the server answers them and wherever they are killed |
| `JourneyCollision.RunOnce` | scripts/product-acceptance/run_m0_journey.py:1748-1920 | the first run of such a plan, cut after its third record, has recorded the second step with the capture of the first |
| `JourneyCollision.SomePlanOpens` | scripts/product-acceptance/run_m0_journey.py:601-700 | plans that open like that exist under either schema |
| `JourneyEvidence.ReloadNeedsPublicIds` | scripts/product-acceptance/run_m0_journey.py:1134-1171 | a ledger of public-safe records is loaded again if and only if no completed step id matches the sensitive-key pattern |
| `JourneyEvidence.ATokenStepIsSensitive` | scripts/product-acceptance/run_m0_journey.py:57-57 | a step id that plans accept and ledgers cannot carry |
| `JourneyEvidence.BuiltIsBound` | scripts/product-acceptance/run_m0_journey.py:1282-1380 | what is built for a prefix passes the binding check |
| `JourneyEvidence.BoundGrows` | scripts/product-acceptance/run_m0_journey.py:1282-1380 | evidence bound to a ledger stays bound when a record is appended |
| `JsonPointer.TwoPassesAreOne` | scripts/product-acceptance/run_m0_journey.py:885-899 | on every segment that the escape scan accepts, the two whole-string replacements equal one left-to-right unescape as in section 4 of RFC 6901 |
| `JsonPointer.ReversedPassesDiffer` | scripts/product-acceptance/run_m0_journey.py:898-898 | the opposite order of the two replacements is wrong |
| `JsonPointer.DecodingIsInjective` | scripts/product-acceptance/run_m0_journey.py:885-899 | different slash-free segments decode to different keys |
| `JsonPointer.ScanEscapes` | scripts/product-acceptance/run_m0_journey.py:889-897 | the scan accepts exactly segments in which every tilde is followed by 0 or 1 |
| `JsonPointer.DecodePointerParts` | scripts/product-acceptance/run_m0_journey.py:885-899 | gives every segment its single-pass reading, or the error of the scan |
| `JsonPointer.EncodeThenDecode` | scripts/product-acceptance/run_m0_journey.py:885-899 | decoding the encoding of any parts gives them back |
| `JsonPointer.DecodeThenEncode` | scripts/product-acceptance/run_m0_journey.py:885-899 | encoding the decoded parts of any accepted pointer gives it back |
| `AuditTree.ParseTree` | scripts/dependency-reachability-audit.py:149-189 | the stack parser accepts exactly non-empty trees without unknown packages and depth jumps, and returns the graph read off the indentation |
| `AuditTree.ParsedIsWellFormed` | scripts/dependency-reachability-audit.py:149-189 | every package is reached from the roots, has a context, and edges stay inside the packages |
| `AuditTree.BuildComesFromParent` | scripts/dependency-reachability-audit.py:173-179 | being at or below a procedural macro is decided by the own mark or the parent |
| `AuditTree.OpenIsParent` | scripts/dependency-reachability-audit.py:170-172 | the stack entry one level up is the nearest earlier line of smaller depth, and it exists if and only if the depth does not jump |
| `AuditTree.StackGrows` | scripts/dependency-reachability-audit.py:184-186 | dropping stale depths keeps exactly the open lines |
| `AuditCompact.LoadCompactTree` | scripts/dependency-reachability-audit.py:230-318 | the loader accepts exactly rows in order that describe a well-formed graph, and returns that graph |
| `AuditCompact.CompactionRoundTrip` | scripts/dependency-reachability-audit.py:192-223 | for every accepted tree the compact rows, in any order, pass every loader check and give the identical graph back |
| `AuditCompact.CompactDescribes` | scripts/dependency-reachability-audit.py:192-223 | printed rows describe the graph they were printed from |
| `AuditCompact.CompactIsOk` | scripts/dependency-reachability-audit.py:192-223 | printed rows pass every row check |
| `AuditCompact.RowFits` | scripts/dependency-reachability-audit.py:255-295 | one more row is accepted if and only if it names a new package or a new edge |
| `AuditGraph.Closure` | scripts/dependency-reachability-audit.py:304-313 | the breadth-first loop ends with exactly the packages on a path from the roots |
| `AuditGraph.MarkedContext` | scripts/dependency-reachability-audit.py:514-530 | the worklist over packages and a flag ends although states are queued repeatedly, with exactly the packages that some path with at least one foreign edge reaches |
| `AuditGraph.StatesHoldPath` | scripts/dependency-reachability-audit.py:514-530 | a closed set of states holds the end state of every path |
| `AuditContexts.ForeignEdges` | scripts/dependency-reachability-audit.py:494-513 | an edge is foreign if and only if some of its specs is not native |
| `AuditContexts.MarkedStaysInside` | scripts/dependency-reachability-audit.py:439-440 | the foreign context of a loaded graph lies inside its packages, so its subset check cannot fail |
| `AuditContexts.DevStaysInside` | scripts/dependency-reachability-audit.py:437-438 | the dev closure lies inside the native packages if and only if its seeds do |
| `AuditContexts.SetWorkspaceGraphs` | scripts/dependency-reachability-audit.py:413-545 | acceptance depends on the given graphs alone; the dev and foreign sets are exactly the reachability sets |
| `AuditContexts.ReverseClosure` | scripts/dependency-reachability-audit.py:800-812 | the closure edges are exactly the edges into what leads to the duplicate, and the reached roots exactly the members that lead to it |
| `AuditContexts.ClosureExists` | scripts/dependency-reachability-audit.py:796-816 | in a well-formed graph only a root without dependents lacks a closure |
| `AuditClasses.Classify` | scripts/dependency-reachability-audit.py:574-644 | fails exactly when some locked package of the all-target tree is in no release tree and no native, dev or foreign set; otherwise every package has its class and its release roots |
| `AuditClasses.RootsAreCombined` | scripts/dependency-reachability-audit.py:586-596 | the release roots of a package are those whose combined tree holds it |
| `ArchivePlanner.MakePlan` | scripts/ci/test-archive.py:250-281 | succeeds exactly for 1 to 64 shards and classifiable rows, and its plan passes the plan check |
| `ArchivePlanner.PlannedIsOk` | scripts/ci/test-archive.py:250-309 | for every sorted inventory and shard count the plan passes validate_plan |
| `ArchivePlanner.ApplicableIsOk` | scripts/ci/test-archive.py:316-322 | with decisions added it passes, round-robin check included, if and only if the decisions are valid |
| `ArchivePlanner.PlannedRows` | scripts/ci/test-archive.py:258-276 | the plan holds every test once and sorting it gives the inventory back |
| `ArchivePlanner.PlannedIsEven` | scripts/ci/test-archive.py:262-270 | shards are non-empty and differ in size by at most one |
| `ArchivePlanner.ShardsRebuild` | scripts/ci/test-archive.py:262-270 | the shards of an owner rebuild its tests |
| `ArchivePlanner.GroupsCover` | scripts/ci/test-archive.py:258-260 | every test is in exactly one owner group |
| `ArchivePlanner.ShardIdsDiffer` | scripts/ci/test-archive.py:269-269 | shard ids are distinct across owners and partitions |
| `ArchivePlan.ValidatePlan` | scripts/ci/test-archive.py:284-309 | accepts exactly plans that meet the declared conditions |
| `ArchiveOrder.SlicesCover` | scripts/ci/test-archive.py:265-268 | the round-robin slices hold every id exactly as often as the rows do |
| `ArchiveOrder.SlicesAreEven` | scripts/ci/test-archive.py:265-268 | slice sizes differ by at most one |
| `ArchiveOrder.SortForgetsOrder` | scripts/ci/test-archive.py:302-307 | sorting rows with unique ids forgets how they were listed |
| `ArchiveVerify.Verify` | scripts/ci/test-archive.py:484-552 | accepts exactly complete, matching receipts, and its summary is accounted for |
| `ArchiveVerify.EachTestOnce` | scripts/ci/test-archive.py:484-546 | every compiled test is in exactly one place: passed in one shard, not applicable, or pending under another owner |
| `ArchiveVerify.AlwaysAccounted` | scripts/ci/test-archive.py:541-542 | the two accounting checks can never fire |
| `ArchiveVerify.ReceiptsSum` | scripts/ci/test-archive.py:491-520 | receipts that match the shards one to one report exactly the required tests, in any order |
| `ArchiveVerify.PassedIsRequired` | scripts/ci/test-archive.py:351-355 | what the receipts of an owner prove is what its shards have to execute |
| `ArchiveFilter.FiltersetIsInjective` | scripts/ci/test-archive.py:382-387 | different lists of tests are printed differently, for arbitrary strings |
| `ArchiveFilter.FieldIsReadBack` | scripts/ci/test-archive.py:382-383 | escaping is undone up to the first unescaped closing parenthesis |
| `ArchiveFilter.TermsAreReadBack` | scripts/ci/test-archive.py:386-387 | the whole expression can be read back |
| `ArchiveFilter.Batches` | scripts/ci/test-archive.py:390-398 | batches concatenate to the input, none is empty, multi-row batches stay within 24000 bytes, and each is greedily maximal |
| `ArchiveFilter.GreedyIsUnique` | scripts/ci/test-archive.py:390-398 | these properties determine the batches |
| `CandidateApplicability.ValidateFullApplicability` | scripts/ci/candidate.py:90-130 | the loop over decisions accepts exactly the summaries that meet the declared conditions |
| `CandidateApplicability.ReadDecisions` | scripts/ci/candidate.py:101-114 | reads every decision or finds one that cannot be read, and splits the rows into required and excluded ones in their order |
| `CandidateAgreement.Agreement` | scripts/ci/candidate.py:62-130 | the consumer accepts the summary of a verified schema-2 plan if and only if the identity in the decisions is written as in the plan and the ignored tests have at most 64 shards |
| `CandidateAgreement.PlannedAgreement` | scripts/ci/candidate.py:62-130 | for plans of the planner only the written identity decides |
| `CandidateAgreement.NumbersMayDiffer` | scripts/ci/candidate.py:95-96 | a number and its decimal spelling are equal for the producer and different for the consumer |
| `CandidateAgreement.OnlyTheProducerAccepts` | scripts/ci/candidate.py:95-96 | a concrete plan and receipt that the producer verifies and the consumer rejects |
| `CandidateAgreement.SampleHashIsOk` | scripts/ci/candidate.py:58-59 | digests of the kind the agreement assumes exist |
| `CandidateAgreement.PartsAreOk` | scripts/ci/candidate.py:125-130 | the required digest of each partition is what slicing the sorted decisions gives |
| `CandidateAgreement.RecordSums` | scripts/ci/candidate.py:62-87 | the receipts observed, and the partitions require, exactly the required tests |
| `CandidateAgreement.OmittedAgrees` | scripts/ci/candidate.py:118-124 | the rows reported as not executed are those of the decisions, with their reasons |
| `CandidateArchive.ValidateArchive` | scripts/ci/candidate.py:145-254 | accepts exactly receipts whose local checks pass, and those are conserved |
| `CandidateArchive.LocalChecksConserve` | scripts/ci/candidate.py:145-254 | test count = observed + left out + pending for both versions, so the last check of version 2 is redundant |
| `CandidateArchive.ShardsAreObserved` | scripts/ci/candidate.py:249-251 | the two totals compared with the observed count are the same number |
| `Intervals.UnionMs` | scripts/product-acceptance/remote_parallel_report.py:171-176 | the sweep returns the number of points covered by at least one half-open span, for every list of spans |
| `Intervals.OrderIsForgotten` | scripts/product-acceptance/remote_parallel_report.py:171-176 | the order of the spans does not matter |
| `Intervals.AtMostTotal` | scripts/product-acceptance/remote_parallel_report.py:171-176 | the union is at most the sum of the lengths |
| `Intervals.SweepSpan` | scripts/product-acceptance/remote_parallel_report.py:173-175 | each later span adds exactly its part beyond the end of the sweep |
| `Intervals.DeliveryBlock` | scripts/product-acceptance/remote_parallel_report.py:190-207 | the accounted total is at least every category union, at most their sum and at most the elapsed time |

## Left out

- LabControl.Lab.OperateCalmly: a guest whose run is recorded as starting is assumed to stay up unless it is told to shut down, and reported process sizes are not negative.
- LabControl.Lab.Owned: the checks of owner marker, pool, network, storage and addresses are one answer of the host that refuses.
- LabControl.Lab.Rollback: the rollback itself is a host call without a modelled effect on the guest's disk.
- JourneyRunner.Answer: retries, deadlines and response assertions inside one observation are part of the scripted answer.
- ArchiveVerify.Verify: digest and identity bindings of a receipt are one flag.
- CandidateArchive.ValidateArchive: digest, identity and shape checks of a receipt are one flag.
- JourneyEvidence.EvidenceFor: replay-verified steps are listed in plan order instead of sorted by name.
- JourneyLedger.ValidPlan: only the parts of the plan check that later steps rely on; the order of phases, the required commands and the response assertions are not modelled, so results for every valid plan cover more plans than the source accepts.
- Intervals.UnionMs: spans are integers; floating-point times are not modelled.
- Lab: VM states other than running and stopped, the address and ARP checks, decommissioning, the telemetry command, leases without a generation, and the diagnostic fields of the state file.
- Lab: the configured template is assumed to be flagged as a template, and unfinished starts and snapshot effects are assumed to be listed as tasks by the host.
- Lab: slots and requests are visited in any order instead of file order; time is an integer that does not decrease.
- Journey: malformed JSON shapes, floating-point JSON numbers, HTTP transport, credential loading, path and lock checks. That the fixed field names of ledgers and evidence contain no sensitive word is taken for granted.
- Journey: digests, operation ids, delivery digests and query encoding are abstract functions; uniqueness results assume no collision among the records or requests at hand.
- Audit: reading lines and TSV cells, the mapping of metadata ids to packages, feature rows, bloat summaries and the report text.
- Archive: sealing, extraction, nextest calls and XML parsing; a JUnit file is a list of test ids.
- Candidate: JSON shapes and types, gates other than the counts of required owners, artifacts and promotion.
- Everything else in the repository: services, gateway, console, contracts and preflight scripts.
