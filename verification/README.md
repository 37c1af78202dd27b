# Verified model of the subserver agent

The agent runs a sing-box dataplane from configurations that several writers
hand to it, and hosts a control plane that builds such configurations from
users, inbound sets and commits.  This project models the parts of it that keep
state and proves what they keep, over every input, every run and every failing
write that the model can express.

| files | what they model |
|---|---|
| `Basics.dfy`, `Text.dfy`, `Decimal.dfy` | shared types, `strings.ToLower`/`TrimSpace`, decimal rendering |
| `ConfigStore.dfy` | the store of staged and last-good configurations, file write by file write |
| `Supervisor.dfy`, `SupervisorInvariant.dfy`, `SupervisorHistory.dfy`, `SupervisorTheorems.dfy`, `SupervisorReach.dfy` | the supervisor as a concurrent state machine with box deaths, failing writes and process crashes, and its guarantees over every interleaving |
| `SupervisorConditions.dfy`, `SupervisorRuns.dfy` | over every run: what the condition of an Apply was compared with, that every Apply is answered once, and that every running box is watched |
| `SupervisorObject.dfy`, `ApplyOutcomes.dfy` | the supervisor as an object whose methods update fields and store in place, each of its goroutines proved to be a run of the machine's steps, and what one Apply answers and leaves behind |
| `Ownership.dfy`, `OwnershipOutcomes.dfy`, `OwnershipService.dfy` | the exclusive config owner, the active sets with their rollbacks, boot reconciliation, and what each operation leaves behind under any failing writes |
| `Commits.dfy`, `CommitTheorems.dfy`, `CommitOutcomes.dfy`, `CommitService.dfy` | the commit log: heads, one pending commit, its later application and rollback |
| `HeadsDigest.dfy` | the canonical text behind the heads digest |
| `Reality.dfy`, `RealityAssign.dfy` | assignment of Reality server names to inbounds |
| `UserImport.dfy`, `ImportOutcomes.dfy` | the user import loop with its two index maps, and what one record does |
| `WgAlloc.dfy` | sticky WireGuard host indices |
| `PortPolicy.dfy` | listen-port choice and every path that stores inbound sets |
| `Traffic.dfy`, `TrafficOutcomes.dfy` | per-user traffic counters and their writers, field by field |
| `RingLog.dfy` | the bounded log and cursor paging |

How the pieces fit together: a handler or a locked region is a function from
one state to the next, with the outcome of every file write, engine call and
random draw as an input.  The imperative form of the source is kept beside it,
as a class or a method with loops whose contract equates its effect with that
function, and the guarantees are lemmas about the function and about runs.  What an
operation answers and leaves behind is stated once more in the `Outcomes` files, under
every combination of failing writes and without the function that computes it: by
fields, by membership of names, and by the order of lists.

Some properties that one might expect do not hold of the code.  They are stated
as they are, with an input that shows the failure and the exact condition:

| what fails | input | exact condition |
|---|---|---|
| the revision never falls | `SupervisorReach.FallingRestartIsReachable` | `SupervisorTheorems.UnreadableRestartFalls` |
| no update is lost | `SupervisorObject.UncountedPromoteLosesUpdate`, `SupervisorObject.BlindRestartLosesUpdate` | `SupervisorObject.WonConditionMatchesAgain`, with `SupervisorTheorems.LostUpdateHasCause` over runs |
| no revision is handed out twice | `SupervisorObject.UncountedPromoteLosesUpdate` | `ConfigStore.CutPromoteReusesRevision` |
| a noop means that the document runs | `SupervisorObject.HalfPromoteMisleadsNoop` | `SupervisorTheorems.NoopComparesRunning` |
| a failed activation keeps the owner | `Ownership.FailedActivateForgetsOwner` | `Ownership.FailedActivateKeepsOwner` |
| switching the hub off keeps the owner | `Ownership.HubOffDisplacesDirect` | `Ownership.HubOffKeepsOwner` |
| active sets mean control plane mode | `CommitTheorems.StaleSnapshotRevives` | `CommitTheorems.OutcomeOwned`, `Ownership.ClaimBreaksOwnership` |
| a failed commit leaves no ownership issue | `CommitTheorems.FailedFirstCommitOrphans` | the same |
| a pending commit is finished some day | `CommitTheorems.RestartStrands` | `CommitTheorems.StrandingStep`, `CommitTheorems.PendingUntilReleased` |
| different heads have different digests | `HeadsDigest.PresetIdsCollide` | `HeadsDigest.BarsCollide` for one block |
| live names stay distinct in an import | `UserImport.RevivedNameCollides` | `UserImport.StepNames` |
| `ImportOutcomes.UpdatedRecord` | internal/controlplane/users_sync.go:187-231 | An update merges the record into the known user, brings it to life, enables it as the record says or as before, and leaves all other users alone. |
| `ImportOutcomes.UpdatedName` | internal/controlplane/users_sync.go:187-224 | Its name is the one asked for or, when another live user has that, the smallest free number behind it; the index follows. |
| `ImportOutcomes.DeletedRecord` | internal/controlplane/users_sync.go:167-186 | A deletion stamps and disables the known user, moves its revision on and frees its name; all else stays. |
| `ImportOutcomes.CreatedRecord` | internal/controlplane/users_sync.go:233-267 | Any other record appends exactly the user made from it and indexes it. |
| `ImportOutcomes.SkippedRecord` | internal/controlplane/users_sync.go:146-166 | A record without name and sync id, or with nothing new, changes no user. |
| `ImportOutcomes.RefusedRecord` | internal/controlplane/users_sync.go:146-247 | A record is refused if and only if its name is reserved, its stamp is no time, its name collides without leave to rename, or its profile cannot be merged or created. |
| `ImportOutcomes.EveryRecordCounts` | internal/controlplane/users_sync.go:131-270 | The four counts of a batch add up to its records, and one user is added per creation. |
| `ImportOutcomes.BatchInOrder` | internal/controlplane/users_sync.go:145-267 | Records are taken in order, each from what the ones before left. |
| a reset user is no longer due | `Traffic.LongPeriodStaysDue` | `Traffic.TickClearsTheDue` |
| a user joins sync with its earlier usage | `Traffic.ListAndToggleDiffer` | `Traffic.MembershipSeedsNothing` |
| a cursor never moves back | `RingLog.StaleCursorRewinds` | the same |

Where a comment promises more than the code does, the model follows the code: the
comment on joining sync (internal/controlplane/service.go:1974) speaks of seeding
the ingress counter from prior usage, which happens only when that counter is zero
(`Traffic.JoinSeedsAtZero`).

## Model

| member | source | states |
|---|---|---|
| `ConfigStore.Store.WriteStaged` | internal/configstore/store.go:121-140 | Writes the document and then its meta with the current revision; a failure leaves exactly the writes made before it, and the revision band survives. |
| `ConfigStore.Store.ReadLastGood` | internal/configstore/store.go:155-166 | Succeeds exactly when document and meta are both there and readable, and returns that pair. |
| `ConfigStore.Store.PromoteStaged` | internal/configstore/store.go:174-197 | Whichever of the three writes fails, the disk is the corresponding prefix, the revision band survives, a restart loads no smaller revision, and on success it loads exactly the next one. |
| `ConfigStore.CutPromoteReusesRevision` | internal/configstore/store.go:174-197 | After a cut promote the next complete one gets an unused revision if and only if the cut was not between the meta and the counter. |
| `SupervisorTheorems.StepKeepsInv` | internal/supervisor/supervisor.go:217-585 | Every step of every goroutine, every cancelled watcher and every crash keeps the joint invariant of token, store, log and revisions. |
| `SupervisorTheorems.RunInv` | internal/supervisor/supervisor.go:217-585 | That invariant holds in every state of every run. |
| `SupervisorTheorems.RunningIsLastGood` | internal/supervisor/supervisor.go:320-346 | In every interleaving, with box deaths and promotes cut after any write, a running box was started from the stored last-good bytes. |
| `SupervisorTheorems.TokenExclusive` | internal/supervisor/supervisor.go:217-245 | At most one of Apply, BootLastGood, StopBox and the restart loop is inside its token section. |
| `SupervisorTheorems.OnlyVettedIsPublished` | internal/supervisor/supervisor.go:307-346 | Every document ever published as last-good had been validated, started and probed by the very Apply that published it, and last-good is always a published document. |
| `SupervisorTheorems.RevisionsStayClose` | internal/configstore/store.go:174-196 | Through failures and crashes the counter and the last-good revision stay within one of each other, memory is never ahead of the store, and the backoff stays between 1 and 60 seconds. |
| `SupervisorTheorems.RevisionNeverFalls` | internal/supervisor/supervisor.go:150-156 | The supervisor's revision never decreases over any stretch of a run without a restart that falls back as in `UnreadableRestartFalls`. |
| `SupervisorTheorems.UnreadableRestartFalls` | internal/supervisor/supervisor.go:150-156 | A step lowers the revision if and only if it is a restart that finds no readable last-good meta and whose counter, zero if unreadable, is behind memory. |
| `SupervisorReach.FallingRestartIsReachable` | internal/supervisor/supervisor.go:150-156 | Such a restart does occur: some run of the machine reaches a state in which a restart that can read neither file falls back. |
| `SupervisorTheorems.CrashKeepsInv` | internal/supervisor/supervisor.go:133-158 | A crash at any point keeps the invariant, and what is loaded is no smaller than before when the reads work. |
| `SupervisorTheorems.NoLostUpdate` | internal/supervisor/supervisor.go:280-296 | In a run in which no promote is cut between the meta and the counter and no restart fails to read both last-good and a counter that has moved, at most one Apply conditional on revision r succeeds with a new revision, and that is r+1. |
| `SupervisorConditions.AnsweredWhenMet` | internal/supervisor/supervisor.go:280-296 | In every run, whatever fails: an Apply that returned a success or a noop had, after taking the token, found in memory the revision or the hash its condition names. |
| `SupervisorConditions.ComparisonExists` | internal/supervisor/supervisor.go:280-296 | In every state of every run an Apply past its comparison made it at an earlier step of its own, with the condition met and a non-empty document. |
| `SupervisorRuns.EndedApplyAnswers` | internal/supervisor/supervisor.go:217-268 | In every run a step ends an Apply if and only if that releases the token or meets a busy or ending supervisor; then, and only then, it is answered, with the result it carried or with its being busy. |
| `SupervisorRuns.RunningIsWatched` | internal/supervisor/supervisor.go:410-453 | In every run, while the supervisor is not shutting down, an installed box has a goroutine that waits for its death, unless such a goroutine was told to leave. |
| `SupervisorRuns.SpawnStarts` | internal/supervisor/supervisor.go:410-453 | A started goroutine gets its own number and disturbs no other, nor store or memory. |
| `SupervisorTheorems.LaterWinsMatchLater` | internal/supervisor/supervisor.go:280-296 | In any run, whatever fails: of two conditional wins the later matched at least the revision the earlier returned, or a restart that falls back lies between them. |
| `SupervisorTheorems.LostUpdateHasCause` | internal/supervisor/supervisor.go:280-296 | In any run two wins conditional on one revision have a cause: the first did not return the next revision, or a restart that falls back lies between them. |
| `SupervisorObject.WonConditionMatchesAgain` | internal/supervisor/supervisor.go:280-296 | After a conditional success its revision can be matched again if and only if the counter was one behind memory, and the success returns the next revision if and only if the two agreed. |
| `SupervisorTheorems.FailedApplyIsTransparent` | internal/supervisor/supervisor.go:271-396 | In every run an Apply that fails or is a noop and has not cut its own promote ends with the last-good document and meta it found on taking the token, and with the revision and hash too if they were those of that meta; one that has cut it leaves its own document as last-good. |
| `SupervisorTheorems.KeptUnlessCut` | internal/supervisor/supervisor.go:271-396 | At every step of every run an Apply in its token section still finds what it found on entry, or is promoting, has won, or has cut its own promote and left its own document as last-good. |
| `SupervisorObject.UncountedPromoteLosesUpdate` | internal/configstore/store.go:190-196 | After an Apply whose counter is not written and whose restore works, two Applies of different documents conditional on one and the same revision succeed, the first returning that revision and its document being overwritten. |
| `SupervisorObject.BlindRestartLosesUpdate` | internal/supervisor/supervisor.go:150-156 | Two Applies of different documents, both conditional on revision 0, succeed before and after a restart that can read neither file, and the first document is overwritten. |
| `SupervisorObject.BlindRestartMatchesZero` | internal/supervisor/supervisor.go:150-156 | After a restart that can read neither file a condition on revision 0 is met whatever the counter says. |
| `SupervisorObject.HalfPromoteMisleadsNoop` | internal/supervisor/supervisor.go:298-305 | After a promote cut at the document and a working restore, an Apply of the previous document is answered with a noop although the new one runs. |
| `SupervisorTheorems.NoopComparesRunning` | internal/supervisor/supervisor.go:298-305 | A noop verdict is right exactly when the recorded hash is that of the stored last-good document, which an undisturbed run guarantees. |
| `SupervisorTheorems.NoopMeansRunning` | internal/supervisor/supervisor.go:298-305 | An Apply that reports a noop in an undisturbed run found its own document running. |
| `SupervisorTheorems.SettlesOnVerdict` | internal/supervisor/supervisor.go:271-362 | Every Apply settles on the phase of its verdict: RolledBack, Stopped, Running, or the entry phase after a refusal. |
| `SupervisorTheorems.RestoredMeansLastGoodRuns` | internal/supervisor/supervisor.go:354-396 | An Apply that reports a restore has itself put back a box of exactly the stored last-good bytes. |
| `SupervisorTheorems.EntryExists` | internal/supervisor/supervisor.go:217-233 | A goroutine inside its token section took the token at an earlier step, from which its remembered state is. |
| `SupervisorTheorems.DecisionExists` | internal/supervisor/supervisor.go:298-305 | A noop or a restore reported by an Apply was decided at an earlier step of that Apply. |
| `SupervisorObject.Agent.constructor` | internal/supervisor/supervisor.go:133-158 | A new supervisor has the revision and hash of a readable last-good, else the counter. |
| `SupervisorObject.Agent.RestoreLastGood` | internal/supervisor/supervisor.go:381-396 | On success the box runs the stored last-good document with its revision; on failure nothing changed; either way the effect is the machine's. |
| `SupervisorObject.Agent.Launch` | internal/supervisor/supervisor.go:320-332 | The old box is taken before the new one starts, and the new one counts only if it survives the probe. |
| `SupervisorObject.Agent.Promote` | internal/supervisor/supervisor.go:334-343 | The store's promote is the machine's write steps, one by one. |
| `SupervisorObject.Agent.Check` | internal/supervisor/supervisor.go:271-312 | A non-empty document is refused for its condition exactly when the revision or the hash it names is not the one in memory; a noop and the other refusals follow in the order of the code. |
| `SupervisorObject.Agent.Enter` | internal/supervisor/supervisor.go:217-233 | The token is taken exactly when the supervisor is neither busy nor shutting down, with the entry phase remembered; the effect is the machine's first step. |
| `SupervisorObject.Agent.ApplyLocked` | internal/supervisor/supervisor.go:271-352 | Under the token: settled by the checks without a write, or carried through; the effect is the machine's up to the release. |
| `SupervisorObject.Agent.Recover` | internal/supervisor/supervisor.go:334-362 | After a failed start, probe or promote last-good runs again and the phase is RolledBack, or nothing runs and it is Stopped. |
| `SupervisorObject.Agent.Replace` | internal/supervisor/supervisor.go:314-352 | From the staging on: a failed staging leaves the files written before it and memory alone; else exactly the writes that succeed are made, and the new box runs and is last-good, or last-good runs again, or nothing runs. |
| `SupervisorObject.Agent.Apply` | internal/supervisor/supervisor.go:217-352 | Refused while busy, settled by the checks without a write, or carried through to one of three ends, as `ApplyOutcomes` spells out; and its whole effect is that of the state machine's goroutine running alone. |
| `ApplyOutcomes.PreconditionDecides` | internal/supervisor/supervisor.go:285-296 | On an idle supervisor a non-empty document is refused for its condition if and only if that names another revision or another hash than memory, and then nothing changes. |
| `ApplyOutcomes.ChecksAnswer` | internal/supervisor/supervisor.go:271-319 | When an idle Apply is a noop, invalid, or fails to be staged, in terms of the request, the memory it met and the writes; and what each leaves in memory. |
| `ApplyOutcomes.BusyTurnsAway` | internal/supervisor/supervisor.go:217-225 | Exactly a busy or ending supervisor turns an Apply away, and nothing changes. |
| `ApplyOutcomes.SwapAnswers` | internal/supervisor/supervisor.go:320-396 | Past the staging: a success needs start, probe, both reads and all three writes; else last-good is restored exactly when it can be read, started and probed; with every field of memory after each end. |
| `ApplyOutcomes.StagedFiles` | internal/configstore/store.go:121-140 | The staged files are written as far as the staging got, with the request's bytes, hash and source and the current revision. |
| `ApplyOutcomes.LastGoodFiles` | internal/configstore/store.go:174-197 | Document, meta and counter are written in this order as far as the promote got, with the next revision, which a success returns. |
| `SupervisorObject.UnsuccessfulApplyIsTransparent` | internal/supervisor/supervisor.go:271-396 | An Apply that does not succeed and whose promote is not cut keeps last-good, meta and counter, and a supervisor in step with its store keeps its revision and hash. |
| `SupervisorObject.SuccessfulApplyPublishes` | internal/supervisor/supervisor.go:334-352 | A successful Apply met its condition on revision or hash, runs the requested document, has it with its source and hash as last-good, and is one revision on. |
| `SupervisorObject.Agent.BootLastGood` | internal/supervisor/supervisor.go:513-545 | Starts last-good without a new revision; refused while the token is taken or without last-good; the whole effect is that of the machine's boot goroutine running alone. |
| `SupervisorObject.Agent.StopBox` | internal/supervisor/supervisor.go:547-567 | Stops the box and keeps revision and hash, unless the token is taken; the whole effect is that of the machine's stop goroutine running alone. |
| `SupervisorObject.Agent.Shutdown` | internal/supervisor/supervisor.go:575-585 | Whoever holds the token, the three steps of the shutdown goroutine end with nothing running; revision, hash and token stay. |
| `SupervisorObject.Agent.RestartLoop` | internal/supervisor/supervisor.go:455-511 | Ends at once while shutting down or with the token taken; else with the first attempt that works, running last-good with the backoff reset, every failure before doubling the backoff; each attempt is the machine's. |
| `SupervisorObject.BackoffIsCappedDoubling` | internal/supervisor/supervisor.go:498-503 | After n failures the wait is 2^n seconds, capped at 60. |
| `SupervisorObject.Agent.BoxDied` | internal/supervisor/supervisor.go:431-453 | The death of the installed box clears it even while another goroutine holds the token, and restarts last-good only when none does; the death of a taken or replaced box changes nothing; the effect is the machine's. |
| `Ownership.StepOwned` | internal/configowner/owner.go:96-125 | Every operation keeps active sets under control plane ownership, whichever of its writes other than the clearing hook fail. |
| `Ownership.RunOwned` | internal/controlplane/demux_groups_http.go:429-479 | The same over every run of activations, deactivations, batches, direct and subscribe claims, hub changes, set changes and boots. |
| `Ownership.ClaimBreaksOwnership` | internal/configowner/owner.go:96-125 | A claim breaks it exactly when it takes a control plane with active sets and the clearing fails. |
| `Ownership.BootReconciles` | internal/controlplane/runtime_state.go:89-134 | From any stored state a boot leaves no ownership issue: active sets only under the control plane, a control plane only when live, only stored sets active, other modes kept. |
| `Ownership.ActivateSucceeds` | internal/controlplane/service.go:2841-2901 | A successful activation adds the set to the stored active ones under control plane mode. |
| `Ownership.ActivateFails` | internal/controlplane/service.go:2886-2894 | A refused rebuild leaves the active sets as they were, and the mode idle unless the control plane was the owner. |
| `Ownership.FailedActivateKeepsOwner` | internal/controlplane/service.go:1623-1628 | Whatever write fails, a failed activation leaves the mode as it was if and only if the control plane was the owner, the activation was refused before or by its claim, or the node was idle and the release works. |
| `Ownership.FailedActivateForgetsOwner` | internal/controlplane/service.go:1623-1628 | So a refused first activation turns direct or subscribed mode into idle. |
| `Ownership.DeactivateOutcome` | internal/controlplane/service.go:2952-2993 | Deactivation removes exactly the set, ends in control plane mode exactly when something stays live, and a refused rebuild changes nothing. |
| `Ownership.RebuildOutcome` | internal/controlplane/service.go:781-785 | A rebuild keeps mode, sets and hub, takes away at most active names that are not stored, and without ownership succeeds and touches nothing. |
| `Ownership.ReleaseOutcome` | internal/controlplane/service.go:1623-1628 | The rollback of a first activation ends idle with nothing active exactly when the control plane was not the owner before, nothing is to be kept and the claim works; else nothing changes. |
| `Ownership.HubOutcome` | internal/controlplane/wg_http.go:268-294 | Enabling the hub takes the configuration; disabling it ends idle exactly when no set is active. |
| `Ownership.HubOffKeepsOwner` | internal/controlplane/wg_http.go:289-294 | Disabling the hub leaves the mode as it was if and only if the node was idle or sets stay active. |
| `Ownership.HubOffDisplacesDirect` | internal/controlplane/wg_http.go:289-294 | So disabling the hub ends direct ownership. |
| `Ownership.BatchOutcome` | internal/controlplane/demux_groups_http.go:378-415 | With every write succeeding a batch activates all of its sets or leaves the others active as before, its own names inactive even if they were active; after a rollback the mode is control plane even if it was not. |
| `OwnershipOutcomes.BatchStops` | internal/controlplane/demux_groups_http.go:378-415 | For every k at which the first activation of a batch fails, whatever else fails: the owner, and every name active exactly as the activations and the failed one left it, less those of the first k whose undo is saved. |
| `OwnershipOutcomes.StoppedBatchLeavesNothing` | internal/controlplane/demux_groups_http.go:378-415 | With the undo saved none of the first k names is active, every other stored name is active exactly if it was, and a node that was not under the control plane has nothing active. |
| `OwnershipOutcomes.BatchEnds` | internal/controlplane/demux_groups_http.go:378-415 | A batch whose activations all go through stands or falls with its one rebuild; after a refusal its names stay active only where the undo fails. |
| `OwnershipOutcomes.RollbackLeaves` | internal/controlplane/demux_groups_http.go:385-397 | The rollback loop takes away exactly the names one of whose deactivations is saved, and nothing else. |
| `OwnershipOutcomes.ActivateAnswers` | internal/controlplane/demux_groups_http.go:429-479 | An activation goes through if and only if the set is stored and supported and every write it needs succeeds. |
| `OwnershipOutcomes.ActivateAdds` | internal/controlplane/demux_groups_http.go:429-479 | One that goes through ends under the control plane with its name active and at most names that are not stored gone. |
| `OwnershipOutcomes.ActivateAppends` | internal/controlplane/demux_groups_http.go:429-479 | A set that was not active before comes last. |
| `OwnershipOutcomes.ActivateRefused` | internal/controlplane/demux_groups_http.go:429-479 | One refused at or before the claim changes nothing. |
| `OwnershipOutcomes.ActivateFailsAsOwner` | internal/controlplane/demux_groups_http.go:429-479 | One that fails later under the control plane leaves its name active only when the list cannot be put back. |
| `OwnershipOutcomes.ActivateFailsAsGuest` | internal/controlplane/demux_groups_http.go:429-479 | One that fails after taking the configuration over ends idle, or under the control plane when the release fails, with nothing active unless list and hook fail as well. |
| `OwnershipOutcomes.DeactivateAnswers` | internal/controlplane/service.go:2952-2993 | A deactivation goes through if and only if the set is not active or every write it needs succeeds. |
| `OwnershipOutcomes.DeactivateLeaves` | internal/controlplane/service.go:2952-2993 | Owner and every name after a deactivation, whichever of its writes fail. |
| `OwnershipOutcomes.HubAnswers` | internal/controlplane/wg_http.go:268-294 | Whichever writes fail: when switching the hub succeeds, and the owner, the switch and every name afterwards. |
| `OwnershipOutcomes.BootLeaves` | internal/controlplane/runtime_state.go:89-120 | Whichever writes fail: the owner and every name after a boot. |
| `OwnershipOutcomes.IssuesTell` | internal/controlplane/runtime_state.go:136-160 | No finding exactly when the control plane has something active or the hub on, and nobody else has anything active. |
| `OwnershipOutcomes.SetsGo` | internal/controlplane/service.go:2805-2839 | A set is deleted exactly when it is stored, inactive and the files work; one that is replaced is deactivated first. |
| `OwnershipOutcomes.SetComes` | internal/controlplane/service.go:2665-2700 | Storing a set touches neither owner nor active sets. |
| `OwnershipOutcomes.WithoutConcat` | internal/controlplane/service.go:1300-1308 | Removal goes through the list piece by piece, so the order of the rest stays. |
| `OwnershipOutcomes.KeptConcat` | internal/controlplane/service.go:667-697 | Cleaning goes through the list piece by piece, so the order of the rest stays. |
| `OwnershipOutcomes.DropFirstSplits` | internal/controlplane/demux_groups_http.go:236-260 | Replacing a set drops the first entry of its name and keeps the others in order. |
| `OwnershipService.Service.Claim` | internal/configowner/owner.go:96-125 | The mode in memory and in the file change together or not at all; the leave hook clears the active sets only after a persisted change. |
| `OwnershipService.Service.Scrub` | internal/controlplane/service.go:667-697 | Keeps exactly the active names that are stored, in order. |
| `OwnershipService.Service.Activate` | internal/controlplane/demux_groups_http.go:429-479 | Whatever write fails, claim, scrub, append, rebuild and the two rollbacks leave the node that `ActivateAnswers`, `ActivateAdds`, `ActivateFailsAsOwner` and `ActivateFailsAsGuest` describe. |
| `OwnershipService.Service.Deactivate` | internal/controlplane/service.go:2952-2993 | Whatever write fails, the removal, rebuild or idle claim and the restore leave the node that `DeactivateAnswers` and `DeactivateLeaves` describe. |
| `OwnershipService.Service.ActivateBatch` | internal/controlplane/demux_groups_http.go:378-415 | The activation loop stops at the first failure, rebuilds once, and undoes exactly the names activated so far: the node is that of `BatchStops` or `BatchEnds`. |
| `OwnershipService.Service.PatchHub` | internal/controlplane/wg_http.go:268-294 | The claim comes before the save and the release after the rebuild, so that `HubAnswers` and `HubOutcome` hold of the result. |
| `OwnershipService.Service.Boot` | internal/controlplane/runtime_state.go:89-120 | Scrub, clearing, orphan release and rebuild, in this order, leave the node of which `BootLeaves` and `BootReconciles` speak. |
| `OwnershipService.RemoveStr` | internal/controlplane/service.go:1300-1308 | Drops every occurrence and keeps the order. |
| `Commits.ReplayIsLastWord` | internal/controlplane/commits_http.go:219-228 | A block has a head exactly when the last commit that mentions it is no tombstone, and then that commit's hash. |
| `Commits.PrependedOk` | internal/controlplane/commits_http.go:281-294 | The new id comes first, the list has no repetition and at most the maximum length. |
| `CommitTheorems.PostKeepsLog` | internal/controlplane/commits_http.go:136-271 | A post keeps heads equal to the replay and only the pending commit open, except exactly when its saves are cut between heads and commit (with a changed head) or between commit and meta. |
| `CommitTheorems.ApplyKeepsLog` | internal/controlplane/commits_http.go:305-350 | An application keeps the same, except exactly when the final save fails and the pending mark is cleared, or unreadable heads are saved empty. |
| `CommitTheorems.CommitLogIsExact` | internal/controlplane/commits_http.go:136-421 | In every run whose files are written, with restarts: heads are the replay of the accepted commits, only the pending commit is unfinished (none when there is no pending id), and sets are active only under control plane ownership. |
| `CommitTheorems.OutcomeOwned` | internal/controlplane/commits_http.go:305-421 | An application keeps active sets under ownership if and only if it does not fail without ownership with a non-empty snapshot to restore. |
| `CommitTheorems.PersistentApplyOwned` | internal/controlplane/commits_http.go:305-421 | With all writes succeeding ownership is kept, only a refused rebuild fails a commit, and then the snapshot is back. |
| `CommitTheorems.StaleSnapshotRevives` | internal/controlplane/commits_http.go:386-391 | A failing claim after a direct takeover revives the old active sets in direct mode. |
| `CommitTheorems.FailedFirstCommitOrphans` | internal/controlplane/commits_http.go:319-329 | With all writes succeeding a failed commit leaves no ownership issue if and only if its snapshot is non-empty or the hub is on; otherwise the node is in control plane mode with nothing active, and the next boot turns it idle. |
| `CommitTheorems.AppliedCommit` | internal/controlplane/commits_http.go:355-421 | An application that gets through has the named sets active, the tombstoned ones not, and all others as before. |
| `CommitTheorems.AcceptedCommit` | internal/controlplane/commits_http.go:207-271 | An accepted post becomes the pending commit with the active sets of that moment, and changes the heads of its own blocks only. |
| `CommitOutcomes.PostAnswers` | internal/controlplane/commits_http.go:111-271 | A post is accepted if and only if it has blocks, nothing is pending, the built configuration and the heads are as it expects, its hashes are those of its bodies, every block can be stored, and the three saves work. |
| `CommitOutcomes.AcceptedPostStores` | internal/controlplane/commits_http.go:441-627 | After an accepted post a set name is stored exactly when the last of its blocks that writes the name is live. |
| `CommitOutcomes.AcceptedPostKeeps` | internal/controlplane/commits_http.go:441-627 | A name that none of its blocks writes is stored exactly if it was. |
| `CommitOutcomes.AcceptedPostLeaves` | internal/controlplane/commits_http.go:207-271 | The hub is as its block wants it, and then under the control plane; active sets stay; the new id comes first and the earlier ones follow in order. |
| `CommitOutcomes.RefusedPost` | internal/controlplane/commits_http.go:111-271 | A refused post leaves no pending mark, and commits, heads and sets exactly as far as its writes got. |
| `CommitOutcomes.SetBlockStored` | internal/controlplane/commits_http.go:479-627 | A stored set block has its name among the stored sets exactly when it is live, last in the list, and changes no other name. |
| `CommitOutcomes.HubBlockStored` | internal/controlplane/commits_http.go:441-478 | A hub block sets the switch, or keeps it when it names none, and takes the configuration when the hub is on. |
| `CommitOutcomes.AllStored` | internal/controlplane/commits_http.go:441-627 | The blocks of a commit are all stored if and only if each of them can be. |
| `CommitOutcomes.StoppedWalk` | internal/controlplane/commits_http.go:441-627 | A walk that stops at its k-th block leaves the blocks before it stored. |
| `CommitOutcomes.RecentInOrder` | internal/controlplane/commits_http.go:281-294 | A new id is put before the earlier ones, which keep their order, the oldest beyond the limit dropped. |
| `CommitOutcomes.WantedNames` | internal/controlplane/commits_http.go:355-421 | The names a commit switches are those its live, or its tombstoned, set blocks carry. |
| `CommitOutcomes.SetsSwitched` | internal/controlplane/commits_http.go:355-421 | Whichever writes fail: when the switching succeeds, and the owner and every name afterwards. |
| `CommitOutcomes.OutcomeAnswers` | internal/controlplane/commits_http.go:314-329 | An application fails with its switching or with a refused rebuild, and then the snapshot is active if it can be written. |
| `CommitOutcomes.FinishedCommit` | internal/controlplane/commits_http.go:305-350 | What the worker leaves in every commit file, whichever of its saves fail. |
| `CommitOutcomes.OtherActs` | internal/controlplane/runtime_state.go:89-120 | The other handlers and a restart leave the commit files alone; a restart reconciles the owner and loses the worker. |
| `CommitOutcomes.AddedConcat` | internal/controlplane/commits_http.go:392-410 | New names are added behind the old ones in the order walked. |
| `CommitOutcomes.DroppedConcat` | internal/controlplane/commits_http.go:392-410 | The names kept keep their order. |
| `CommitTheorems.FailedCommitRestores` | internal/controlplane/commits_http.go:319-329 | A failed commit ends marked failed with the active sets of its snapshot, heads untouched. |
| `CommitTheorems.FailureGoesBackToAcceptance` | internal/controlplane/commits_http.go:245-329 | Whatever other handlers did meanwhile, the failure puts back the active sets of the acceptance. |
| `CommitTheorems.RecentStaysShort` | internal/controlplane/commits_http.go:259-259 | Whatever fails, the recent list names at most 32 different stored commits. |
| `CommitTheorems.PendingUntilReleased` | internal/controlplane/commits_http.go:141-150 | Over any run, whatever fails, the pending mark of a commit is empty again if and only if its worker has since loaded it and written the mark. |
| `CommitTheorems.AdmittedAfterRelease` | internal/controlplane/commits_http.go:141-150 | A post admitted after a pending commit was seen has such a release behind it. |
| `CommitTheorems.StrandingStep` | internal/controlplane/commits_http.go:305-350 | A pending commit loses its worker without being released exactly by a restart, a failed load or a failed save of the mark. |
| `CommitTheorems.RestartStrands` | internal/controlplane/commits_http.go:258-271 | A restart right after an accepted post leaves the commit pending without a worker. |
| `CommitTheorems.StuckAfterRestart` | internal/controlplane/commits_http.go:141-150 | From a pending commit without a worker no run ever accepts or finishes another. |
| `CommitTheorems.BasePreventsLostUpdate` | internal/controlplane/commits_http.go:163-184 | Of two posts expecting the same hash of a block, once the first has changed it the second is refused. |
| `CommitService.PrependRecent` | internal/controlplane/commits_http.go:281-294 | The loop, with its early exit, computes the list of `PrependedOk`: newest first, no repetition, at most the maximum. |
| `CommitService.MatchesBase` | internal/controlplane/commits_http.go:153-185 | Accepts exactly the bases that the current heads meet. |
| `CommitService.UpdateHeads` | internal/controlplane/commits_http.go:219-228 | Whatever the order of the walk over the map, tombstoned blocks lose their head, the others get theirs, and unnamed heads stay. |
| `CommitService.ActivateCommitSets` | internal/controlplane/commits_http.go:355-421 | The claim, the loops over old and new names and the idle claim leave the node that `SetsSwitched` describes, whatever write fails. |
| `CommitService.ApplyCommit` | internal/controlplane/commits_http.go:314-329 | Activation, forced rebuild and restore leave the node that `OutcomeAnswers`, `OutcomeOwned` and `AppliedCommit` describe. |
| `CommitService.PersistBlock` | internal/controlplane/commits_http.go:441-462 | A set block stores or deletes the set of its name, a hub block claims the control plane and then sets the switch, and a refused block leaves the writes made before the refusal, as `SetBlockStored` and `HubBlockStored` say. |
| `CommitService.Log.Submit` | internal/controlplane/commits_http.go:111-271 | The checks, the block writes and the three saves, each of which may fail, accept exactly the posts of `PostAnswers` and leave the world of `AcceptedPostStores`, `AcceptedPostLeaves`, `AcceptedCommit` and `PostKeepsLog`. |
| `CommitService.Log.RunApply` | internal/controlplane/commits_http.go:305-350 | The load, the two saves of the commit, the heads and the pending mark, each of which may fail, leave the world of which `FinishedCommit`, `ApplyKeepsLog` and `FailedCommitRestores` speak. |
| `HeadsDigest.CanonicalInput` | internal/controlplane/commits_http.go:36-46 | Collecting, sorting and joining yield the text of which `InputIgnoresWalk` and `InputInjective` speak. |
| `HeadsDigest.InputIgnoresWalk` | internal/controlplane/commits_http.go:36-46 | The hashed text does not depend on the order in which the map is walked. |
| `HeadsDigest.LeqByFirstDifference` | internal/controlplane/commits_http.go:36-46 | The ids are sorted by their first differing character, a prefix before what it begins. |
| `HeadsDigest.InputInjective` | internal/controlplane/commits_http.go:42-46 | Maps whose ids hold no bar and whose hashes hold no bar or colon are hashed as different texts. |
| `HeadsDigest.UnmarkedInjective` | internal/controlplane/commits_http.go:42-46 | Bars are harmless in ids that hold no colon, 64 hex digits and bar in a row: maps of such ids and 64-digit hashes are hashed as different texts. |
| `HeadsDigest.BarsCollide` | internal/controlplane/commits_http.go:42-46 | The text of a single block is also that of another map of 64-digit hashes if and only if its id reads as an id, a colon, a hash, a bar and a greater id. |
| `HeadsDigest.PresetIdsCollide` | internal/controlplane/commits_http.go:441-462 | Accepted block ids can share a text: two presets, and one preset whose tag reads as both. |
| `Reality.NormalizePool` | internal/controlplane/reality.go:88-122 | Yields the normal forms with distinct keys in order, and reports a change exactly when the pool was not normal already. |
| `Reality.PoolKeyInjective` | internal/controlplane/reality.go:101-106 | Endpoints without bars in their names share a key only if they are equal, so that none is dropped for another. |
| `Reality.NormalizeIsNormal` | internal/controlplane/reality.go:26-50 | Normalising is idempotent. |
| `Reality.NormalizeFills` | internal/controlplane/reality.go:26-50 | Refused exactly without a host name or with an address for one; a given server and port are kept, missing ones filled in. |
| `Reality.NormalFormsCover` | internal/controlplane/reality.go:88-122 | The normal pool holds the first endpoint of every key and no other, and a longer pool only adds to it. |
| `Reality.FindsFirst` | internal/controlplane/reality.go:393-401 | The endpoint found by name is the first of that name. |
| `Reality.Pick` | internal/controlplane/reality.go:403-440 | The pinned name when it is offered and free, else a free one when there is any, else one of the pool. |
| `RealityAssign.Reserve` | internal/controlplane/reality.go:284-309 | A needed assignment gets its own name for a missing server and 443 for a missing port, nothing else changes; on stored assignments in order nothing does, and the marks are exactly the names in use. |
| `RealityAssign.Keep` | internal/controlplane/reality.go:318-341 | A usable assignment stays usable with its key material, and stays or moves to its pinned name exactly when that is offered and free. |
| `RealityAssign.Draw` | internal/controlplane/reality.go:342-376 | Any other inbound gets an endpoint of the pool that nobody uses, whatever the random pick. |
| `RealityAssign.AssignAll` | internal/controlplane/reality.go:310-377 | The second loop keeps names pairwise different and, from any stored state, serves every inbound from a normal pool. |
| `RealityAssign.Prune` | internal/controlplane/reality.go:378-384 | Drops exactly the assignments of inbounds that are gone. |
| `RealityAssign.EnsureAssignments` | internal/controlplane/reality.go:254-391 | From any stored state a normal pool gives every needed key, and no other, complete key material and an offered endpoint; from stored assignments in order, with room, names are pairwise different; on a good state the result is the settled one and the flag is exact. |
| `RealityAssign.FreeNameExists` | internal/controlplane/reality.go:403-427 | An inbound without a usable endpoint always finds a free name. |
| `RealityAssign.GoodStaysGood` | internal/controlplane/reality.go:284-345 | A good state stays good under further calls. |
| `RealityAssign.EachCallConverges` | internal/controlplane/reality.go:284-345 | A further call changes nothing or puts one more inbound on its pinned name; satisfied inbounds never move and secrets never change. |
| `RealityAssign.StableWhenNobodyCanMove` | internal/controlplane/reality.go:318-341 | A further call changes nothing if and only if no inbound has a pinned name other than its own that is offered and that no other has. |
| `RealityAssign.AtMostOneChangePerInbound` | internal/controlplane/reality.go:284-391 | At most as many calls as there are inbounds change anything. |
| `UserImport.UniqueImportName` | internal/controlplane/users_sync.go:289-296 | The smallest free suffix, found within the size of the index plus one tries. |
| `UserImport.StepNames` | internal/controlplane/users_sync.go:187-267 | The name index stays exact through a record if and only if the record does not revive a deleted user under its own name. |
| `UserImport.StepSyncs` | internal/controlplane/users_sync.go:146-267 | The sync index stays exact through every record, and distinct sync ids stay distinct. |
| `UserImport.StepGrows` | internal/controlplane/users_sync.go:160-230 | A matched user's revision grows strictly with each update or tombstone and never falls; no user is lost. |
| `UserImport.IndexesStayExact` | internal/controlplane/users_sync.go:135-267 | For every batch that revives nobody in place, both indexes stay exact and live names and sync ids stay distinct. |
| `UserImport.BatchGrows` | internal/controlplane/users_sync.go:135-267 | Over a whole batch no revision falls and no user is lost. |
| `UserImport.ReplaySkipsAll` | internal/controlplane/users_sync.go:160-166 | Importing a batch of live records with sync ids and revisions a second time skips every record. |
| `UserImport.RevivedNameCollides` | internal/controlplane/users_sync.go:213-224 | After a revival in place the next record can create a second live user of that name. |
| `UserImport.UserStore.BuildIndexes` | internal/controlplane/users_sync.go:135-143 | The loop leaves the last user of each sync id and of each live name, as `SyncIndexExact` and `NameIndexExact` need. |
| `UserImport.UserStore.ApplyMatched` | internal/controlplane/users_sync.go:156-231 | A matched user is skipped, tombstoned or updated, profile included, as `SkippedRecord`, `DeletedRecord`, `UpdatedRecord` and `UpdatedName` say, or the batch is refused as in `RefusedRecord`. |
| `UserImport.UserStore.AppendNew` | internal/controlplane/users_sync.go:233-267 | An unmatched record appends the user of `CreatedRecord`, under its own, a unique or a drawn name, or refuses the batch. |
| `UserImport.UserStore.Import` | internal/controlplane/users_sync.go:91-286 | A refused record or a failing save refuses the batch and keeps the users; otherwise users and counts are those of the record-by-record import, each record doing what the lemmas of `ImportOutcomes` say. |
| `WgAlloc.Allocate` | internal/controlplane/wg.go:52-59 | The smallest index of 2 to 254 that is not in use, or none exactly when all are. |
| `WgAlloc.Reserve` | internal/controlplane/wg.go:148-190 | Fails exactly when a stored index is out of range or shared, and says which. |
| `WgAlloc.EnsureWgUsers` | internal/controlplane/wg.go:148-278 | Fails for exhaustion exactly when the free indices are too few, and for a stored index only if it is out of range or shared; otherwise every user without one gets, in list order, the next smallest free index, and the flag tells exactly whether any user differs. |
| `WgAlloc.AllocationIsDistinct` | internal/controlplane/wg.go:148-278 | After a success all indices are in range and pairwise distinct, and the stored ones are kept. |
| `WgAlloc.ServedUser` | internal/controlplane/wg.go:191-278 | What every field of a user ends up as: index, keys, address, and the hub's preshared key where none is set. |
| `WgAlloc.BadKeys` | internal/controlplane/wg.go:205-240 | Keys cannot be ensured exactly when the private key is malformed or no public key can be derived where one is needed. |
| `WgAlloc.StaysMeansSame` | internal/controlplane/wg.go:191-278 | An iteration raises the flag if and only if its user differs afterwards. |
| `WgAlloc.MissingCounts` | internal/controlplane/wg.go:191-200 | The turn of a user is the number of users before it without an index. |
| `WgAlloc.SecondCall` | internal/controlplane/wg.go:148-278 | An immediate second call succeeds and reports no change. |
| `WgAlloc.FreeFromLists` | internal/controlplane/wg.go:52-59 | The free list holds exactly the untaken indices, ascending. |
| `PortPolicy.NetworksFromTraits` | internal/controlplane/port_policy.go:41-63 | At least one network, UDP exactly when a UDP trait is listed, TCP when listed or by default. |
| `PortPolicy.TraitNetworks` | internal/controlplane/port_policy.go:41-63 | UDP exactly for one of the four UDP traits in any case, TCP when asked for or without UDP. |
| `PortPolicy.SetNetworks` | internal/controlplane/port_policy.go:14-39 | A demux set occupies the networks it lists, or both when it lists none; a set of an unknown preset occupies TCP. |
| `PortPolicy.OccupiedNetworks` | internal/controlplane/port_policy.go:109-120 | Exactly the networks that some set occupies on the port. |
| `PortPolicy.PortFree` | internal/controlplane/port_policy.go:123-134 | Free exactly when no set occupies a needed network there. |
| `PortPolicy.SuggestListenPort` | internal/controlplane/port_policy.go:137-150 | The first free preferred port in the listed order, else the lowest free one of 10000 to 19999; fails exactly when no candidate is free. |
| `PortPolicy.ExhaustionNeedsManySets` | internal/controlplane/port_policy.go:137-150 | It can fail only with at least 10008 sets. |
| `PortPolicy.ValidateSet` | internal/controlplane/service.go:2439-2452 | Passes exactly when name and port are given and no other set shares a network on the port. |
| `PortPolicy.SuggestedNeverClashes` | internal/controlplane/service.go:2439-2452 | A suggested port never fails that check. |
| `PortPolicy.SetStore.Create` | internal/controlplane/service.go:2665-2700 | Appends the set exactly when its name is new, no stored set shares a network on its port, its other checks pass and the save works; else changes nothing; stored sets stay disjoint on port and network. |
| `PortPolicy.SetStore.Put` | internal/controlplane/service.go:2742-2790 | Replaces the set of that name, and no other, exactly when it exists, the new one conflicts with nobody, its other checks pass and the save works; disjointness is kept. |
| `PortPolicy.SetStore.Delete` | internal/controlplane/service.go:2805-2839 | Refused exactly for an active or unknown set or a failing save; else that set goes and all others stay in order. |
| `PortPolicy.SetStore.DeleteByName` | internal/controlplane/commits_http.go:614-627 | A tombstone removes the set of its name whether it is active or there at all; all others stay in order. |
| `PortPolicy.SetStore.PersistBlock` | internal/controlplane/commits_http.go:479-612 | A commit block replaces the set of its name on the asked or a suggested port exactly when the new set fits beside the others and the save works; else nothing is stored; disjointness is kept. |
| `PortPolicy.SetStore.InstallAll` | internal/controlplane/demux_groups_http.go:264-374 | All items are stored in order behind the sets they leave, exactly when each fits beside what is stored and created before it and every save works; else none is, and only sets that items replace are gone; disjointness is kept. |
| `PortPolicy.LandsOnce` | internal/controlplane/demux_groups_http.go:264-374 | There is at most one list of sets that the items can become. |
| `PortPolicy.ClearedMembers` | internal/controlplane/demux_groups_http.go:236-260 | The sets left are exactly the stored ones whose names no item mentions. |
| `PortPolicy.WithoutConcat` | internal/controlplane/commits_http.go:614-627 | Removal by name goes through the list piece by piece, so the order of the rest stays. |
| `PortPolicy.SetStore.InstallGroup` | internal/controlplane/demux_groups_http.go:103-188 | A demux group set goes on the asked port or on one suggested among all stored sets, the replaced one included, exactly when it then fits beside the others; a failure leaves the sets as they were or without the replaced one; disjointness is kept. |
| `PortPolicy.Place` | internal/controlplane/demux_groups_http.go:312-373 | Yields the one set the item becomes, on its own or the suggested port, exactly when that has a name, conflicts with nobody and passes its other checks. |
| `Traffic.CountersNeverGoBack` | internal/controlplane/service.go:211-328 | Over any mix of polls, resets, PATCHes, toggles, membership lists, imports and metric posts no user's (epoch, ingress) decreases. |
| `Traffic.PatchGrows` | internal/controlplane/service.go:1927-1977 | The same for one PATCH of any fields in the handler's order. |
| `Traffic.MetricsGrow` | internal/controlplane/users_sync.go:555-581 | The same for a metric post of any items. |
| `Traffic.MembershipSeedsNothing` | internal/controlplane/users_sync.go:605-650 | Of all the operations, for every user: it starts to sync with a zero ingress counter and used bytes if and only if the membership list switches on a live, used, never counted user with a sync id and a sync mode. |
| `Traffic.ListAndToggleDiffer` | internal/controlplane/users_sync.go:605-650 | Such a user joins at zero through the list where the toggle brings its usage along. |
| `Traffic.JoinSeedsAtZero` | internal/controlplane/domain/types.go:77-86 | Joining by a PATCH takes the used bytes over only into a zero ingress counter; a counter that is not zero stays. |
| `Traffic.PollsLeaveUsedToTheHub` | internal/controlplane/service.go:291-302 | Over any run of polls the used bytes of a sync-active user stay. |
| `Traffic.PollTwice` | internal/controlplane/service.go:286-313 | A poll delivered twice counts once. |
| `TrafficOutcomes.PollSets` | internal/controlplane/service.go:286-313 | After a poll every listed user's ingress counter is the total; used bytes follow unless the user is sync-active; the epoch moves by one exactly when the total is below a counter the poll sets; all else stays. |
| `TrafficOutcomes.SyncActiveMeans` | internal/controlplane/domain/types.go:51-75 | Exactly a live user with a sync id, switched on and not in local mode, takes part in sync. |
| `TrafficOutcomes.TickSets` | internal/controlplane/service.go:217-235 | A tick zeroes both counters of a due user, moves its epoch, and schedules it one period on or never; others stay. |
| `TrafficOutcomes.PeriodWraps` | internal/controlplane/service.go:227-229 | A period is its seconds times 10^9 modulo 2^64, read as signed. |
| `TrafficOutcomes.PatchSetsIdentity` | internal/controlplane/service.go:1842-1926 | Name, sync fields and schedule after a PATCH. |
| `TrafficOutcomes.PatchSetsCounters` | internal/controlplane/service.go:1927-1977 | Used bytes, ingress counter and epoch after a PATCH, in the order the handler sets them. |
| `TrafficOutcomes.PatchRefused` | internal/controlplane/service.go:1842-1926 | Refused exactly for a name or sync id of another live user, an unknown mode, or a bad time. |
| `TrafficOutcomes.ToggleSets` | internal/controlplane/users_sync.go:654-720 | What the sync toggle sets on a live user with a known mode, its usage going into a zero counter. |
| `TrafficOutcomes.MembershipSets` | internal/controlplane/users_sync.go:605-650 | The membership list sets or clears the flag by sync id, switching off before switching on, and nothing else. |
| `TrafficOutcomes.MergeSets` | internal/controlplane/users_sync.go:298-365 | An import replaces the sync fields and takes the usage over on joining. |
| `TrafficOutcomes.ItemSets` | internal/controlplane/users_sync.go:555-581 | One item reaches the last user of its sync id and sets exactly what it asks for. |
| `TrafficOutcomes.EffectiveCounts` | internal/controlplane/users_sync.go:555-581 | The number reported is that of the items that address a user and ask for something. |
| `Traffic.TickClearsTheDue` | internal/controlplane/service.go:217-235 | After a tick nobody is due exactly when the periods of the users that were due come out positive in 64-bit nanoseconds. |
| `Traffic.ShortPeriodsAdvance` | internal/controlplane/service.go:227-229 | Positive periods below 2^63 nanoseconds come out exactly. |
| `Traffic.LongPeriodStaysDue` | internal/controlplane/service.go:227-229 | A longer period can wrap, and then every tick resets the user again. |
| `Traffic.MetricsTally` | internal/controlplane/users_sync.go:555-581 | A post moves each user's epoch by its own resets and sets used bytes to the last value addressed to it, and nothing else. |
| `Traffic.TargetIsLast` | internal/controlplane/users_sync.go:546-551 | A sync id addresses the last user that holds it. |
| `Traffic.AccountStore.ApplyUsage` | internal/controlplane/service.go:272-328 | The loop polls every listed user as `PollSets` says, sync-active or not, saves all or nothing, and its flag tells exactly whether anything changed. |
| `Traffic.AccountStore.ResetDue` | internal/controlplane/service.go:211-248 | Exactly the due users are cleared and rescheduled as `TickSets` says, saved all or not at all, and the reported ids are theirs. |
| `Traffic.AccountStore.ApplyMetrics` | internal/controlplane/users_sync.go:523-590 | Through the index each item reaches the last holder of its sync id as `ItemSets` says, and the count is the number of items that address a user and ask for something. |
| `Traffic.AccountStore.PatchUser` | internal/controlplane/service.go:1832-1982 | Refused exactly as in `PatchRefused` or by a failing save; else exactly one user changes, as `PatchSetsIdentity` and `PatchSetsCounters` say. |
| `RingLog.RingIsTheTail` | internal/obs/obs.go:144-160 | The buffer always holds the last entries of the history, up to its capacity. |
| `RingLog.PagingAccountsForAll` | internal/obs/obs.go:163-193 | Chained queries return matching entries in order without repetition, and every matching entry was returned, is ahead in the buffer, or was dropped while ahead; these exclude each other. |
| `RingLog.ShortPageCatchesUp` | internal/obs/obs.go:163-193 | After a page that is not full no matching entry is left behind. |
| `RingLog.PageIsComplete` | internal/obs/obs.go:171-183 | A page leaves out only matching entries behind its last one, and only when it is full. |
| `RingLog.StaleCursorRewinds` | internal/obs/obs.go:184-191 | A query moves the cursor back if and only if it lies beyond every number given out and some were; then the page is empty and everything in the buffer is passed over. |
| `RingLog.Ring.constructor` | internal/obs/obs.go:137-142 | Starts empty, with capacity 2000 by default. |
| `RingLog.Ring.Append` | internal/obs/obs.go:144-160 | Drops the oldest entry of a full buffer and keeps the tail of the history. |
| `RingLog.Ring.Query` | internal/obs/obs.go:163-193 | Returns matching entries after the cursor, all of them or the first up to the clamped limit, and the cursor after the last of them. |

## Left out

- Integer widths: revisions, epochs, counters and sequence numbers are unbounded; the 64-bit wrap is modelled only for reset periods.
- Hashes and random tokens: SHA-256 is an injective function; commit ids are required to be new; import tokens are values that differ from all in use.
- SupervisorTheorems.NoLostUpdate: speaks of runs without skew (`SupervisorTheorems.LostUpdateHasCause` of all runs), because a promote cut between meta and counter and a restart that can read neither file do lose updates, as `SupervisorObject.UncountedPromoteLosesUpdate` and `SupervisorObject.BlindRestartLosesUpdate` show.
- SupervisorTheorems.NoopMeansRunning: stated for undisturbed runs; `SupervisorTheorems.NoopComparesRunning` is the exact condition for all runs.
- Supervisor: watchCancel is over-approximated by letting a waiting watcher leave at any time; last_apply, last_error, metrics, pull status and box start times only report and are absent.
- Supervisor: the outcomes of engine calls and of the probe are free inputs; the box itself, its close and the probe delay are not modelled.
- SupervisorObject.Agent.RestartLoop: runs without interference over a finite list of attempts; what other goroutines do between attempts is in the state machine.
- Handlers of the control plane are atomic steps; the source does not lock most of them against each other. A commit's application is a later step of its own.
- RealityAssign.EnsureAssignments: pairwise different names are stated for stored assignments that are complete and distinct in the sense of `Sound`, with room in the pool; from other states it promises usable assignments for exactly the needed keys.
- Reality: key generation, seeding of the default pool and legacy migration are left out; the IP test and the random draws are parameters.
- UserImport: credentials, sub tokens and expiry are folded into one profile value whose merge is a parameter; strings of a record are taken as trimmed.
- WgAlloc: users and their credential maps are values, so the update in place of aliases is reduced to one flag; key functions are parameters.
- WgAlloc: index uniqueness holds per call; callers pass only eligible users or one user.
- Text: lower-casing and trimming are those of ASCII.
- PortPolicy: presets appear as their trait lists; bindings, SNI and parameter validation, member ports and peer secrets are left out, as they do not touch ports.
- PortPolicy: the checks of a set that do not involve its name or port are one flag; activation of installed sets is in `Ownership`.
- Commits: the bodies of ssl, reality, dns, route and outbound blocks have no effect on this state and may only be refused; parsing of block ids is not modelled.
- Commits: the built configuration is a hash that a successful rebuild sets freely.
- Traffic: creation and hard deletion of users are absent, as they add or remove whole accounts.
- RingLog: timestamps and fields of entries are absent; level comparison folds ASCII only.
- The materializer, demux group templates, preset catalogue, HTTP plumbing, authentication, subscriptions, ACME and TLS files, smoke tests and the host port scan are not part of this model; they are foreign, plumbing, or would only add easy members.
