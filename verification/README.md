# ClassMesh in Dafny

A verified model of the parts of ClassMesh whose correctness is spread over loops, races and whole runs. `dafny verify dfyconfig.toml` checks all of it.

Four cores are modelled.

1. **The pull-request auditor's dependency engine.** A worklist computes ancestors and cycle flags, a priority-driven Kahn loop computes the review order, and the two are proved to agree on what is cyclic (`DependencyGraph`, `ReviewOrder`, `DependencyState`).
2. **The Service's request protocols.** Session tasks and one serialized loop race through queues, one-shot replies and compare-exchange cells. Each protocol is a transition system whose steps are the atomic moves of both sides, with every timeout, write failure and worker exit as a free input; the properties hold over every interleaving (`CommitCell`, `SystemActions`, `SessionIds`, `FilePull`, `PresentationStarts`, `FocusedMedia`, `FocusedSessions`, `WorkerCapabilities`).
3. **Byte-level and freshness machines.** The native telemetry reader, the file-transfer inbox, outbox and receiver, the Teacher's playback ledger, and the unicast fallback transaction (`TelemetryFraming`, `TelemetryAdmission`, `InboxStorage`, `OutboxSource`, `FileReceiver`, `PlaybackLedger`, `FallbackTransaction`).
4. **The merge-readiness decision.** Gates, reviews, base freshness, security notes and dependencies are evaluated from raw entries, and every stage of the verdict is characterised exactly in terms of those entries (`LatestPerKey`, `GatePolicy`, `BaseEvidence`, `ReviewPolicy`, `SecurityNotes`, `MergeReadiness`, `MergeDecision`, `PullAudit`).

Objects that the source updates in place are classes whose methods are proved against functions of the old state; the properties over whole runs are proved about those functions. `None` stands for a value the source treats as unknown.

Some properties one might expect turn out to hold only under a condition. Each has a lemma that exhibits the failure and one that gives the exact condition.

- All eight merge conditions can be satisfied while the stage is `BLOCKED`: a `dirty` state that is reported mergeable (`MergeDecision.DirtyButSatisfied`, `MergeDecision.ReadyMeansAllSatisfied`).
- Success of all gates does not mean that every required check succeeded. A check whose context is required again later is never evaluated (`PullAudit.ShadowedRequirementIsLost`, `PullAudit.ShadowedRequirementNeverDecides`), and one that a built-in gate stands for can have failed in another workflow (`PullAudit.CoveredCanHaveFailed`, `PullAudit.CoveredAgreesInOneWorkflow`). What success of all gates does mean is `PullAudit.AllSucceedExactly`.
- A Worker marked for the desired focused start need not play it: a start that loses its commit after it was written replaces and clears the stream, and four failed restores mark a Worker that never had it. The Service does not notice (`FocusedMedia.LostCommitSilencesTheWorker`, `FocusedMedia.AbandonedRestoreMarksASilentWorker`, `FocusedMedia.SilenceIsNeverRepaired`, `FocusedSessions.SilencedWorkerIsReachable`; exactly when it plays is `FocusedMedia.PlaysExactly`).
- Restores of a focused start are bounded by four for each arrival of a process identifier, not for each identifier, and the factor is attained (`FocusedMedia.FourRestoresForEachArrival`, `FocusedMedia.FactorIsAttained`).
- A focused start does not always end with its session, in two ways. A reconfigure can associate it with a session of a higher number, which the release then does not cover (`FocusedSessions.StartCanOutliveItsSession`, `FocusedSessions.MixingMove`). Or a later offer of the same session is refused, which gives up the owner token, and the session leaves without a release (`FocusedSessions.UnseparatedStartCanOutliveItsSession`, `FocusedSessions.LeavingReleases`). Exactly when it ends is `FocusedSessions.StartOfAnEndedSession`.
- A presentation start is confirmed by a result with equal fields, which need not answer its own write: the late result of a start whose key was cleared confirms an equal later one (`PresentationStarts.LateResultConfirmsALaterStart`). It is its own exactly when no equal start was written to that Worker since the write it answers (`PresentationStarts.OkIsForItsOwnWrite`).
- The inbox publishes exactly the accepted chunks unless a failed append left bytes behind; the receiver aborts in that case, so it never publishes such a file (`InboxStorage.TornFileIsPublished`, `InboxStorage.StorageIsFaithful`, `FileReceiver.PublishedFilesMatchTheirOffers`).
- A fallback transaction that met an action without an inverse would leave its earlier actions applied; the sender plan never prepares one (`FallbackTransaction.KeyframeLeavesAResidue`, `FallbackTransaction.PreparedIsInvertible`).

Where the auditor's code orders reviews by number in one place and by the text of their identifiers in another, the model follows the code: the two orders are separate scores of a review.

## Model

| member | source | states |
|---|---|---|
| `DependencyGraph.Reachable` | tools/classmesh-pr-audit/dependencies.py:47-54 | The growing worklist terminates and collects exactly the numbers reachable from the starting parents inside the collected set |
| `DependencyGraph.ReachedFromParents` | tools/classmesh-pr-audit/dependencies.py:48-55 | Started from a request's own parents, the worklist's result is exactly its transitive parents |
| `DependencyGraph.StuckReachesCycle` | tools/classmesh-pr-audit/dependencies.py:86-90 | In a finite set where every member has a parent inside it, every member reaches a cycle |
| `ReviewOrder.MarkCycles` | tools/classmesh-pr-audit/dependencies.py:46-61 | Recorded ancestors are the transitive closure without the request itself, and a request is flagged if and only if it reaches itself in one or more steps |
| `ReviewOrder.SelectMinimum` | tools/classmesh-pr-audit/dependencies.py:91 | The pick is the unique minimum of descending score, then number, among the eligible |
| `ReviewOrder.PickSequenceUnique` | tools/classmesh-pr-audit/dependencies.py:85-93 | Any two complete pick sequences of one graph are equal, so set iteration order cannot show |
| `ReviewOrder.TailIsUnorderable` | tools/classmesh-pr-audit/dependencies.py:87-90 | What the loop leaves over is exactly the requests on a cycle or with an ancestor on one |
| `ReviewOrder.AncestorsPickedEarlier` | tools/classmesh-pr-audit/dependencies.py:85-93 | Every transitive parent of a picked request was picked before it |
| `ReviewOrder.Prioritize` | tools/classmesh-pr-audit/dependencies.py:84-93 | The order is the unique pick sequence followed by the sorted tail, a permutation of all numbers with parents first, and the tail is exactly the unorderable requests |
| `ReviewOrder.RanksAreABijection` | tools/classmesh-pr-audit/dependencies.py:94-97 | Ranks map the request numbers one to one onto 1..n |
| `ReviewOrder.ParentOutranks` | tools/classmesh-pr-audit/dependencies.py:94-97 | Outside the tail, every transitive parent has a smaller rank than its dependent |
| `ReviewOrder.AuditOrder` | tools/classmesh-pr-audit/dependencies.py:46-93 | The reachability pass reports no cycle if and only if the Kahn loop leaves no tail; every flagged request is in the tail, and every tail member is flagged or has a flagged ancestor |
| `DependencyState.SortByFate` | tools/classmesh-pr-audit/dependencies.py:25-39 | Each considered declaration lands in exactly the list of its fate: open, verified merged, closed unmerged, unverified |
| `DependencyState.BaseOwnersAre` | tools/classmesh-pr-audit/dependencies.py:9-17 | A number is among the base owners if and only if an open request of that number has this request's base as its head branch, in the same repository after folding |
| `DependencyState.OneBaseOwner` | tools/classmesh-pr-audit/dependencies.py:16-20 | There is one base owner if and only if exactly one open request qualifies; the number of owners decides UNKNOWN |
| `DependencyState.Gather` | tools/classmesh-pr-audit/dependencies.py:12-43 | Parents are exactly the owners of a base that is not the target and the open requests among the first 32 declarations; UNKNOWN if and only if such a base has not exactly one owner, there are more declarations, or one of them is neither open, verified merged nor closed; CLEAR if and only if the base is the target and every declared parent is verified merged there |
| `DependencyState.BuildDependencies` | tools/classmesh-pr-audit/dependencies.py:7-61 | After both passes a request is CYCLE if and only if it reaches itself, UNKNOWN if and only if it does not and something about its parents is unsettled, and CLEAR if and only if all its parents are verified merged into the target |
| `CommitCell.SystemActionCommit.TryCommit` | apps/classmesh-service/src/control_runtime.rs:150-159 | Succeeds and commits exactly when the cell was pending |
| `CommitCell.SystemActionCommit.Cancel` | apps/classmesh-service/src/control_runtime.rs:161-170 | Succeeds and cancels exactly when the cell was pending |
| `CommitCell.SystemActionCommit.IsCommitted` | apps/classmesh-service/src/control_runtime.rs:172-175 | Reads whether the commit won, and changes nothing |
| `CommitCell.FirstAttemptWins` | apps/classmesh-service/src/control_runtime.rs:138-175 | In any interleaving of commit and cancel attempts exactly the first succeeds, and the cell keeps its side for good |
| `SystemActions.InvNext` | apps/classmesh-service/src/control_runtime.rs:2986-3002 | Every move of a requester or of the service loop keeps the protocol invariant |
| `SystemActions.ExecutedAtMostOnce` | apps/classmesh-service/src/main.rs:2175-2198 | In every interleaving a dispatched action runs at most once, and only after its commit |
| `SystemActions.RefusalIsFinal` | apps/classmesh-service/src/control_runtime.rs:605-618 | A requester that ended with TimedOut, Backpressure, ServiceUnavailable or Cancelled has an action that never runs in any continuation |
| `SystemActions.ReplyIsTheOutcome` | apps/classmesh-service/src/control_runtime.rs:605-618 | Once a committed action's reply is sent, it is the only outcome its requester can end with |
| `SystemActions.ExecutorOutcomeIsTrue` | apps/classmesh-service/src/main.rs:2175-2198 | An executor's outcome reaches a requester only after exactly one execution |
| `SystemActions.ReplyIsItsExecution` | apps/classmesh-service/src/main.rs:2188-2197 | The reply to a committed request is the outcome that the executor returned in the one step of the run that executed this request |
| `SystemActions.OutcomeIsItsExecution` | apps/classmesh-service/src/main.rs:2188-2197 | A requester that ends with an executor outcome got the outcome of its own execution |
| `SystemActions.SubmitsExactly` | apps/classmesh-service/src/control_runtime.rs:2986-3002 | A submission is queued if and only if the service runs and the queue is empty; otherwise it is refused at once, by the right name |
| `SystemActions.CommitsExactly` | apps/classmesh-service/src/main.rs:2175-2187 | A received request is committed if and only if it has an identifier and its requester has not timed out; otherwise it is answered as cancelled, unrun |
| `SystemActions.RestServes` | apps/classmesh-service/src/main.rs:2175-2198 | From every reachable state at rest a new request can be served, and it ends with whatever the executor returns |
| `SystemActions.LastArmUnreachable` | apps/classmesh-service/src/control_runtime.rs:605-618 | The last arm of the wait, which reports Cancelled, cannot be reached |
| `SystemActions.NoLostReply` | apps/classmesh-service/src/control_runtime.rs:605-618 | With the queue empty and the loop between dispatches, every waiting requester has a reply or an ended channel to finish with |
| `SessionIds.SessionCounter.NextSessionId` | apps/classmesh-service/src/control_runtime.rs:3735-3742 | Each call returns the next nonzero identifier of the 64-bit counter, skipping zero on wrap-around |
| `SessionIds.IdAtClosedForm` | apps/classmesh-service/src/control_runtime.rs:3735-3742 | The k-th identifier is one plus k modulo the period, wrap-around included |
| `SessionIds.IdsCollideOnlyAfterAFullPeriod` | apps/classmesh-service/src/control_runtime.rs:3735-3742 | No identifier is zero, and two sessions share one if and only if they are a multiple of the full period apart |
| `FilePull.FileTransferPullOwner.Acquire` | apps/classmesh-service/src/control_runtime.rs:313-324 | Succeeds exactly for a nonzero session when the token is free or already its own, and then the session holds it |
| `FilePull.FileTransferPullOwner.ReleaseBy` | apps/classmesh-service/src/control_runtime.rs:330-335 | Succeeds exactly when the token equals the session, and frees it |
| `FilePull.FileTransferPullOwner.IsOwner` | apps/classmesh-service/src/control_runtime.rs:326-328 | Tells whether the session holds the token, never for session zero |
| `FilePull.InvNext` | apps/classmesh-service/src/main.rs:2200-2365 | Every move of sessions and service loop keeps the ownership invariant |
| `FilePull.OwnerIsThePendingSession` | apps/classmesh-service/src/main.rs:2164-2173 | Between dispatches a nonzero owner is the session of the single pending pull |
| `FilePull.PendingIsOwnedOrOrphaned` | apps/classmesh-service/src/main.rs:2256-2361 | At every instant a pending pull's owner is its own session or nobody |
| `FilePull.NoOwnershipAfterRelease` | apps/classmesh-service/src/control_runtime.rs:1725-1727 | A session that released on disconnect never owns the pull again in any continuation |
| `FilePull.WorkIsForABoundSession` | apps/classmesh-service/src/control_runtime.rs:451-464 | The service works only on committed dispatches whose session is still waiting for the reply |
| `FilePull.OrphanIsReaped` | apps/classmesh-service/src/main.rs:2164-2173 | A pull whose session was released is dropped by the next loop iteration, and the slot is free |
| `FilePull.CommitsExactly` | apps/classmesh-service/src/main.rs:2200-2213 | A received dispatch is worked on if and only if it has a request identifier and its session has not taken it back |
| `FilePull.HandleExactly` | apps/classmesh-service/src/main.rs:2256-2361 | The work on a dispatch takes the token exactly for a pull request while none is pending, drops the pending pull and frees the token exactly for a report that ends it, and otherwise touches neither |
| `FilePull.OfferExactly` | apps/classmesh-service/src/main.rs:2262-2289 | An acquired pull becomes the pending one, with its own dispatch's fields, if and only if the source accepts it; otherwise the token is freed |
| `FilePull.RestGrants` | apps/classmesh-service/src/main.rs:2256-2289 | From every reachable state at rest without a pending pull, every ready session can have its pull granted |
| `PresentationStarts.InvNext` | apps/classmesh-service/src/main.rs:2697-2939 | Every step keeps: at most one slot occupied, its dispatch unanswered, no dispatch answered twice |
| `PresentationStarts.OneStartAtATime` | apps/classmesh-service/src/main.rs:2697-2939 | In every reachable state the multicast and unicast slots are not both occupied, and no dispatch got two answers |
| `PresentationStarts.AnswersExactly` | apps/classmesh-service/src/main.rs:2697-2939 | In every run a requester gets an answer if and only if the cause of that very answer occurs: busy, cancelled, unavailable, cleared key, restarted, exited, rejected or started |
| `PresentationStarts.NoneForgotten` | apps/classmesh-service/src/main.rs:2697-2939 | Over every run each dispatch is answered, pending, or abandoned by its requester |
| `PresentationStarts.SlotHasADispatch` | apps/classmesh-service/src/main.rs:2801-2838 | A pending start comes from one committed, written dispatch to the running Worker of its generation, has held its slot ever since, and its key was not cleared |
| `PresentationStarts.OkComesFromAMatchingResult` | apps/classmesh-service/src/main.rs:2737-2799 | Ok is answered only by a Started result repeating process, session, request, presentation and stream of its own dispatch, with the same running Worker and generation |
| `PresentationStarts.OkIsForItsOwnWrite` | apps/classmesh-service/src/main.rs:258-266 | The Ok brought by a Worker's answer to one write goes to the requester of that write if and only if no equal start was written to that Worker since |
| `PresentationStarts.LateResultConfirmsALaterStart` | apps/classmesh-service/src/main.rs:2737-2799 | For every start and Worker, a run in which the first requester is told its key was cleared and the Worker's answer to that write confirms the same start sent again |
| `PresentationStarts.SameGenerationMeansNoLaunch` | apps/classmesh-service/src/main.rs:372-373 | An unchanged generation below saturation means no Worker was launched in between |
| `PresentationStarts.GenerationCountsLaunches` | apps/classmesh-service/src/main.rs:372-373 | The generation is the number of launches, up to the greatest 64-bit number and never past it |
| `PresentationStarts.ClearCancelsExactBindingOnly` | apps/classmesh-service/src/main.rs:2572-2597 | A key clear cancels a pending start if and only if it names that start's exact key binding, and changes nothing else |
| `FocusedMedia.InvNext` | apps/classmesh-service/src/main.rs:2965-3170 | Every step keeps the invariant that ties desired start, session, floor and marked Worker together |
| `FocusedMedia.DesiredIsAboveTheFloor` | apps/classmesh-service/src/main.rs:2965-3041 | A desired start or profile always has a session above every released session seen so far |
| `FocusedMedia.FloorNeverDrops` | apps/classmesh-service/src/main.rs:2965-2984 | The released-session floor never goes down |
| `FocusedMedia.FloorIsTheGreatestRelease` | apps/classmesh-service/src/main.rs:2965-2984 | Over every run the floor is the greatest release observed, whatever each of them ended |
| `FocusedMedia.NothingIsCarriedOver` | apps/classmesh-service/src/main.rs:2965-3008 | An accepted start and a release leave nothing of what was desired, marked or counted before |
| `FocusedMedia.AttemptsFit` | apps/classmesh-service/src/main.rs:3080-3170 | The three retry counters never leave eight bits |
| `FocusedMedia.PlaysExactly` | apps/classmesh-service/src/main.rs:2986-3100 | Over every run the current Worker plays the desired start if and only if the last step that touched its stream established it: an accepted start or a restore it can open, or a lost start that repeats the desired one and was not cleared |
| `FocusedMedia.MarkHolds` | apps/classmesh-service/src/main.rs:2993-3100 | After a delivered start or restore the marked Worker keeps playing the desired start as long as no start loses its commit, no process changes and no stream fails |
| `FocusedMedia.LostCommitSilencesTheWorker` | apps/classmesh-service/src/main.rs:2993-3016 | A start that is written but loses its commit leaves the earlier start desired and marked while the Worker plays nothing |
| `FocusedMedia.AbandonedRestoreMarksASilentWorker` | apps/classmesh-service/src/main.rs:3080-3098 | Four failed restores mark a Worker that was never given the start |
| `FocusedMedia.SilenceIsNeverRepaired` | apps/classmesh-service/src/main.rs:3064-3100 | Once a marked Worker does not play the desired start, no restore is sent until the process changes or another start is delivered |
| `FocusedMedia.FeedbackIsBound` | apps/classmesh-service/src/main.rs:3043-3062 | Feedback is forwarded only for the associated session, above every floor seen, and the desired stream, to the marked Worker; that Worker has the stream open if and only if the last touch established it |
| `FocusedMedia.FeedbackExactly` | apps/classmesh-service/src/main.rs:3043-3062 | Feedback is forwarded if and only if it is of the associated session, for the desired stream, and the current Worker is the marked one |
| `FocusedMedia.AtMostFourRestores` | apps/classmesh-service/src/main.rs:3064-3100 | While one Worker stays current, at most four restores are sent, whatever is dispatched meanwhile |
| `FocusedMedia.FourRestoresForEachArrival` | apps/classmesh-service/src/main.rs:3064-3100 | Over a whole run, one process identifier is sent at most four restores for each time it became the current Worker |
| `FocusedMedia.FactorIsAttained` | apps/classmesh-service/src/main.rs:3064-3100 | For every k there is a run with k arrivals of one identifier and exactly 4k restores to it |
| `FocusedMedia.DesiredProfileExactly` | apps/classmesh-service/src/main.rs:2965-3041 | Over every run the desired profile is that of the last accepted reconfigure, if and only if no accepted start and no release followed |
| `FocusedMedia.ProfileIsOfTheSession` | apps/classmesh-service/src/main.rs:3026-3041 | The desired profile belongs to the session associated since that reconfigure |
| `FocusedMedia.AtMostFourProfileWrites` | apps/classmesh-service/src/main.rs:3134-3170 | At most four profile writes are made between two events that call for one |
| `FocusedMedia.WrittenProfileIsNotRepeated` | apps/classmesh-service/src/main.rs:3134-3170 | A profile that was written is not written again until a reconfigure, a restored start or a new Worker calls for it |
| `FocusedMedia.RenewalCallsForTheProfile` | apps/classmesh-service/src/main.rs:3026-3170 | A reconfigure, a restored start and a newly running Worker each call for the desired profile to be written, the first and the last with the full four attempts |
| `FocusedMedia.CalledForProfileIsSent` | apps/classmesh-service/src/main.rs:3134-3170 | While the marked Worker is not marked for the profile, a due write is made and its failure counted |
| `FocusedMedia.AtMostFourClears` | apps/classmesh-service/src/main.rs:3102-3132 | A release is followed by at most four clears until the next release or newly running Worker |
| `FocusedSessions.LoopIsARun` | apps/classmesh-service/src/main.rs:2965-3226 | Every run of sessions, queues and loop is a run of the loop, so the FocusedMedia results hold in it |
| `FocusedSessions.InvMoved` | apps/classmesh-service/src/control_runtime.rs:2386-2475 | Every move of a session or of the loop keeps the token, dispatch and history invariant |
| `FocusedSessions.OneLiveStart` | apps/classmesh-service/src/control_runtime.rs:809-834 | At most one start dispatch can still be committed, and its session holds the owner token |
| `FocusedSessions.OwnerIsPresent` | apps/classmesh-service/src/control_runtime.rs:1716-1733 | A waiting session always holds the token, and a session that left never does |
| `FocusedSessions.MixingMove` | apps/classmesh-service/src/main.rs:3026-3041 | A move separates the desired start from the associated session exactly when the loop takes a queued reconfigure of a session above the one that started |
| `FocusedSessions.SeparatedSessionsBothStarted` | apps/classmesh-service/src/control_runtime.rs:2552-2574 | Both sessions of a separated start had a start accepted, and the associated one has the greater number |
| `FocusedSessions.LeavingReleases` | apps/classmesh-service/src/control_runtime.rs:1728-1732 | A leaving session goes on to publish a release if and only if a start of it was accepted and it gave up the token on no refused offer since |
| `FocusedSessions.SendsExactly` | apps/classmesh-service/src/control_runtime.rs:2552-2574 | A reconfigure or feedback of a session is queued if and only if the session is idle, a start of it was accepted and it gave up the token on no refused offer since |
| `FocusedSessions.EndedSessionPublished` | apps/classmesh-service/src/control_runtime.rs:2468-2470 | Of the ended sessions with an accepted start, exactly those that gave up the token afterwards published nothing |
| `FocusedSessions.ReleaseEndsTheStart` | apps/classmesh-service/src/main.rs:2965-2984 | At every loop top with a desired start, the loop ends it if and only if the published floor is new and covers the associated session |
| `FocusedSessions.FloorReaches` | apps/classmesh-service/src/control_runtime.rs:1728-1732 | The published floor reaches a session if and only if one of at least its number left with the token |
| `FocusedSessions.StartOfAnEndedSession` | apps/classmesh-service/src/main.rs:2965-2984 | The desired start of an ended session ends if and only if that session is still the associated one and kept its token, or a later session that reaches the associated one left with the token |
| `FocusedSessions.SilencedWorkerIsReachable` | apps/classmesh-service/src/control_runtime.rs:2417-2475 | The silenced Worker is reached by a second start of one session that times out while queued |
| `FocusedSessions.StartCanOutliveItsSession` | apps/classmesh-service/src/control_runtime.rs:2386-2475 | A reachable state in which a start is desired and played although its session has ended and the release was observed |
| `FocusedSessions.UnseparatedStartCanOutliveItsSession` | apps/classmesh-service/src/control_runtime.rs:2386-2475 | A reachable state of one session whose start is desired and played although it has ended: a refused second offer gave up the token, so nothing was released |
| `WorkerCapabilities.WorkerCapabilityState.ActivateWorker` | apps/classmesh-service/src/control_runtime.rs:854-862 | Activation replaces the snapshot by the new identity with no flags |
| `WorkerCapabilities.WorkerCapabilityState.ClearWorker` | apps/classmesh-service/src/control_runtime.rs:864-866 | Forgets the Worker and every flag |
| `WorkerCapabilities.WorkerCapabilityState.ClearReportIfCurrent` | apps/classmesh-service/src/control_runtime.rs:876-891 | Clears the flags exactly for the current Worker |
| `WorkerCapabilities.WorkerCapabilityState.ApplyH264Qualification` | apps/classmesh-service/src/control_runtime.rs:893-915 | Writes the qualification exactly for the current Worker |
| `WorkerCapabilities.WorkerCapabilityState.ApplyReport` | apps/classmesh-service/src/control_runtime.rs:917-950 | Writes the reported flags exactly when generation, process and session are the current Worker's |
| `WorkerCapabilities.WorkerCapabilityState.HelloCapabilities` | apps/classmesh-service/src/control_runtime.rs:979-997 | The advertised set, with UDP unicast exactly when a live Worker has both flags |
| `WorkerCapabilities.FlagsAreTheCurrentWorkersOwn` | apps/classmesh-service/src/control_runtime.rs:844-997 | After any run, each flag is the value last written by the current Worker's own events since its activation |
| `WorkerCapabilities.StaleEventsLeaveNoTrace` | apps/classmesh-service/src/control_runtime.rs:876-950 | Deleting an event of any other Worker from the middle of a run changes nothing |
| `WorkerCapabilities.Advertise` | apps/classmesh-service/src/control_runtime.rs:979-997 | UDP unicast is offered exactly when the live Worker's own latest events claim both capture and encode |
| `TelemetryFraming.Listener.TakeTurn` | apps/classmesh-service/src/telemetry_native.rs:260-307 | One loop iteration ends for exactly the reason its checks give, or counts exactly the chunk read and settles the block it completes |
| `TelemetryFraming.RunOneListener` | apps/classmesh-service/src/telemetry_native.rs:245-309 | The loop takes turns up to the first that ends it; it has then been handed exactly the bytes of those turns and settled exactly their complete blocks |
| `TelemetryFraming.FatesAreBlocks` | apps/classmesh-service/src/telemetry_native.rs:260-307 | Every complete 136-byte block handed over has exactly one fate, in order: published whole and in time, or dropped whole |
| `TelemetryFraming.HandedOverIsTheSum` | apps/classmesh-service/src/telemetry_native.rs:260-307 | For chunks that fit their frames, what is handed over is the sum of the chunks |
| `TelemetryFraming.SplittingDoesNotMatter` | apps/classmesh-service/src/telemetry_native.rs:260-307 | Two undisturbed runs handed equally many bytes settle the same blocks with the same data however the stream was split |
| `TelemetryAdmission.ServiceTelemetryReader.ArmPipe` | apps/classmesh-service/src/telemetry_native.rs:99-142 | Arming mints the next incarnation and changes nothing when any check fails |
| `TelemetryAdmission.ServiceTelemetryReader.Retire` | apps/classmesh-service/src/telemetry_native.rs:159-162 | Leaves nothing armed, and keeps the last incarnation used |
| `TelemetryAdmission.ServiceTelemetryReader.SyncCurrent` | apps/classmesh-service/src/telemetry_native.rs:144-157 | Retires exactly when the current binding is no longer the armed one |
| `TelemetryAdmission.InvNext` | apps/classmesh-service/src/telemetry_native.rs:186-242 | Every step of service, mailbox and reader thread keeps the admission invariant |
| `TelemetryAdmission.AdmittedReportsAreCurrentAndFresh` | apps/classmesh-service/src/telemetry_native.rs:186-242 | Each admitted report is a block read by the listener of the incarnation armed at admission, and is under two seconds old at the final check |
| `TelemetryAdmission.AdmittedBlocksAdvance` | apps/classmesh-service/src/telemetry_native.rs:186-242 | Within one incarnation admitted blocks strictly advance |
| `TelemetryAdmission.RetiredStaysRetired` | apps/classmesh-service/src/telemetry_native.rs:22-61 | A retired incarnation is never armed or live again, even after re-arming the same identity |
| `TelemetryAdmission.DrainExactly` | apps/classmesh-service/src/telemetry_native.rs:186-242 | In every reachable state a waiting report is admitted if and only if its arm is the armed one, a Worker is present and granted that very identity, and it is under two seconds old at both checks; nothing else is ever added |
| `TelemetryAdmission.PublishExactly` | apps/classmesh-service/src/telemetry_native.rs:245-310 | In every reachable state a complete frame in time enters an empty mailbox with its own bytes, is dropped before a full one, and ends the listener when it is too old |
| `TelemetryAdmission.AgeIsFromTheFirstByte` | apps/classmesh-service/src/telemetry_native.rs:245-310 | The age of every admitted report counts from the reading of the first byte of its block |
| `TelemetryAdmission.EveryReportCanBeAdmitted` | apps/classmesh-service/src/telemetry_native.rs:99-242 | From every reachable state at rest, every 136-byte report of every identity is admitted by some run |
| `InboxStorage.TransferIdStem` | apps/classmesh-service/src/file_transfer_storage.rs:357-365 | The loop builds the two-digit hexadecimal stem of the identifier |
| `InboxStorage.StemIsInjective` | apps/classmesh-service/src/file_transfer_storage.rs:357-365 | Distinct identifiers have distinct stems |
| `InboxStorage.PathsNeverCollide` | apps/classmesh-service/src/file_transfer_storage.rs:201-209 | Distinct identifiers never share a partial or published path, and no partial path is a published one |
| `InboxStorage.WindowsFileTransferInboxSink.BeginTransfer` | apps/classmesh-service/src/file_transfer_storage.rs:245-275 | The sink after begin, with every refusal |
| `InboxStorage.WindowsFileTransferInboxSink.AppendChunk` | apps/classmesh-service/src/file_transfer_storage.rs:277-302 | The sink after append, including the bytes a failed write left behind |
| `InboxStorage.WindowsFileTransferInboxSink.CompleteTransfer` | apps/classmesh-service/src/file_transfer_storage.rs:304-333 | The sink after complete, with incomplete, sync and rename failures |
| `InboxStorage.WindowsFileTransferInboxSink.AbortTransfer` | apps/classmesh-service/src/file_transfer_storage.rs:335-346 | Removes the partial file of exactly the named active transfer |
| `InboxStorage.InvNext` | apps/classmesh-service/src/file_transfer_storage.rs:242-346 | Every operation keeps: originals untouched, one partial file, published files as recorded |
| `InboxStorage.StorageIsFaithful` | apps/classmesh-service/src/file_transfer_storage.rs:242-346 | Over any run the partial file is the concatenated accepted chunks with length next_offset, a published file is its chunks with exactly the declared size if and only if nothing was torn, and no earlier file changes |
| `InboxStorage.TornFileIsPublished` | apps/classmesh-service/src/file_transfer_storage.rs:277-333 | A failed append that left a byte, then the same offset again and a completion, publish a file longer than declared |
| `InboxStorage.NothingTornWithoutErrors` | apps/classmesh-service/src/file_transfer_storage.rs:277-302 | Without a failed write no published transfer and no partial file is ever torn |
| `OutboxSource.WindowsFileTransferOutboxSource.ReadAt` | apps/classmesh-service/src/file_transfer_storage.rs:140-175 | Returns exactly the bytes at the offset, as many as asked for and available, and refuses an altered file size |
| `OutboxSource.WindowsFileTransferOutboxSource.EnsureRegistered` | apps/classmesh-service/src/file_transfer_storage.rs:109-118 | Registers on first use, from the identifier's own staged path only |
| `OutboxSource.TransferFile` | apps/classmesh-service/src/file_transfer_storage.rs:140-333 | Repeated reads and appends terminate for any permitted read sizes, complete succeeds, and the published file equals the source byte for byte |
| `FileReceiver.InvFinish` | crates/classmesh-control/src/file_transfer_receiver.rs:152-184 | Finishing keeps receiver and sink in agreement, and aborts on a wrong digest |
| `FileReceiver.InvRun` | crates/classmesh-control/src/file_transfer_receiver.rs:79-225 | Receiver and sink agree on the one active transfer after any run of messages |
| `FileReceiver.PublishedFilesMatchTheirOffers` | crates/classmesh-control/src/file_transfer_receiver.rs:79-225 | Every published file has the size and digest of its offer, also when writes fail |
| `FileReceiver.InboxHoldsNothingElse` | crates/classmesh-control/src/file_transfer_receiver.rs:79-225 | Every new file is a completed transfer's or the active one's partial file |
| `FileReceiver.EveryFileCanBeReceived` | crates/classmesh-control/src/file_transfer_receiver.rs:79-184 | From every reachable idle state every acceptable file gets through, however it is cut into chunks, and is published with exactly its own bytes |
| `FileReceiver.RepliesMean` | crates/classmesh-control/src/file_transfer_receiver.rs:79-204 | In every reachable state a reply says what happened: progress the bytes accepted so far, completion the published offer, cancellation the bytes thrown away, and a refusal publishes nothing |
| `FileReceiver.OnlyItsOwnPeer` | crates/classmesh-control/src/file_transfer_receiver.rs:122-204 | A message of another peer or another transfer changes nothing and is refused |
| `FileReceiver.CompletedIsFinal` | crates/classmesh-control/src/file_transfer_receiver.rs:98-118 | Every later offer of a published transfer's identifier is refused, for good |
| `FileReceiver.EndedIsRefused` | crates/classmesh-control/src/file_transfer_receiver.rs:206-212 | Until sixteen transfers have ended after it, the identifier of an ended transfer is refused to everybody |
| `PlaybackLedger.TeacherPlaybackDiagnosticLedger.AcceptFromAuthenticatedControl` | apps/classmesh-teacher/src/receiver_playback_diagnostics.rs:80-151 | The first failing check names the error and nothing changes; otherwise the counters and the outer sequence are recorded |
| `PlaybackLedger.TeacherPlaybackDiagnosticLedger.Revoke` | apps/classmesh-teacher/src/receiver_playback_diagnostics.rs:154-162 | Only the exact binding revokes, and then everything is cleared |
| `PlaybackLedger.TeacherPlaybackUiProjection.AcceptAuthenticated` | apps/classmesh-teacher/src/receiver_playback_ui.rs:52-70 | A clock regression is refused before the ledger is touched; an acceptance records its time |
| `PlaybackLedger.TeacherPlaybackUiProjection.Visible` | apps/classmesh-teacher/src/receiver_playback_ui.rs:76-89 | Shows nothing for another source, before reception or after ten seconds |
| `PlaybackLedger.TeacherPlaybackUiProjection.Revoke` | apps/classmesh-teacher/src/receiver_playback_ui.rs:92-103 | Needs the own source and the exact live binding |
| `PlaybackLedger.TryNewProjection` | apps/classmesh-teacher/src/receiver_playback_ui.rs:28-38 | A projection exists if and only if no part of its binding is zero |
| `PlaybackLedger.RunSummary` | apps/classmesh-teacher/src/receiver_playback_ui.rs:52-103 | Over every run accepted outer sequences and (generation, sequence) pairs strictly increase, reception times never go back, and the state is the last accepted report until the exact disconnect |
| `PlaybackLedger.AcceptedExactlyWhenNewer` | apps/classmesh-teacher/src/receiver_playback_diagnostics.rs:80-151 | After any run a report is accepted if and only if the binding is live, the report is well formed for it, and it is newer than every accepted one |
| `PlaybackLedger.RejectionChangesNothing` | apps/classmesh-teacher/src/receiver_playback_ui.rs:52-103 | A rejected report or a foreign disconnect leaves the projection as it was |
| `PlaybackLedger.VisibleIsTheLastAccepted` | apps/classmesh-teacher/src/receiver_playback_ui.rs:76-89 | After any run, a sample is visible if and only if it is the last accepted one, for the selected own source, at most ten seconds old |
| `PlaybackLedger.HistoryIsGenuine` | apps/classmesh-teacher/src/receiver_playback_diagnostics.rs:80-151 | Every accepted report came in as an event, well formed for the binding |
| `FallbackTransaction.VideoRuntime.ApplyDirective` | apps/classmesh-worker/src/presentation_multicast_send.rs:180-208 | Attach and detach change the runtime only for a free slot or the exact binding, are no-ops when already done, and refuse occupied or stale slots |
| `FallbackTransaction.InverseUndoes` | apps/classmesh-teacher/src/lib.rs:511-525 | The inverse of a changing action restores the runtime exactly |
| `FallbackTransaction.RollbackApplied` | apps/classmesh-teacher/src/lib.rs:487-499 | The reverse loop is the rollback function |
| `FallbackTransaction.RollbackRestores` | apps/classmesh-teacher/src/lib.rs:487-509 | Undoing applied actions newest first restores the original runtime unless an undo call itself fails; the no-change error cannot occur |
| `FallbackTransaction.ApplyActions` | apps/classmesh-teacher/src/lib.rs:463-478 | The action loop with its rollback is the transaction function |
| `FallbackTransaction.TransactIsAllOrNothing` | apps/classmesh-teacher/src/lib.rs:457-485 | For every action list and every pattern of failures: all actions applied and the changing ones counted, or the runtime as before, or an undo call failed, or an action had no inverse |
| `FallbackTransaction.CommitsExactly` | apps/classmesh-teacher/src/lib.rs:463-478 | With working calls the loop commits if and only if every action has an inverse and none is refused |
| `FallbackTransaction.KeyframeLeavesAResidue` | apps/classmesh-teacher/src/lib.rs:467-469 | An action without an inverse after an attach leaves the attach in place |
| `FallbackTransaction.PreparedIsInvertible` | crates/classmesh-control/src/presentation_sender_plan.rs:110-150 | A prepared target has only invertible actions, and its commit to the same plan cannot fail |
| `FallbackTransaction.PreparesExactly` | crates/classmesh-control/src/presentation_sender_plan.rs:110-150 | A receiver of the plan can always be prepared, a new one if and only if there is room and a slot number left |
| `FallbackTransaction.NotRefusedExactly` | apps/classmesh-worker/src/presentation_multicast_send.rs:180-208 | From an agreeing state the prepared actions are refused if and only if the sender configuration refuses an endpoint |
| `FallbackTransaction.AgreementIsKept` | crates/classmesh-control/src/presentation_sender_plan.rs:110-186 | When the runtime has attached exactly what the plan records, each prepared action changes it and it agrees with the committed plan again |
| `FallbackTransaction.ApplyUnicastTarget` | apps/classmesh-teacher/src/lib.rs:457-485 | Success is the fold of all actions with the number that changed state and a committed plan; any failure leaves the plan, and with working undo calls the runtime, exactly as before; agreement of plan and runtime is kept; from an agreeing state with working calls it succeeds if and only if the target can be prepared and the configuration takes it |
| `LatestPerKey.BestIsTheWinner` | tools/classmesh-pr-audit/policy.py:163-169 | Keeping the greater of each key leaves, for each key, the first entry of the greatest score, and no entry only where none qualified |
| `LatestPerKey.SortedLastIsLatest` | tools/classmesh-pr-audit/policy.py:302-307 | Overwriting in stably sorted order leaves, for each key, the kept entry of the greatest score, the last of them in the list, and none only where none is kept |
| `GatePolicy.CollectLatest` | tools/classmesh-pr-audit/policy.py:157-169 | The loop over the runs computes the latest run of each workflow path |
| `GatePolicy.SelectChecks` | tools/classmesh-pr-audit/policy.py:170-207 | The loop over the checks computes the selected check of each name |
| `GatePolicy.EvaluateGate` | tools/classmesh-pr-audit/policy.py:151-221 | The gate of a target, including unknown sources and a newer run without results |
| `GatePolicy.ListedRunIsCurrent` | tools/classmesh-pr-audit/policy.py:163-169 | A kept run is a pull-request run of this head that no relevant run of its path supersedes |
| `GatePolicy.EvidenceIsTheWinners` | tools/classmesh-pr-audit/policy.py:185-211 | The evidence is exactly the acceptable checks with the greatest id of their name |
| `GatePolicy.GateExactly` | tools/classmesh-pr-audit/policy.py:131-221 | A gate with known sources is FAILED if and only if a winning check completed with a failing conclusion, else PENDING if and only if one is unfinished or, without any, a current run is, SUCCESS if and only if there is a winning check and every one completed with success, and UNKNOWN otherwise |
| `GatePolicy.SuccessRestsOnCurrentEvidence` | tools/classmesh-pr-audit/policy.py:151-221 | A successful gate has nonempty evidence, all of checks that completed with success, on the head, from the trusted and required application, bound to the greatest (id, attempt) run of its path and its current attempt |
| `BaseEvidence.ValidateBase` | tools/classmesh-pr-audit/execution_evidence.py:111-171 | The nested loops compute the freshness of the base |
| `BaseEvidence.BaseAcceptedExactly` | tools/classmesh-pr-audit/execution_evidence.py:126-171 | The base is accepted if and only if nothing changed during collection and every gate has evidence, each piece proved to have run a merge of the current base and the head, or the head alone where the rule is explicitly off |
| `BaseEvidence.AttestedExactly` | tools/classmesh-pr-audit/execution_evidence.py:139-149 | A proof identifies a check if and only if it is a checkout log of this head, and the first check and the first run it names belong together, the run of this head |
| `BaseEvidence.BaseStaleExactly` | tools/classmesh-pr-audit/execution_evidence.py:150-167 | The base is INTEGRATION_STALE if and only if the evidence of some gate was all observed and some of it ran a merge with another base than the known tip |
| `BaseEvidence.StrictBaseMeansIntegration` | tools/classmesh-pr-audit/execution_evidence.py:150-170 | Unless strict checks are explicitly false, an accepted base is INTEGRATION_CURRENT and every observation ran a two-parent merge of the current base and the head |
| `ReviewPolicy.TallyReviews` | tools/classmesh-pr-audit/policy.py:294-319 | One entry for each reviewer: independent if and only if their latest opinion approves the head, they are none of author, owner and viewer, and they may write; objections and unknown permissions likewise |
| `ReviewPolicy.OpinionsAre` | tools/classmesh-pr-audit/policy.py:302-307 | For each folded login exactly its latest opinion is kept: by time, then by identifier, then by place in the list |
| `SecurityNotes.CollectNotes` | tools/classmesh-pr-audit/security_notes.py:16-113 | A note of each class exists if and only if a text, thread, review, alert or missing source calls for it |
| `SecurityNotes.AssessSecurity` | tools/classmesh-pr-audit/security_notes.py:110-120 | The worst class decides, and the confirmed count is positive exactly for a confirmed blocker |
| `SecurityNotes.ClearExactly` | tools/classmesh-pr-audit/security_notes.py:16-120 | Clear if and only if every source is known, everything that mentions security is settled, no sensitive path is touched and both scans succeeded |
| `SecurityNotes.WithdrawnExactly` | tools/classmesh-pr-audit/security_notes.py:69-84 | A change request is resolved if and only if its author's latest opinion, by time and the text of its identifier, approves or is dismissed |
| `SecurityNotes.ConfirmedExactly` | tools/classmesh-pr-audit/security_notes.py:64-113 | A confirmed blocker if and only if a change request about security stands on the head from an independent writer, or an alert is open on the head or its merge |
| `SecurityNotes.UnknownExactly` | tools/classmesh-pr-audit/security_notes.py:16-113 | Unknown if and only if nothing is confirmed and a source is missing, a text that mentions security has no trusted link, or an alert is neither settled nor open on the head |
| `MergeDecision.GateFindings` | tools/classmesh-pr-audit/policy.py:284-293 | The loop over the gates raises exactly their blockers and gaps |
| `MergeDecision.PullReport.constructor` | tools/classmesh-pr-audit/policy.py:224-383 | The blockers and gaps of the first evaluation |
| `MergeDecision.ReopenedIn` | tools/classmesh-pr-audit/policy.py:336-417 | The three blockers and the gap of the first evaluation that the second decides anew, each exactly when its own cause holds |
| `MergeDecision.PullReport.Enrich` | tools/classmesh-pr-audit/decisions.py:17-123 | The final blockers, gaps, stage, conditions and action |
| `MergeDecision.NoGapsExactly` | tools/classmesh-pr-audit/decisions.py:24-68 | The evidence is complete if and only if nothing is unknown |
| `MergeDecision.FinalBlockersIn` | tools/classmesh-pr-audit/decisions.py:22-68 | Each blocker stands at the end exactly when its own cause holds |
| `MergeDecision.ReadyExactly` | tools/classmesh-pr-audit/decisions.py:85-95 | READY_FOR_MERGE if and only if every demand is met |
| `MergeDecision.BlockedExactly` | tools/classmesh-pr-audit/decisions.py:71-86 | BLOCKED if and only if the request is a draft or in conflict, a gate failed or is pending, someone objects, a thread is open, changes are requested, the base is stale, a blocker is confirmed, or unclear dependencies have a parent or a cycle |
| `MergeDecision.StagesExactly` | tools/classmesh-pr-audit/decisions.py:82-95 | When nothing stops the request: UNKNOWN if and only if something is unknown, else a review stage if and only if a review is open, the final one if and only if an independent approval exists |
| `MergeDecision.ActionExactly` | tools/classmesh-pr-audit/decisions.py:126-147 | The next action is the most urgent one in terms of the findings: reasons to stop by rank, then missing evidence, then reviews |
| `MergeDecision.ConditionsExactly` | tools/classmesh-pr-audit/decisions.py:98-119 | Each state of the conditions on checks, base, security, dependencies, scope and evidence, in terms of the findings |
| `MergeDecision.ReviewConditionsExactly` | tools/classmesh-pr-audit/decisions.py:98-119 | Each state of the conditions on reviews and on merge state and threads, in terms of the findings |
| `MergeDecision.SatisfiedExactly` | tools/classmesh-pr-audit/decisions.py:98-120 | All eight conditions hold if and only if every demand but a non-dirty state is met |
| `MergeDecision.ReadyMeansAllSatisfied` | tools/classmesh-pr-audit/decisions.py:85-120 | READY_FOR_MERGE if and only if all eight conditions are SATISFIED and the state is not dirty |
| `MergeDecision.MergeDecisionOnlyWhenReady` | tools/classmesh-pr-audit/decisions.py:126-147 | The next action is the coordinator's merge decision if and only if the stage is READY_FOR_MERGE |
| `MergeDecision.UnknownIsNeverAnApproval` | tools/classmesh-pr-audit/decisions.py:85-119 | Any undetermined condition makes the stage BLOCKED or UNKNOWN |
| `MergeDecision.DirtyButSatisfied` | tools/classmesh-pr-audit/decisions.py:106-120 | Every ready pull request, reported dirty instead, satisfies all eight conditions and is BLOCKED |
| `PullAudit.EvaluateGates` | tools/classmesh-pr-audit/policy.py:272-283 | The four built-in gates and those of the required checks |
| `PullAudit.BuiltinIsKept` | tools/classmesh-pr-audit/policy.py:272-278 | A required context never takes the place of a built-in gate |
| `PullAudit.BuiltinsSucceeded` | tools/classmesh-pr-audit/policy.py:272-293 | When all gates succeed, each built-in gate has nonempty evidence of its own and every winning check of it completed with success |
| `PullAudit.RequiredChecksSucceeded` | tools/classmesh-pr-audit/policy.py:273-278 | When all gates succeed, every required check that no built-in gate stands for and that is not required again later succeeded in its own right |
| `PullAudit.AllSucceedExactly` | tools/classmesh-pr-audit/policy.py:272-278 | All gates succeed if and only if the four built-in gates do and so does every required check that no built-in gate stands for and that is not required again later |
| `PullAudit.GatesMean` | tools/classmesh-pr-audit/policy.py:272-293 | Some gate fails, is pending or is unknown if and only if the raw checks and runs say so for a built-in target or for the last uncovered requirement of a context; all succeed if and only if every such target is proven |
| `PullAudit.ShadowedRequirementIsLost` | tools/classmesh-pr-audit/policy.py:273-278 | In any list, the application of a check whose context is required again later has no influence on the gates |
| `PullAudit.ShadowedRequirementNeverDecides` | tools/classmesh-pr-audit/policy.py:273-278 | Whatever application such a check names, even one a built-in gate covers, all gates succeed in the same cases |
| `PullAudit.CoveredAgreesInOneWorkflow` | tools/classmesh-pr-audit/policy.py:275-277 | Where only the built-in workflow ran, a covered requirement has the built-in gate's result; one that names application 15368 needs that application's checks to carry its identifier |
| `PullAudit.CoveredCanHaveFailed` | tools/classmesh-pr-audit/policy.py:275-277 | With a second workflow, a covered requirement can have failed while its built-in gate succeeds |
| `PullAudit.StackStateExactly` | tools/classmesh-pr-audit/policy.py:405-417 | The first evaluation's stack state: clear if and only if the base is the target of this repository, blocked if and only if it is another branch that exactly one open request owns |
| `PullAudit.SignalsExactly` | tools/classmesh-pr-audit/policy.py:336-358 | The first evaluation calls for a security review unless no text mentions security, no sensitive path is touched, the alerts are known and none, and both scans are proven |
| `PullAudit.ReadyMeansGuaranteed` | tools/classmesh-pr-audit/decisions.py:85-120 | Findings are ready if and only if the raw entry meets every demand |
| `PullAudit.AuditPull` | tools/classmesh-pr-audit/decisions.py:17-147 | Each stage holds if and only if the raw entry says so: BLOCKED for a reason to stop, UNKNOWN for something unknown, a review stage for an open review, READY_FOR_MERGE when every demand is met; the counted approvals are exactly the distinct approvers; ready is equivalent to all conditions outside dirty and to the merge action; unknown never passes |
| `PullAudit.AuditAll` | tools/classmesh-pr-audit/decisions.py:150-156 | Every verdict of a whole audit means exactly that of its entry, and none for a request on a dependency cycle is ready |

## Left out

- Priority scores: the factors and texts of a score are not modelled; the order is proved for every assignment of scores.
- Dependency chains for display, summaries, reasons, links and rejected-evidence lists: report rendering only.
- ReviewOrder.MarkCycles: assumes distinct integer request numbers, which the inventory check demands before anything can be ready; so do DependencyState.BuildDependencies and PullAudit.AuditAll.
- JSON typing: a malformed source is the same as an unknown one; a malformed source that is still partly readable yields the same refusal but possibly another class of security note.
- Case folding, keyword matching, link parsing, redaction, declaration parsing and digests: parameters or parts of the input.
- Timestamps: integers in the order of their texts.
- Collection of proofs and of the inventory gaps: inputs of the audit.
- I/O, pipes, process launch, timers and the network: their results are inputs of each step.
- Mutex poisoning and memory-ordering effects weaker than one atomic step at a time.
- FilePull, FocusedSessions: new sessions stop at the end of the 64-bit identifier period; what happens beyond it is stated in SessionIds only.
- Liveness: no property says that a waiting requester is eventually served.
- Teacher interaction and clipboard dispatch: they follow the same commit protocol as system actions.
- Key installation: its dispatch has no commit cell and its slot is not modelled.
- Failed removal of a partial file and the cleanup on drop: an aborted partial file is removed.
- The source session's window and resumption state: only its reads are modelled.
- FallbackTransaction.ApplyUnicastTarget: removal of receivers from the plan is not modelled, so agreement is kept by this operation and not claimed across removals.
- Worker pipes are read in order; what the Worker plays is stated for the moment it has handled everything written to it.
- Adaptation profiles, presentation ownership and receiver-telemetry grants beyond what a step reads of them.
- User interface, monitoring, discovery, QUIC and TLS set-up, and the media pipeline.
