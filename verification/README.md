# Lightagent: the run lifecycle and the protocols around it

A Dafny model of the parts of Lightagent where several tasks, clients or processes meet:

* **One managed run** (`RunState.dfy`, `Lifecycle.dfy`, `Observers.dfy`, `Driver.dfy`, `Monitor.dfy`): the event
  buffer with its status and wake-ups, the forwarder and finisher around it, any number of observers looping on
  `wait_from`, the driver that takes a run through its pauses while its authorization may be withdrawn, and the
  shared monitor that re-checks revocable runs.
* **A session and its turns** (`Session.dfy`, `Turns.dfy`, `Regeneration.dfy`): what admitting a turn and recording a
  run do to a saved conversation, the busy set, run lease and journal by which any number of processes take turns on
  it while requests are dropped and processes crash, and what a regenerated answer is made of.
* **The clients' protocols** (`EventStream.dfy`, `AcpState.dfy`, `Acp.dfy`, `AcpPermissions.dfy`): a resumable
  server-sent event stream, and the editor server with its reader, its prompt tasks and its permission requests, none of
  which is stuck (`AcpProgress.dfy`).
* **Authority** (`Authority.dfy`, `Supervision.dfy`): the identity state that is re-read for each check, or once per
  sweep, while other checks read it and the store changes; and the sweep that withdraws runs by it.
* **Two algorithms of the scripts** (`Sbom.dfy`, `SelectionGuard.dfy`, `SelectionVerdict.dfy`): which packages a binary
  links and how one is reached, and the guard of the specialist-selection evaluation with its verdict.

`Wrappers.dfy` holds the option type.

Code that updates state in place is a class whose methods are proved against functions on a value; loops are loops
with invariants. A protocol is a machine: `Possible`/`Enabled` say when a step can be taken, `Apply` what it does,
`Run` folds it over a list of steps, and the theorems hold after every list of steps, so for every interleaving.
Steps that cannot be taken change nothing. What the model takes as given: a notification wakes exactly the waiters
enabled at that moment; a store update is atomic and discarded on error; a run lease is exclusive; session ids and
sweep epochs are new each time; the agent loop ends its stream with `RunCompleted` exactly when it completes.

## Where the code does less than its documentation or one would expect

Each is a lemma with a concrete run that shows it, next to the exact condition under which the code does meet it.

* A withdrawal that lands between the driver's check and its call to the agent does not stop that call, a resume as
  well as any other (`Driver.RevokedInTheGap`, `Driver.ResumedInTheGap`). A call is late exactly then
  (`Driver.LateExactlyInTheGap`), and there is at most one.
* A closed decision or continuation channel ends a run as `Cancelled` without any event, even when it is revoked
  (`Driver.ClosedChannelEndsBare`); a run revoked in a wait ends with both events exactly when no channel closed
  (`Driver.RevokedWaitsEndExactly`). A managed run keeps its own senders, so only other callers of the driver meet this.
* A request dropped while it waits for its admission, for its run to start or for the busy set after a refused start
  releases its lease but not its busy entry, and that process takes no turn on the session any more
  (`Turns.DroppedRequestBlocksItsProcess`). An entry outlives its turn exactly then (`Turns.EveryExitReleases`,
  `Turns.LeftBehindExactlyWhenAbandoned`).
* The admission such a request leaves running saves its prompt without a lease, perhaps while another process runs a
  turn, whose answer is then saved after the wrong prompt (`Regeneration.OrphanTakesTheAnswer`). An answer follows its
  own prompt, and a regeneration still finds the answer it is to replace, exactly when no such prompt landed meanwhile
  (`Regeneration.AnswersFollowTheirPrompt`, `Regeneration.RegenerationFindsItsAnswer`). That one turn runs at a time,
  that the user messages are the admitted prompts and what a turn's history is made of do not depend on it.
* A prompt stays saved although its run is refused, exactly when it was to be appended and the authorization failed
  again at the start of the run, after admission (`Turns.RefusedRunKeepsItsPrompt`,
  `Turns.RefusedPromptsAreSavedExactly`).
* A process that dies between recording a run, or another's interruption, and erasing its journal leaves a second,
  interrupted record, and so does an editor prompt that is recorded while a journal is left over, as editor prompts
  recover none. A regeneration then sees the run's own first record in its history (`Regeneration.TornRunIsSeenAgain`).
  The histories agree exactly when one record was added (`Regeneration.RegenerationSeesTheFirstHistory`).
* A check looks at the state in memory that its own read has set, but another check may set it in between to what it
  read earlier. So a credential revoked before a check began can still be allowed, and a valid one refused
  (`Authority.StaleReadAllows`, `Authority.StaleFailureDenies`). What was allowed was so by contents the store held
  during the check or a read still under way at its start had found (`Authority.AllowedMeansTheStoreAllowed`); while the
  store rests and no older contents are under way, a check allows exactly what the store entitles to
  (`Authority.EveryCheckReadsTheStore`).
* A user's check reads the store twice, so a credential revoked and a profile granted in between can be allowed
  together though no state of the store allowed it (`Authority.MixedStoresAllow`). A check allows exactly when each of
  its two looks does its part (`Authority.AllowedByTwoStates`).
* A sweep whose read of the store failed refuses every credential, but not the legacy operator key, which is not
  read again (`Authority.LegacyKeyPassesFailedSweep`). The exact set of callers that pass is in
  `Authority.FailedSweepRefuses`.
* `shortest_path` raises on an id that no package has; here that is the answer `UnknownId`, given only for a
  nearest such id with no package of the name closer; `Sbom.NoPathExactly` says exactly when there is no path.
* An empty role label counts as a match for the harness when no role was planned, and not for the guard
  (`SelectionGuard.EmptyLabelMatchesForOne`); the two counts agree exactly when no case is of that kind
  (`SelectionGuard.RoleMatchesAgree`).

* A record file that holds the JSON document `null` is read as nothing and adds no problem, so a result may be given
  without a manifest, send record, response or report (`SelectionVerdict.NullReportHasAResult`, where it is of no cases).
  What is accepted is complete exactly when none of them is `null` (`SelectionVerdict.AcceptedMeansCompleteExactly`);
  the measures of every result fit together even so (`SelectionVerdict.Verdict`).

## Model

| member | source | states |
|---|---|---|
| Runs.LastReasonIsLast | crates/lightagent-api/src/manager.rs:238-244 | a run's reported reason is that of the last `RunCompleted` in its buffer, and absent exactly without one |
| Runs.RunState.constructor | crates/lightagent-api/src/manager.rs:1193-1219 | a run starts with an empty buffer, running, nothing pending or queued, able to receive continuations, not revoked |
| Runs.RunState.PushEvent | crates/lightagent-api/src/manager.rs:337-340 | appends exactly the event to the buffer and notifies once |
| Runs.RunState.SetStatus | crates/lightagent-api/src/manager.rs:342-345 | replaces the status only, and notifies once |
| Runs.RunState.SetPending | crates/lightagent-api/src/manager.rs:347-349 | replaces the pending approval only, and notifies nobody |
| Runs.RunState.ContinueWith | crates/lightagent-api/src/manager.rs:275-287 | queues one continuation and resumes the status exactly for a paused, unrevoked run that can receive it; otherwise nothing changes |
| Runs.RunState.ReadFrom | crates/lightagent-api/src/manager.rs:320-334 | returns the buffer past the position with the status, exactly when there is an event past it or the run is terminal |
| Runs.RunState.StopReasonOf | crates/lightagent-api/src/manager.rs:238-244 | the search from the end finds the last terminal reason |
| Lifecycle.TerminalAfterDrain | crates/lightagent-api/src/manager.rs:1236-1303 | a terminal status appears only when every event the run ever sent is buffered, in sending order; it is the driver's status, and nothing is pending |
| Lifecycle.TerminalIsFinal | crates/lightagent-api/src/manager.rs:275-303 | after a terminal status nothing, `continue_with` included, changes the run |
| Lifecycle.BufferGrows | crates/lightagent-api/src/manager.rs:337-340 | the buffer is append-only over every run of steps |
| Lifecycle.OneContinuationPerPause | crates/lightagent-api/src/manager.rs:275-287 | at most one continuation is ever queued; the i-th is issued for the i-th pause and taken, if at all, at that pause, as what the client asked for |
| Lifecycle.StatusFollowsBuffer | crates/lightagent-api/src/manager.rs:1236-1265 | between two events the status and pending approval are the ones the buffer stands for |
| Lifecycle.PausedCanContinue | crates/lightagent-api/src/manager.rs:275-287 | while a driver is paused and its events are forwarded, at most one continuation is queued, and `continue_with` takes one exactly when the run is not revoked and none is queued |
| Lifecycle.EndedRunsFinish | crates/lightagent-api/src/manager.rs:1266-1303 | a run whose driver returned comes to its terminal status, all it sent buffered, by forwarder and finisher alone |
| Lifecycle.NoRunIsStuck | crates/lightagent-api/src/manager.rs:1230-1303 | from every reachable state each terminal status can be reached, with everything sent before and whatever comes last |
| Lifecycle.InvStep | crates/lightagent-api/src/manager.rs:1230-1303 | every step of driver, forwarder, finisher and clients keeps conservation, order, pause matching and the derived status |
| Lifecycle.ForwardOne | crates/lightagent-api/src/manager.rs:1236-1265 | one turn of the forwarder pushes the event and leaves the status its buffer stands for |
| Lifecycle.ForwardAll | crates/lightagent-api/src/manager.rs:1236-1265 | the forwarder's loop moves the whole channel to the buffer in order and leaves the derived status |
| Observers.NoWakeUpLost | crates/lightagent-api/src/manager.rs:306-345 | with no writer between its change and its notification, a sleeping waiter nobody woke has nothing new to see, in every interleaving |
| Observers.ObserversSeeEverything | crates/lightagent-api/src/manager.rs:320-335 | every observer from any start has every later event once and in order; one that saw the end has them all, and they are all the run sent |
| Observers.TheEndReachesEveryone | crates/lightagent-api/src/manager.rs:320-335 | after the last notification each observer returns by its own steps with the whole rest of the buffer |
| Observers.FirstWait | crates/lightagent-api/src/manager.rs:306-340 | anyone can join at any position; a first wait returns what is past it at once, or sleeps exactly when there is nothing, until the next notification |
| Observers.TheRunGoesOn | crates/lightagent-api/src/manager.rs:306-345 | whatever a run can do without observers it can do with them, everybody notified |
| Observers.ReadKeeps | crates/lightagent-api/src/manager.rs:320-335 | a read hands an observer exactly what it has not seen; a terminal read hands over the whole rest |
| Observers.ChangeKeeps | crates/lightagent-api/src/manager.rs:337-349 | no change of the run invalidates what an observer already has |
| Observers.InvStep | crates/lightagent-api/src/manager.rs:306-345 | every step of writers and waiters keeps all observers faithful and no wake-up lost |
| Driver.EveryCallIsChecked | crates/lightagent-api/src/manager.rs:733-832 | every call to the agent directly follows a passed check, with no wait or other call between |
| Driver.RevokedWaitsEndTheRun | crates/lightagent-api/src/manager.rs:764-832 | a wait that ends with the run revoked, whichever branch wins, ends it with `Error`, `RunCompleted{Cancelled}` and `Cancelled` last; a closed channel is the only other way out |
| Driver.StatusAgreesWithStream | crates/lightagent-api/src/manager.rs:663-845 | the returned status is `Failed` exactly when the stream's terminal reason is an error, `Cancelled` exactly when it is a cancellation, and `Completed` for every other; there is no such event exactly when a channel closed, or the run was cancelled and not revoked while it waited for a decision |
| Driver.EveryActionFollows | crates/lightagent-api/src/manager.rs:733-832 | what may follow what, over every run: one start, waits exactly as the agent asked, each resume and continuation with the very answer its wait got, the terminal reason that belongs to the way it ended, checks that only repeat the latch of an unrevocable run, waits cut short only by a cancel |
| Driver.LatchAndToken | crates/lightagent-core/src/identity/revocation.rs:123-155 | the latch holds the first denial there was, a supervisor's or a failed check's, and the token has fired exactly once something cancelled |
| Driver.AtMostOneLateCall | crates/lightagent-api/src/manager.rs:733-832 | over a whole run at most one call is made after the withdrawal |
| Driver.LateExactlyInTheGap | crates/lightagent-core/src/identity/revocation.rs:123-155 | a call is late exactly when the withdrawal falls between the check passed for it and the call |
| Driver.NextCheckEnds | crates/lightagent-api/src/manager.rs:743-796 | wherever the driver is about to check, a withdrawal that has landed by then ends the run with the denial's message and the terminal event, without a further call |
| Driver.RevokedInTheGap | crates/lightagent-api/src/manager.rs:743-796 | from every reachable point after a passed check, a withdrawal that lands first does not stop the call, whichever it is |
| Driver.ResumedInTheGap | crates/lightagent-api/src/manager.rs:814-820 | a run on which a resume follows the withdrawal |
| Driver.RevokedWaitsEndExactly | crates/lightagent-api/src/manager.rs:764-832 | a run with a revoked wait ends with the message, the terminal event and `Cancelled` exactly when none of its waits ended by a closed channel |
| Driver.ClosedChannelEndsBare | crates/lightagent-api/src/manager.rs:798-828 | a revoked run on which a closed channel ends it without either event |
| Driver.InvStep | crates/lightagent-api/src/manager.rs:733-832 | every step of the driver keeps its checks, its latch and its ending in order |
| Driver.DriveControlled | crates/lightagent-api/src/manager.rs:733-832 | the loop takes exactly the steps of the machine the theorems are about, stops early only if its surroundings give out, checks before every call, does one thing after another as it may, and returns the status its stream's end stands for |
| Driver.CheckAndCall | crates/lightagent-api/src/manager.rs:784-796 | check, then call or the revoked ending, as the machine does |
| Driver.AwaitThenCall | crates/lightagent-api/src/manager.rs:774-829 | one pause: the first of cancel, answer and closed channel, acted on as the machine does |
| Monitors.ActiveRunsAreWatched | crates/lightagent-api/src/manager.rs:956-1036 | whenever a revocable run is counted and no launch is halfway, a monitor lives that will tick again |
| Monitors.OneMonitor | crates/lightagent-api/src/manager.rs:1021-1036 | at most one monitor task will ever tick again |
| Monitors.ActiveIsLaunchedMinusEnded | crates/lightagent-api/src/manager.rs:1221-1299 | the count is the runs launched minus the runs ended, so it never underflows |
| Monitors.IdleMonitorStops | crates/lightagent-api/src/manager.rs:956-981 | with nothing active and nobody launching, the monitor's own steps empty its slot and end it |
| Monitors.RunsComeAndGo | crates/lightagent-api/src/manager.rs:1221-1299 | a run is counted by its launch before a monitor is ensured, and uncounted by its end |
| Monitors.BusyMonitorSweeps | crates/lightagent-api/src/manager.rs:956-981 | while runs are active, a tick is followed by a sweep and the monitor is as before |
| Monitors.MonitorGoesWithTheManager | crates/lightagent-api/src/manager.rs:956-981 | without the manager nothing is launched and the monitor gives up at its next tick |
| Monitors.InvStep | crates/lightagent-api/src/manager.rs:956-1036 | every interleaved step of launches, endings, ticks and exits keeps the slot, the one live task and the count in step |
| Monitors.Monitor.constructor | crates/lightagent-api/src/manager.rs:910-918 | no monitor and nothing active at first |
| Monitors.Monitor.CountRun | crates/lightagent-api/src/manager.rs:1221-1222 | counts one run and changes nothing else |
| Monitors.Monitor.EnsureMonitor | crates/lightagent-api/src/manager.rs:1021-1036 | afterwards the slot names an unfinished task; a new one is started exactly when there was none |
| Monitors.Monitor.EndRun | crates/lightagent-api/src/manager.rs:1296-1299 | uncounts one run and changes nothing else |
| Monitors.Monitor.ConcludeSweep | crates/lightagent-api/src/manager.rs:969-975 | empties the slot and returns exactly when nothing is active, else ticks again |
| EventStreams.IdRoundTrip | crates/lightagent-api/src/lib.rs:4182-4193 | a frame id printed, padded and read back from `Last-Event-ID` is the id sent |
| EventStreams.ResumesExactly | crates/lightagent-api/src/lib.rs:4182-4212 | a client that reports its last id in either way or both resumes right after it |
| EventStreams.Cursor.constructor | crates/lightagent-api/src/lib.rs:4929-4938 | a stream starts at its position with nothing queued |
| EventStreams.Cursor.Next | crates/lightagent-api/src/lib.rs:4939-4979 | one pull, guarded or not: the guard is asked before every frame and every wait, a timer or the supervisor makes it be asked again, and a refusal ends the stream without a frame |
| EventStreams.Cursor.Turn | crates/lightagent-api/src/lib.rs:4939-4979 | one turn of that loop |
| EventStreams.Cursor.Refill | crates/lightagent-api/src/lib.rs:4968-4975 | takes over what the run has, and that it is over |
| EventStreams.PullKeeps | crates/lightagent-api/src/lib.rs:4939-4979 | a pull yields the frame at the stream's position and moves past it, or ends exactly when the run is over and all was sent |
| EventStreams.RefusalEndsTheStream | crates/lightagent-api/src/lib.rs:4939-4945 | over all pulls of a guarded stream no frame leaves but right after the guard allowed it, and nothing at all after its first refusal |
| EventStreams.GivenIsTheBuffer | crates/lightagent-api/src/lib.rs:4939-4979 | what a guarded stream gives until then is the buffer from its position on, every event once and in order |
| EventStreams.GuardOnlyWithholds | crates/lightagent-api/src/lib.rs:4939-4979 | a guarded pull gives what an unguarded one would, or nothing |
| EventStreams.AllowedIsServed | crates/lightagent-api/src/lib.rs:4950-4979 | a subscriber that stays allowed gets what an unguarded one would, as soon as the run has news and the guard is asked once more |
| EventStreams.FramesAreTheBuffer | crates/lightagent-api/src/lib.rs:4916-4981 | over any number of lost and resumed streams the client's frames are exactly positions 0..n-1 with their events; a stream that ends by itself leaves it with everything |
| EventStreams.ReconnectingFinishes | crates/lightagent-api/src/lib.rs:4195-4212 | a client reconnecting after the end is served what it misses and the stream ends |
| EventStreams.LostStreamsResume | crates/lightagent-api/src/lib.rs:4182-4212 | a lost stream, or one lost with its frame on the way, leaves the client with what it had and free to go on after it |
| EventStreams.TheRunGoesOn | crates/lightagent-api/src/lib.rs:4916-4981 | streams and clients do not hold the run up |
| EventStreams.InvStep | crates/lightagent-api/src/lib.rs:4916-4981 | every step of run, stream and client keeps the client's frames a prefix of the buffer |
| Authority.AllowedByTwoStates | crates/lightagent-api/src/auth.rs:293-314 | amid whatever others do, a credential is allowed exactly when its own part of the rule holds in the state first looked at and, for a user, the ownership's part in the state looked at last |
| Authority.DecidedByRule | crates/lightagent-api/src/auth.rs:293-314 | left alone, a credential's check allows exactly what the rule entitles it to in the state it brought up to date |
| Authority.StatesAreRead | crates/lightagent-api/src/auth.rs:182-202 | whatever others do, the state in memory is what documents and markers are read as that the store held meanwhile, or that a read under way at the start had found |
| Authority.LooksAreRead | crates/lightagent-api/src/auth.rs:168-202 | both states a check outside a sweep goes by are such |
| Authority.AnotherReads | crates/lightagent-api/src/auth.rs:182-202 | another check's read takes the document first and the markers later, and makes them the state later still, whatever has changed |
| Authority.AllowedMeansTheStoreAllowed | crates/lightagent-api/src/auth.rs:168-202 | outside a sweep each part of the rule that allowed a check held in contents the store had while the check ran, or that a read still under way when it began had found |
| Authority.MixedStoresAllow | crates/lightagent-api/src/auth.rs:293-314 | a check allowed by two stores neither of which entitles the credential |
| Authority.EveryCheckReadsTheStore | crates/lightagent-api/src/auth.rs:168-202 | outside a sweep, while the store rests and no other read has older contents under way, a check allows exactly what the store entitles to, whoever else reads it; an unreadable store allows nothing |
| Authority.WhatItTakes | crates/lightagent-core/src/identity/ownership.rs:38-53 | on the store's own fields, what it takes for a check to allow an action while the store rests: a valid credential not narrowed below it and, of a user, its own run on a covered, bound profile whose owner it is, for four capabilities, or which granted it this very one; never what only operators may do |
| Authority.DenialSaysWhy | crates/lightagent-core/src/identity/mod.rs:319-376 | each denial is given exactly when what it names is the first thing missing |
| Authority.LookupSaysWhy | crates/lightagent-core/src/identity/credential.rs:233-236 | a key is refused as revoked or expired exactly when it is, and else stands for its record's principal, role and limits |
| Authority.StaleReadAllows | crates/lightagent-api/src/auth.rs:182-202 | a check that allows a credential revoked before it began, by what another check read before that and made the state late |
| Authority.StaleFailureDenies | crates/lightagent-api/src/auth.rs:182-202 | a check that refuses an entitled credential, by another's read that failed earlier |
| Authority.OnlyTheKeyCounts | crates/lightagent-api/src/auth.rs:228-237 | two kept callers with the same key id get the same decision, amid anything, whatever else was kept |
| Authority.SweepReadsOnce | crates/lightagent-api/src/auth.rs:168-180 | a sweep's checks read the store at most once, however many there are and whatever happens between them |
| Authority.FailedSweepRefuses | crates/lightagent-api/src/auth.rs:168-202 | in a sweep whose read failed a check passes exactly for an operator that is no credential |
| Authority.FailureCoversTheSweep | crates/lightagent-api/src/auth.rs:175-179 | a failed read stays the answer for every later check of the sweep, though the store recover meanwhile |
| Authority.LegacyKeyPassesFailedSweep | crates/lightagent-api/src/auth.rs:228-237 | the legacy operator key passes in a failed sweep |
| Authority.QuietSweepUsesOneState | crates/lightagent-api/src/manager.rs:926-951 | a sweep during which nobody else sets the state decides every check by the one state it read, whatever becomes of the store |
| Authority.RestingCheckUses | crates/lightagent-api/src/auth.rs:168-202 | while the store rests and no older contents are under way, a sweep's check allows exactly what the store entitles to, whoever else reads it |
| Authority.CallerAgreesWithPolicy | crates/lightagent-api/src/auth.rs:491-505 | for every single-user policy, token and scope, the caller established may do exactly what the policy admits |
| Authority.IdentityAuthority.constructor | crates/lightagent-api/src/auth.rs:112-160 | a new authority has read nothing and audited nothing |
| Authority.IdentityAuthority.Reload | crates/lightagent-api/src/auth.rs:182-202 | reads the document, then the markers, and then makes them the state, others at work between; an unreadable document empties the state and denies |
| Authority.IdentityAuthority.Sync | crates/lightagent-api/src/auth.rs:168-180 | reads once per sweep epoch, and every time outside one |
| Authority.IdentityAuthority.Refresh | crates/lightagent-api/src/auth.rs:228-237 | a credential is read again by key id; any other caller is returned as kept |
| Authority.IdentityAuthority.Yield | crates/lightagent-api/src/auth.rs:182-202 | what others do between two locked sections of a check: the store changes, another check reads, binds or sets the state |
| Authority.IdentityAuthority.AuthorizeRun | crates/lightagent-api/src/auth.rs:293-314 | operators act on every run, a user only on its own and only while entitled, each look at the state its own locked section with others at work between |
| Authority.IdentityAuthority.RecordDecision | crates/lightagent-api/src/auth.rs:338-361 | the audit keeps the newest records, up to its capacity |
| Authority.IdentityAuthority.RunCheck | crates/lightagent-api/src/auth.rs:321-335 | decides as `authorize_run` does and audits only a refusal |
| Authority.IdentityAuthority.Update | crates/lightagent-api/src/auth.rs:208-217 | changes the state in memory exactly when there is no store |
| Supervision.SweepRuns | crates/lightagent-api/src/manager.rs:926-951 | checks every active run once and in order, latches and cancels exactly those refused, and returns how many were checked and which were refused |
| Supervision.RefusedAreListed | crates/lightagent-api/src/manager.rs:926-951 | the runs returned are those refused, in order |
| Supervision.SweepWithdrawsExactly | crates/lightagent-api/src/manager.rs:926-951 | a sweep that reads the store, nobody else setting the state, withdraws exactly the active runs that what it read does not entitle |
| Supervision.RestingSweepWithdrawsExactly | crates/lightagent-api/src/manager.rs:926-951 | while the store rests and no older contents are under way, a sweep withdraws exactly the active runs the store does not entitle, whoever else reads it |
| Supervision.FailedSweepWithdrawsAll | crates/lightagent-api/src/manager.rs:926-951 | a sweep that cannot read the store withdraws every active run of a credential, whatever others do |
| Supervision.UnentitledRunEnds | crates/lightagent-core/src/identity/revocation.rs:123-155 | a run the sweep finds no longer entitled gets no further call and ends withdrawn at its driver's next check |
| SessionData.AnsweredMeansAnswer | crates/lightagent-api/src/lib.rs:4879-4884 | a run is answered exactly when the text put together from its events is not empty |
| SessionData.StretchesJoin | crates/lightagent-store/src/session.rs:197-244 | answer, tools and id of two stretches of events are the one's and then the other's |
| SessionData.OfOneEvent | crates/lightagent-store/src/session.rs:197-244 | what each kind of event adds to them |
| SessionData.LatestMeansEndsWith | crates/lightagent-api/src/lib.rs:3629-3645 | a run wrote the latest answer exactly when the session is an earlier one with a prompt, its answer and that finished run's record added |
| SessionData.ExchangeIsAllOrNothing | crates/lightagent-api/src/lib.rs:4048-4060 | recording a regeneration exchanges exactly the latest answer and its record, prompt and rest kept, or leaves the session as it was |
| SessionData.RecordingKeepsPrompts | crates/lightagent-api/src/lib.rs:4048-4060 | recording, either way, neither adds nor loses a user message |
| SessionData.AdmissionAddsThePrompt | crates/lightagent-api/src/lib.rs:3688-3733 | an admitted regeneration adds no prompt, an admitted new prompt is added once, at the end, and neither changes a run record |
| SessionData.AdmissionExactly | crates/lightagent-api/src/lib.rs:3688-3733 | when an admission is refused and why, and what an admitted turn reads and saves, title included |
| SessionData.Session.TakeLatestAnswer | crates/lightagent-api/src/lib.rs:3629-3645 | takes off the latest answer and its record and returns the prompt exactly when that run wrote it; else untouched |
| SessionData.Session.RecordRunEvents | crates/lightagent-store/src/session.rs:197-244 | appends the answer, if any, and one finished run record with its tools |
| SessionData.Session.Record | crates/lightagent-api/src/lib.rs:4048-4060 | the recorder's one update, kept exactly when it appends or can exchange |
| Turns.OneTurnAtATime | crates/lightagent-api/src/lib.rs:3851-4009 | over all processes, editor servers included, at most one turn holds the lease, and it always has its own process's busy entry |
| Turns.FreeHereIsNotLeasedHere | crates/lightagent-api/src/lib.rs:4072-4075 | a session free in a process is not leased by it |
| Turns.EveryExitReleases | crates/lightagent-api/src/lib.rs:3851-4079 | each step of a turn brings it closer to its end, it always has a next one, and at the end it has no lease; its busy entry is gone then unless and only unless its request was dropped, which is possible at three waits |
| Turns.LeftBehindExactlyWhenAbandoned | crates/lightagent-api/src/lib.rs:3900-3976 | a busy entry without a turn is one of a dropped request of a live process, and each of those has left one |
| Turns.AbandonedEntryStays | crates/lightagent-api/src/lib.rs:3851-3862 | an entry left behind stays until its process ends, which meanwhile takes no turn on the session and neither changes nor deletes it |
| Turns.DroppedRequestBlocksItsProcess | crates/lightagent-api/src/lib.rs:3900-3912 | a run on which that happens, whatever follows |
| Turns.NoRunIsDropped | crates/lightagent-api/src/lib.rs:3900-3980 | a request that can still be dropped waits for its admission or its run's start, or its run was refused as it started |
| Turns.CrashTakesItsOwn | crates/lightagent-api/src/lib.rs:3851-4079 | a crash takes what its own process had in memory and its lease, and nothing of another process and nothing saved |
| Turns.TornExactly | crates/lightagent-store/src/session.rs:620-665 | a second record of a run comes about exactly by a death between recording and erasing, or by the editor recording over another's journal |
| Turns.PromptsAreTheAdmittedOnes | crates/lightagent-api/src/lib.rs:3688-3733 | the user messages are exactly the admitted prompts in admission order, over every run of all processes with renames, regenerations, editor prompts, dropped requests and crashes |
| Turns.TracedStep | crates/lightagent-api/src/lib.rs:3851-4009 | every step keeps turns, admissions left running, refusals and admitted prompts in step |
| Turns.RefusedPromptsAreSavedExactly | crates/lightagent-api/src/lib.rs:3913-3979 | over all runs, a refused turn's prompt is admitted, and then saved, exactly when it was to be appended and was refused as its run started |
| Turns.RefusalSavesNothing | crates/lightagent-api/src/lib.rs:3866-3979 | the step that refuses a turn is its lease, its admission or its start, and leaves everything saved as it was |
| Turns.RefusedRunKeepsItsPrompt | crates/lightagent-api/src/lib.rs:3961-3980 | for every prompt, a run on which it is refused after admission and stays saved |
| Regeneration.RegenerationFindsItsAnswer | crates/lightagent-api/src/lib.rs:4048-4060 | when a regeneration is recorded, the answer it was admitted to replace is still the latest exactly when no dropped request's prompt landed meanwhile |
| Regeneration.AnswersFollowTheirPrompt | crates/lightagent-api/src/lib.rs:4048-4060 | when a new prompt's run is recorded, the transcript ends with its own prompt exactly when no dropped request's prompt landed meanwhile |
| Regeneration.OrphanTakesTheAnswer | crates/lightagent-api/src/lib.rs:3900-3912 | a run on which an answer is saved after another request's prompt |
| Regeneration.RegenerationSeesTheFirstHistory | crates/lightagent-api/src/lib.rs:3724-3732 | a turn runs with the messages and prompt of that prompt's admission, a regeneration with its run records first, and with no others exactly when one record was added since |
| Regeneration.TornRunIsSeenAgain | crates/lightagent-store/src/session.rs:620-665 | a run on which the record count differs and the regeneration sees its own run's record |
| Regeneration.InvStep | crates/lightagent-api/src/lib.rs:3851-4079 | every step of every process, editor prompts, drops and crashes included, keeps the shape of the saved session and what the running turn was admitted on |
| Regeneration.IntrudeKeeps | crates/lightagent-api/src/lib.rs:3900-3912 | a prompt landing without a lease keeps both, marking the running turn as overtaken |
| Regeneration.KeptFits | crates/lightagent-api/src/lib.rs:4048-4060 | what the recorder leaves, whichever way it records, keeps the shape |
| Regeneration.RecoveredFits | crates/lightagent-store/src/session.rs:620-665 | recording a left-over turn as interrupted keeps what was saved since its prompt and adds one record |
| AcpState.Server.constructor | crates/lightagent-acp/src/server.rs:154-156 | no sessions, no waiters, nothing sent, numbers from 1 |
| AcpState.Server.Send | crates/lightagent-acp/src/server.rs:141-152 | one message more, at the end of the outbound order |
| AcpState.Server.ForwardBatch | crates/lightagent-acp/src/server.rs:515-525 | sends an update for each visible event of a batch, in order, and keeps the last stop reason |
| AcpState.Server.ReplayTranscript | crates/lightagent-acp/src/server.rs:327-344 | sends every user and assistant message in order, then the response |
| AcpState.Server.OpenNew | crates/lightagent-acp/src/server.rs:237-271 | opens an idle session, stored if it has a store, or fails and opens none |
| AcpState.Server.Load | crates/lightagent-acp/src/server.rs:274-326 | a busy session is not replaced; another is reopened idle; each failure has its code |
| AcpState.Server.BeginPrompt | crates/lightagent-acp/src/server.rs:376-442 | takes session and lease together, or names the refusal and leaves everything as it was |
| AcpState.Server.SetActive | crates/lightagent-acp/src/server.rs:503-505 | names the run a cancel reaches, in that session only |
| AcpState.Server.Release | crates/lightagent-acp/src/server.rs:556-572 | clears active, busy and lease whether or not saving works, and says whether it failed |
| AcpState.Server.TakeId | crates/lightagent-acp/src/server.rs:592-592 | hands out the next number and advances it |
| AcpState.Server.Await | crates/lightagent-acp/src/server.rs:593-594 | one waiter more, for that number |
| AcpState.Server.TakeWaiter | crates/lightagent-acp/src/server.rs:167-175 | removes the waiter of a number, if any, and no other |
| AcpState.EndingExactly | crates/lightagent-acp/src/protocol.rs:97-107 | what a client is told in the end, for every status and reason |
| Acp.BusyMeansOneOwner | crates/lightagent-acp/src/server.rs:376-450 | a session is busy exactly when one prompt in flight owns it, and exactly then a stored one holds its lease, which nobody else holds |
| Acp.BusyUntilReleased | crates/lightagent-acp/src/server.rs:308-325 | no step but its prompt's own release changes a busy session, save for naming the active run; no load replaces it |
| Acp.CancelReachesItsRun | crates/lightagent-acp/src/server.rs:346-356 | a cancel reaches the run of the one prompt its session is busy with, and no other |
| Acp.RequestsAreCarriedOut | crates/lightagent-acp/src/server.rs:201-345 | what every other request comes to: its outcome or code, what is replayed, and the one session it opens or reopens |
| Acp.PromptsAreCarriedOut | crates/lightagent-acp/src/server.rs:376-442 | a prompt is refused with its code, or has its session and lease and starts |
| Acp.ReleaseGivesEverythingUp | crates/lightagent-acp/src/server.rs:556-583 | after the release, saved or not, the session is idle and unleased and takes the next prompt; the response is an error exactly if saving failed |
| Acp.ResponsesAreConserved | crates/lightagent-acp/src/server.rs:191-462 | responses sent plus prompts in flight plus the one the reader is answering are exactly the requests with an id other than cancels; no request is answered twice, a notification never |
| Acp.ResponseComesLast | crates/lightagent-acp/src/server.rs:507-583 | a response carries its request's id and comes after all of the request's messages: every visible event of the run in order and then how it ended, or the whole transcript of a load |
| Acp.HeldStep | crates/lightagent-acp/src/server.rs:201-572 | every step of reader, tasks, runs and other processes keeps owners, leases and active runs in step |
| Acp.FlowingStep | crates/lightagent-acp/src/server.rs:201-583 | every step keeps responses conserved and nothing after one |
| Acp.ShowingStep | crates/lightagent-acp/src/server.rs:507-555 | every step keeps what the client was shown equal to what was forwarded of the run, or replayed |
| Acp.SendTraffic | crates/lightagent-acp/src/server.rs:512-583 | a message for a request in flight keeps the outbound order lawful, and a response ends the flight |
| AcpPermissions.EachApprovalIsAskedOnce | crates/lightagent-acp/src/server.rs:509-542 | no two permission requests share a number, nor a run and an approval |
| AcpPermissions.NumbersAreFresh | crates/lightagent-acp/src/server.rs:592-594 | the next number was never sent, awaited, answered or carried |
| AcpPermissions.GrantsAreTheClients | crates/lightagent-acp/src/server.rs:529-542 | a run is told of an approval at most once, after the client was asked, and told to go ahead only if the answer to that very request allowed it |
| AcpPermissions.NoWaiterSurvives | crates/lightagent-acp/src/server.rs:606-630 | a waiter exists exactly while its task expects that answer; none is left after an answer or a handled cancel |
| AcpPermissions.AnswersReachTheirOwnTask | crates/lightagent-acp/src/server.rs:166-176 | an answer changes only the task that asked, and a late or second one nothing |
| AcpPermissions.PermittedStep | crates/lightagent-acp/src/server.rs:507-630 | every step, in every interleaving of answers, cancels and prompts, keeps all of the above |
| AcpProgress.CancelledPromptsFinish | crates/lightagent-acp/src/server.rs:507-583 | wherever it is, a prompt whose run ended by a cancel gets to its response by its own steps alone, waiting for a permission or not, saved or not |
| AcpProgress.EveryPromptCanBeEnded | crates/lightagent-acp/src/server.rs:507-583 | in every reachable state a cancel, the run's end and the task's own steps bring a prompt to its response |
| AcpProgress.ReaderFinishes | crates/lightagent-acp/src/server.rs:327-344 | what the reader is answering is answered after everything it replays |
| AcpProgress.AfterABatch | crates/lightagent-acp/src/server.rs:526-555 | after a batch a task releases exactly if the run had ended, asks exactly about an approval it has not asked about, and else waits |
| AcpProgress.AskingAsks | crates/lightagent-acp/src/server.rs:592-606 | a request for permission goes out under the next number, its waiter registered before |
| AcpProgress.AnswerIsActedOn | crates/lightagent-acp/src/server.rs:529-542 | the client's answer reaches the run as it was given |
| AcpProgress.CancelIsANo | crates/lightagent-acp/src/server.rs:606-630 | a cancelled run is told no, and an answer that comes later changes nothing |
| Sbom.Targets | scripts/desktop-sbom.py:82-84 | exactly the normal dependencies of an id, in the order listed |
| Sbom.Roots | scripts/desktop-sbom.py:75-75 | exactly the workspace packages of a name, in the order listed |
| Sbom.TheLastCounts | scripts/desktop-sbom.py:72-84 | of several packages or nodes with one id the last listed counts |
| Sbom.ListsJoin | scripts/desktop-sbom.py:75-84 | dependencies and roots are in the order of what they are of |
| Sbom.EdgesRootsMacros | scripts/desktop-sbom.py:70-85 | dependence, root and procedural macro in those terms |
| Sbom.Walk | scripts/desktop-sbom.py:219-234 | the depth-first walk visits exactly the ids some chain of normal dependencies reaches, with procedural macros barred or not |
| Sbom.Linked | scripts/desktop-sbom.py:70-85 | exactly the packages reached from the workspace package of that name |
| Sbom.Expand | scripts/desktop-sbom.py:461-464 | marks and queues exactly the targets not seen yet |
| Sbom.Retrace | scripts/desktop-sbom.py:456-460 | following the parents gives a chain from a root, oldest first, as long as the depth says |
| Sbom.Conclude | scripts/desktop-sbom.py:455-460 | the two ways the search ends at an id |
| Sbom.ShortestPath | scripts/desktop-sbom.py:447-465 | the answer is a chain from a root to a package of the name, no longer than any other; or no chain exists; or an unknown id comes first |
| Sbom.NoShortcut | scripts/desktop-sbom.py:453-464 | an id not expanded yet is no closer than the next one in the queue |
| Sbom.NoPathExactly | scripts/desktop-sbom.py:447-465 | no path is answered exactly when every id a chain reaches is known and none has the name |
| Sbom.FoundMeansLinked | scripts/desktop-sbom.py:447-465 | where every reached id has a package, there is no path exactly when `linked` has no package of that name |
| Sbom.Shipped | scripts/desktop-sbom.py:284-300 | a crate is listed exactly if some graph links it, with the places that do, and is build-time-only exactly if in every graph every chain to every package of that name and version meets a procedural macro |
| Sbom.AddGraph | scripts/desktop-sbom.py:287-300 | one graph's packages merged into the components |
| Sbom.MergeLists | scripts/desktop-sbom.py:293-300 | one package merged keeps what the components say of every name and version |
| Sbom.OutOfBinaryMeansMacroOnEveryPath | scripts/desktop-sbom.py:215-234 | a linked package is out of the binary exactly when every chain to it passes through or ends in a procedural macro |
| SelectionGuard.CheckSet | scripts/jev-selection-guard.py:271-327 | no problem exactly for a sound set with a pass rule, whose ids and labels are returned |
| SelectionGuard.CheckCase | scripts/jev-selection-guard.py:412-443 | no problem exactly for a case scored as its label and planned roles demand |
| SelectionGuard.CheckCases | scripts/jev-selection-guard.py:406-443 | no problem exactly when every prompt is scored once, in order, consistently |
| SelectionGuard.Measure | scripts/jev-selection-guard.py:225-268 | each measure is made of the numbers of cases it names, as cardinalities of sets of places, and the rule is met exactly if enough cases agree with their label and few enough of the lead's prompts were delegated |
| SelectionGuard.CountsAreCardinalities | scripts/jev-selection-guard.py:225-256 | each count is the number of the places of the cases it says |
| SelectionGuard.MeasuresTell | scripts/jev-selection-guard.py:237-268 | the measures and the pass rule in these numbers |
| SelectionGuard.CoverageIsBestShare | scripts/jev-selection-guard.py:249-252 | a case's coverage is the best share, over the nonempty role labels, of the wanted roles that were planned |
| SelectionGuard.CoverageAdds | scripts/jev-selection-guard.py:247-252 | the summed coverage adds up over any split of the cases |
| SelectionGuard.MeanCoverageMakesTheSum | scripts/jev-selection-guard.py:262-266 | the mean over the prompts to be delegated makes up the summed coverage; there is one exactly when every case lists its roles and some prompt was to be delegated |
| SelectionGuard.MeasuresAreOrdered | scripts/jev-selection-guard.py:225-268 | exact matches <= coverage <= delegations planned <= delegation cases, and decisions + unnecessary + missed = known cases, for every case list |
| SelectionGuard.CoverageBounds | scripts/jev-selection-guard.py:249-252 | a case's coverage lies between 0 and 1, and is 1 for an exact match |
| SelectionGuard.CleanCounts | scripts/jev-selection-guard.py:410-443 | on a clean report every case counts, role matches are scored for exactly the delegations planned, and the rest are the prompts for the lead |
| SelectionGuard.CleanFlagsAgree | scripts/jev-selection-guard.py:412-443 | on a clean report the harness's flags say what the labels do, and its listed roles are planned, distinct and matched exactly if a label has the same ones |
| SelectionGuard.CleanMeasuresAgree | scripts/jev-selection-guard.py:447-491 | on a clean report role match's denominator is recall's numerator, missed delegation's denominator is recall's, and missed plus recalled are all |
| SelectionGuard.RoleMatchesAgree | scripts/jev-selection-guard.py:243-252 | on clean reports with roles the two counts of role matches agree exactly when no delegation was planned without roles for which an empty label asks |
| SelectionGuard.EmptyLabelMatchesForOne | scripts/jev-selection-guard.py:243-252 | a clean report on which they differ |
| SelectionGuard.OneLabeling | scripts/jev-selection-guard.py:299-317 | a sound prompt set has one reading |
| SelectionVerdict.CheckManifest | scripts/jev-selection-guard.py:348-353 | no problem exactly for a manifest of these prompts, commit and set, or a file that holds `null` |
| SelectionVerdict.CheckRequests | scripts/jev-selection-guard.py:330-353 | no problem exactly when one request per prompt and nothing else was exported, as published, with such a manifest |
| SelectionVerdict.FilesExactly | scripts/jev-selection-guard.py:330-347 | the exported files, to the letter: one request per prompt, the manifest, and a digest of 64 hexadecimal digits as published |
| SelectionVerdict.CheckRecord | scripts/jev-selection-guard.py:363-367 | no problem exactly for a send record with the expected fields, compared as Python compares, or a file that holds `null` |
| SelectionVerdict.CheckSend | scripts/jev-selection-guard.py:356-386 | no problem exactly when there is such a send record and one response per prompt, an object or `null`, and nothing else; the models they name |
| SelectionVerdict.ResponsesExactly | scripts/jev-selection-guard.py:356-386 | the responses, to the letter, and which models they name |
| SelectionVerdict.CheckHeader | scripts/jev-selection-guard.py:393-405 | no problem exactly for a report of this commit, set and number of requests, evaluated without retry, failure or stop, where flags equal 0 and 1 |
| SelectionVerdict.CheckReport | scripts/jev-selection-guard.py:389-444 | no problem exactly for a report sound in its header and its cases, or a file that holds `null`, which has none |
| SelectionVerdict.AcceptedMeansCompleteExactly | scripts/jev-selection-guard.py:447-513 | what gets a result is a complete evaluation exactly when manifest, send record, responses and report are none of them `null` |
| SelectionVerdict.NullReportHasAResult | scripts/jev-selection-guard.py:389-392 | an evaluation in order but for a `null` report gets a result, of no cases |
| SelectionVerdict.GatheredMeasures | scripts/jev-selection-guard.py:461-491 | the measures behind a result fit together, and with a report are of as many distinct prompts as expected; without one they are of none and meet no rule that asks for decisions |
| SelectionVerdict.TotalsExactly | scripts/jev-selection-guard.py:468-489 | the totals agree exactly when each field does, numbers, flags, the optional ones where given and the coverage up to a billionth |
| SelectionVerdict.Verdict | scripts/jev-selection-guard.py:447-513 | a result is given exactly for records the guard accepts, totals and optional ones included; its measures are recomputed from the report under the set's only labels, fit together, and it passes exactly if enough of the cases agree with their label and few enough of the lead's prompts were delegated |

## Left out

- Runs: the run's authorization, cancel token and decision channel are modelled in the driver, not in `RunState`; reading events and status inside `wait_from` is one step, as the event lock makes it for the buffer.
- Driver.DriveControlled: the agent loop's own work is a tape of outcomes; that the tape fits the run (`Fits`) stands for what does not change during a run.
- Lifecycle.StatusFollowsBuffer: speaks of the moments between two events; inside one event the status is set before the event is pushed, as in the code.
- Turns: session titles other than the new one, timestamps and the disabled-history mode; a journal that is unreadable or cannot be removed; writers that append without this protocol, such as a terminal chat.
- SessionData: the model history itself: it is a function of the messages, run records, prompt and limit kept in a `View`.
- SessionData.Session.RecordRunEvents: tool entries keep the call id only.
- EventStreams.FramesAreTheBuffer: the stream is unguarded (`EventStreams.GivenIsTheBuffer` speaks of a guarded one); the keep-alive frames are not modelled.
- Authority: token hashing; a poisoned lock; the durable copy of the audit; two sweeps at a time. A read takes the markers of all profiles at one moment, where the code reads them one by one.
- Authority.CallerAgreesWithPolicy: single-user policies only; in multi-user mode the two ways differ on purpose, for users.
- Acp: what a prompt saves in its session: for stored sessions that is a turn of `Turns` with `editor` set. Sessions in memory, and a session the editor saves again after another client deleted it, are not among them. How a session is searched across profiles; version negotiation; the text of updates and errors: left out. A message the reader cannot parse changes nothing and is not a step.
- Acp.ResponseComesLast: a run's events and status are read in one step, and a run emits nothing after a terminal status, which is what `Lifecycle` and `Observers` prove.
- Acp.BusyMeansOneOwner: a lease held by this process through the HTTP API counts as held elsewhere.
- Sbom.Linked: a set, without the sorted order of the list; packages of one id are the last listed.
- Sbom.Shipped: npm components and the descriptive fields of an entry.
- SelectionGuard.CheckCases: which problems are listed is proved for one case, the manifest, the send record and the header; elsewhere, that there are any. Their order is not.
- Supervision.SweepRuns: a run is looked at when the sweep comes to it, where the code first lists the active runs and then checks them; event streams are asked to re-check after it.
- SelectionVerdict.Verdict: digests and blob ids are given; ratios are exact; the sender's record and the token usage copied into the result are not modelled. Where the code raises, on a case id or a coverage of the wrong type, a field here has the right type or none.
- The thin HTTP handlers, the settings and diagnostics endpoints, the desktop shell and the CI scanners: each checks a scope or a pattern and forwards.
