# Verified model of elogind-usersv

elogind-usersv runs one service manager per user for as long as the user has an eligible login
session. A daemon counts sessions and answers PAM clients; for each user it launches a helper
process, which opens a background PAM session (the lease), has the daemon verify it, and then runs
one manager at a time as its child. This project models the daemon, the helper, the two channels
between them, the wire codec, the readiness framing, the editor of the PAM login stack and the
restart backoff, and proves what they promise.

`dafny verify dfyconfig.toml` checks everything.

## How it is built

- `Machine.dfy` is the state machine of one user's manager: transition functions, and the class
  `UserMachine` whose methods are those transitions in place. The daemon calls these methods.
- `Slices.dfy` is what the daemon knows of one user and one step of its event loop (`Perform`), with
  the invariants every step keeps. `SliceEffects.dfy` says what a step shows to the outside,
  `Replies.dfy` who is answered what, and `Records.dfy` where what is kept of a helper comes from.
- `Books.dfy` and `Daemon.dfy` are the daemon itself: a class with its maps, each method proved to be
  a `Perform` step for one user that leaves the others alone. A turn of the event loop has the effect
  of its name (`TakenAs`), by such steps. `Login1.dfy` is the session inventory and the eligibility
  policy, and `Admission.dfy` says who is admitted without referring to either.
- `Helper.dfy` is the helper as an automaton over everything it does to the outside; what holds in
  all its runs is proved there, and the grammar of its messages in `Conversation.dfy`. `Process.dfy`
  and `Supervisor.dfy` are the helper program as classes, proved to do only what the automaton allows,
  to say only what is so (`Truthful`), to wait without a limit only for a child that was sent SIGKILL,
  and to fail only for a cause: `World.incidents` counts what goes wrong outside.
- `Lockstep.dfy`, `System.dfy`, `Invariance.dfy` put daemon and helpers together over FIFO channels,
  with exit notices that overtake messages, and prove a joint invariant of every reachable state.
  `Guarantees.dfy` draws the conclusions for a state and a turn, `Runs.dfy` for whole runs, and
  `Witness.dfy` constructs a run in which a request is told ready. `Refinement.dfy` ties the daemon's
  maps to the system, from the start on; `Strays.dfy` adds helper
  processes the daemon does not know, and `Staleness.dfy` treats late events.
- `Utf8.dfy`, `Protocol.dfy`, `Codec.dfy`, `Wire.dfy`, `Readiness.dfy`, `Reports.dfy` are the codec, its
  in-place form, the framing and the texts that go through both. UTF-8 is section 4 of RFC 3629.
- `PamEditor.dfy` is the editor, `Config.dfy` the backoff arithmetic.

## Where the code and its promises part

- A manager that the kernel refuses to reap while it is dropped may outlive its session. The lifetime
  invariant of `docs/backend-protocol-v1.md:64-69` holds in a finished run exactly when that never
  happened (`Helpers.LifetimeHoldsIffNothingAbandoned`, `Helpers.AbandonedManagerOutlivesSession`).
- A failed `waitpid` or `poll` ends the stopping of a manager with an error, and the exit is not
  reported. If that happens in a start attempt, the helper goes on and reports a failed start
  (`Conversations.FailedStopBreaksConversation`). The messages follow the grammar exactly when
  nothing is said after stopping a manager failed (`Conversations.ConversationIffStopsReported`);
  other failed waits do no harm (`Conversations.StoppedRunsConverse`).
- A launch that fails after the helper process exists leaves a process that is never registered, and
  another helper may be launched beside it (`Strays.StrayAndHelperCanLive`). The lock of the user keeps
  them from holding a lease or owning a manager at the same time (`Strays.OneLeasePerUser`).
- Disabling what was enabled gives the file back, except that an unterminated anchor line has gained
  its line feed (`PamEditor.DisableInvertsEnable`). Enabling what was disabled gives it back exactly
  under the condition in `PamEditor.EnableInvertsDisable`.
- The flag by which a stopping machine remembers to restart can be outdated. It then costs a timer
  and nothing else (`Staleness.RestartCanBecomeOutdated`, `Staleness.OutdatedRestartIsHarmless`).

## Model

| member | source | states |
|---|---|---|
| Machines.UserMachine.SetEligibleSessions | daemon/src/state.rs:54-93 | a user's first session asks for a helper or a later restart, the last one gone refuses all waiters and stops the helper |
| Machines.UserMachine.AddPamRequest | daemon/src/state.rs:95-102 | a request is answered at once if the manager is ready, and otherwise waits last |
| Machines.UserMachine.CancelPamRequest | daemon/src/state.rs:104-106 | a cancelled request no longer waits and the others keep their order |
| Machines.UserMachine.HelperStarted | daemon/src/state.rs:108-115 | a new helper starts at attempt 1; the asserted absence of another is the precondition |
| Machines.UserMachine.LeaseWasAccepted | daemon/src/state.rs:117-129 | an accepted lease asks for the current attempt, unless a manager is already known |
| Machines.UserMachine.ManagerStarted | daemon/src/state.rs:131-141 | a spawned manager is recorded only for the current generation while starting |
| Machines.UserMachine.ReadyDone | daemon/src/state.rs:143-166 | readiness needs a known manager, keeps the attempt less one, and answers all waiters |
| Machines.UserMachine.StartupFailure | daemon/src/state.rs:168-196 | a failed start backs off to the next attempt, or stops when nobody needs it |
| Machines.UserMachine.ManagerExit | daemon/src/state.rs:198-235 | a ready manager that exits backs off, a starting one is forgotten |
| Machines.UserMachine.BackoffDone | daemon/src/state.rs:237-256 | only the timer of the current generation and attempt starts again |
| Machines.UserMachine.HelperExit | daemon/src/state.rs:258-284 | the current helper's exit leaves the machine absent, with a respawn if it is needed |
| Machines.UserMachine.StartShutdown | daemon/src/state.rs:286-304 | shutdown zeroes the count, stops the helper and refuses all waiters |
| Machines.WithoutKeepsOthers | daemon/src/state.rs:104-106 | removing a waiter removes all its occurrences and no other waiter |
| Slices.PerformKeepsSound | daemon/src/app.rs:224-285 | every step keeps: helper registered iff the machine has its generation, waiters are the pending requests once each, serving and waiting need a session, nobody is left without the timer that will help, the count is right |
| Slices.RecountKeepsSound | daemon/src/app.rs:452-462 | a change in the number of sessions keeps all of these |
| Slices.HearKeepsSound | daemon/src/app.rs:574-676 | so does any message a helper may send, wanted or not |
| Slices.HelperGoneKeepsSound | daemon/src/app.rs:867-896 | so does the exit of a helper, whose replacement is delayed |
| SliceEffects.PerformAccounts | daemon/src/app.rs:811-815 | a step answers a pending request exactly when it stops being pending, and once |
| SliceEffects.StepWithHelper | daemon/src/app.rs:817-859 | while a helper is registered no other is launched and none but it is written to |
| SliceEffects.StepWithoutHelper | daemon/src/app.rs:817-851 | without one at most one is launched, under the next generation, for a user that has a session |
| SliceEffects.ReadyAnswersComeFromReady | daemon/src/state.rs:95-166 | a request is answered ready only in a step that leaves the machine ready |
| Replies.AnswersAreDue | daemon/src/state.rs:54-304 | whoever is answered is told ready exactly when the step leaves the manager ready; the error codes are those of the last session gone, the request expired, and the shutdown, and no others |
| Replies.NobodyWaitsInVain | daemon/src/state.rs:72-166 | a step that leaves the manager ready, or the user without a session, answers everyone who waits, the one who joins in it included |
| Replies.ReadyIsToldAtOnce | daemon/src/state.rs:95-98 | a request to a ready manager is told so in the step by which it joins |
| Records.StepKeepsRecords | daemon/src/app.rs:574-676 | the lease and the process number kept after a step were kept before, or the helper they belong to has just told them |
| Records.PidIsTakenOver | daemon/src/state.rs:131-166 | a starting machine takes over the process number it is told and keeps it when it becomes ready |
| Records.PidIsForgotten | daemon/src/app.rs:657-668 | once the exit of the manager is told no process number is kept |
| SliceEffects.StartsOfStep | daemon/src/app.rs:748-767 | only accepting a lease and the end of a backoff send a start command, and at most one |
| Books.StepKeepsBooks | daemon/src/app.rs:224-285 | a step of one user keeps all users sound, all requests accounted for and all bounds |
| Books.JoinKeepsAccounts | daemon/src/app.rs:525-572 | so does a request that joins below the bounds of 1024 and 64 |
| Books.StopAllStops | daemon/src/state.rs:286-304 | after the shutdown of a user its helper was told and nobody waits with the machine |
| Books.StopAllCloses | daemon/src/state.rs:286-304 | the shutdown of a user shows nothing but the command to leave and internal errors for those who wait |
| Daemons.Daemon.SpawnHelper | daemon/src/app.rs:817-851 | spawning uses up a generation, registers helper and machine together, and on failure arms a timer |
| Daemons.Daemon.SendHelper | daemon/src/app.rs:853-859 | commands reach only the registered generation |
| Daemons.Daemon.ApplyActions | daemon/src/app.rs:748-809 | actions are carried out in order, for one user only |
| Daemons.Daemon.HandlePamRequest | daemon/src/app.rs:464-572 | which requests are refused and with which code; an accepted one counts its session and joins under a new number |
| Daemons.Daemon.PamExpired | daemon/src/app.rs:231-238 | an expired request is answered, dropped and forgotten by its machine |
| Daemons.Daemon.HelperMessage | daemon/src/app.rs:574-676 | stale messages change nothing; a lease is accepted only if it holds |
| Daemons.Daemon.HelperExited | daemon/src/app.rs:867-896 | only the registered generation is removed, and its respawn is delayed |
| Daemons.Daemon.BackoffElapsed | daemon/src/app.rs:265-276 | a backoff timer acts on the machine as it is when it fires |
| Daemons.Daemon.SpawnReplacement | daemon/src/app.rs:277-283 | a replacement is spawned only for an absent machine that has a session |
| Daemons.Daemon.FilterEligible | daemon/src/app.rs:362-380 | the listed sessions that the policy admits, by user |
| Daemons.Daemon.ReplaceEligible | daemon/src/app.rs:382-403 | every user is counted anew, each by one step of its own and in any order, which is all that becomes of the log and the generations; the accounts stay in order |
| Daemons.Daemon.Reconcile | daemon/src/app.rs:338-360 | after a successful listing the inventory is the list and every count is a fresh count of it, by recounts only; a failed one changes nothing but the availability |
| Daemons.Daemon.RefreshSession | daemon/src/app.rs:405-431 | a new session is recorded; it counts from now on if it is admitted, and otherwise no user changes |
| Daemons.Daemon.RemoveSession | daemon/src/app.rs:433-450 | a removed session counts no longer for the user it was last seen with or, if it was never seen, for one it counted for |
| Daemons.Daemon.VerifyActiveLeases | daemon/src/app.rs:710-746 | every lease is checked against a session of its user; a user whose lease fails is stopping, by the step of that name, and no other user changes |
| Daemons.Daemon.HandleDaemonEvent | daemon/src/app.rs:224-285 | every event has the effect of its name and keeps all invariants; a request is refused with the code that is due, without any change, or counts its session and joins |
| Daemons.Daemon.HandleLoginEvent | daemon/src/app.rs:287-314 | losing the login manager or the bus changes no user; after its return every count is that of the fresh listing, and exactly the users whose lease does not hold are stopping besides; a new session counts if it is admitted and a removed one counts no longer |
| Daemons.Daemon.TryRecover | daemon/src/app.rs:316-336 | recovery lists the sessions and verifies the leases, on a new connection even if the listing fails; only users whose lease does not hold are stopping besides |
| Daemons.Daemon.TakeTurn | daemon/src/app.rs:175-222 | every turn has its effect: the event is handled, the login event too while there is a connection, the sessions are listed while the login manager is available, and a reconnection is tried while it is not; a message, an exit or a timer is exactly one step |
| Daemons.Daemon.OrderlyShutdown | daemon/src/app.rs:898-936 | every helper is told, nothing else is sent or launched, whoever waits gets an internal error, and every request ever accepted has been answered once |
| Daemons.Daemon.AwaitExits | daemon/src/app.rs:898-936 | during the shutdown exactly the helpers whose own exit is heard are forgotten |
| Daemons.RunDaemon | daemon/src/app.rs:175-222 | from start to end, whatever comes and however the outside answers, each round has its effect by lawful steps; the requests not refused get the numbers from 1 on, as many as there were, and each of them has been answered exactly once at the end |
| Login1.SessionInventory.Reconcile | daemon/src/login1.rs:276-296 | the inventory becomes the listed sessions and the differences are reported |
| Login1.DifferencesAreExact | daemon/src/login1.rs:276-296 | an identifier is reported exactly when its session differs, under one heading only |
| Login1.ByIdHoldsTheList | daemon/src/login1.rs:276-280 | the inventory holds one session of the list for every identifier in it |
| Login1.LeasesNeverCount | daemon/src/login1.rs:247-267 | a session that passes as a lease never counts as a login session |
| Admission.AllLoginsCount | daemon/src/login1.rs:259-268 | the sessions that count for a user are all listed logins under the name of the account, from the lower limit on with the limit included, for root only if configured, for nobody never |
| Admission.LoginsAreCounted | daemon/src/app.rs:338-403 | and after a listing that many are counted |
| Admission.RefusalsAreExact | daemon/src/app.rs:464-572 | a request is refused with a code exactly in the case the code names, and accepted in no other; 1024 and 64 requests are the limits |
| Admission.VerifiedExactly | daemon/src/app.rs:678-708 | a message makes the daemon accept a lease exactly when the login manager knows the announced session as the user's internal one, of class and service as required, with the same absolute and trusted directory |
| Helpers.ManagerIsPinned | supervisor/src/main.rs:54-111 | in every run an owned manager has an accepted lease open under the lock |
| Helpers.LifetimeHoldsIffNothingAbandoned | supervisor/src/process.rs:338-345 | the lifetime invariant holds throughout a finished run iff no manager was dropped unreaped |
| Helpers.AbandonedManagerOutlivesSession | supervisor/src/process.rs:338-345 | a run in which it fails: the lease is announced with an identifier and an absolute path, the report of the manager cannot be sent, waiting for the dropped child fails, and the session is closed under it |
| Helpers.FinishedRunClosedEverything | supervisor/src/pam.rs:169-206 | session, transaction and lock are closed as often as opened, at most once; managers forked are reaped or abandoned |
| Helpers.SessionClosesInOrder | supervisor/src/main.rs:107-111 | the session closes after every fork and reap and before the lock is released |
| Helpers.LeavingRunsAreShort | supervisor/src/main.rs:333-379 | a helper on its way out does boundedly much and starts nothing |
| Helpers.LeavingNeverSticks | supervisor/src/main.rs:54-111 | and always has a next step until it is gone |
| Helpers.ShutdownMakesItLeave | supervisor/src/main.rs:81-162 | wherever it is read, a shutdown command makes the helper leave |
| Processes.Child.TryWait | supervisor/src/process.rs:237-252 | a child is reaped at most once, and how it ended is known from then on |
| Processes.Child.Wait | supervisor/src/process.rs:254-277 | waiting without a limit, for which the last signal sent must be SIGKILL, reaps the child unless it fails |
| Processes.Child.WaitTimeout | supervisor/src/process.rs:279-305 | gives up only when the time has passed, and never with the child reaped |
| Processes.Child.Drop | supervisor/src/process.rs:338-345 | a dropped child was reaped before or is killed, and reaped unless waiting fails |
| Processes.PamLease.Acquire | supervisor/src/pam.rs:65-106 | a failure after the transaction began ends it; an opened lease has the variables of its session |
| Processes.PamLease.CloseInner | supervisor/src/pam.rs:169-195 | an open session is closed, and the transaction ended whatever happens |
| Supervisors.Supervisor.StopManager | supervisor/src/main.rs:333-379 | the manager is given up and its exit reported as it was, or a wait or a send has failed |
| Supervisors.Supervisor.StopChild | supervisor/src/main.rs:337-377 | the stop hook is called with the number of the manager, unless that is reaped at once; every wait that is given up is one for the graceful and then one for the forced timeout, followed by SIGTERM and then SIGKILL; the manager is reaped in the end unless waiting fails |
| Supervisors.Supervisor.AwaitHook | supervisor/src/main.rs:341-357 | the stop hook is killed exactly if it does not end within the graceful timeout |
| Supervisors.Supervisor.ReadPayload | supervisor/src/main.rs:218-265 | a payload that is read is the one message the FIFO held, can always be reported and arrives unchanged; an error has a cause or comes after the deadline, and nothing is waited for beyond it; the unreachable line is never reached |
| Supervisors.Supervisor.WaitReady | supervisor/src/main.rs:267-305 | success means that the ready action was reaped and exited with 0, and that the manager was looked at again after that and still there; an error has a cause or comes after the deadline |
| Supervisors.Supervisor.WaitWhileRunning | supervisor/src/main.rs:307-331 | how the wait ends: manager reaped with this status, told to stop, or on the way out; no command is passed over |
| Supervisors.Supervisor.StartManager | supervisor/src/main.rs:164-216 | success leaves a ready manager, after one call of the backend with the attempt and one with the text received; a failure has a cause, one that can be reported leaves no manager, and the readiness timeout counts from the start of the attempt |
| Supervisors.Supervisor.EventLoop | supervisor/src/main.rs:131-162 | leaving without an error means on the way out with every attempt reported, and an error has a cause |
| Supervisors.Announce | supervisor/src/main.rs:66-79 | the lease is announced with its own identifier and directory if the session is of the required class and type with an absolute directory, and otherwise the helper gives up |
| Supervisors.OpenLease | supervisor/src/main.rs:57-65 | that the lease cannot be opened is reported, if anything can be |
| Supervisors.RunHelper | supervisor/src/main.rs:50-112 | every run of the program ends, given the bounded `World.patience` with which the world lets it poll, and is a run of the automaton that ends with the process gone; it ends with an error only for a cause and otherwise because it was told to |
| Supervisors.RunHelperSafely | supervisor/src/main.rs:50-112 | hence in every run of the program all is closed as often as opened, a manager alive has its session unless one was abandoned, and every message was true when it was sent |
| Supervisors.Bounded | supervisor/src/main.rs:509-519 | the text as sent is the longest fit of the sanitized text |
| Conversations.ConversationIffStopsReported | supervisor/src/main.rs:333-379 | a helper's messages follow the grammar exactly when nothing is said after the stopping of a manager ended with an error |
| Conversations.StoppedRunsConverse | supervisor/src/main.rs:131-379 | and so whenever every stopping of a manager succeeds, whichever other waits fail |
| Conversations.CleanRunsConverse | supervisor/src/main.rs:131-379 | in particular when no wait for a child fails |
| Conversations.FailedStopBreaksConversation | supervisor/src/main.rs:337-339 | a run in which they do not, with texts that can be sent: a failed start is reported of a manager whose exit was not |
| Conversations.OneManagerAtATime | supervisor/src/main.rs:131-379 | at every point all managers but at most the last have been reported gone |
| Lockstep.MoveKeepsJoint | supervisor/src/main.rs:131-331 | whatever the helper does next, messages in flight lead the machine to where the helper is |
| Lockstep.HearKeepsJoint | daemon/src/app.rs:574-676 | so they do after the daemon heard the oldest of them |
| Lockstep.DaemonStepKeepsJoint | daemon/src/app.rs:748-809 | and after any other step of the daemon |
| Lockstep.ConsumeKeepsInStep | daemon/src/state.rs:131-235 | the oldest message is always one the machine expects |
| Invariance.TurnKeepsSound | daemon/src/app.rs:175-285 | every turn of daemon, helpers and world keeps the joint invariant |
| Invariance.EveryRunIsSound | daemon/src/app.rs:175-285 | it holds in every reachable state, over all interleavings |
| Guarantees.StartingHasOneToken | daemon/src/state.rs:117-256 | a starting user with an accepted lease has exactly one attempt under way, its own, or none if the send that was to start it failed |
| Guarantees.ResultsAreCredited | daemon/src/app.rs:637-668 | results change the machine for the attempt that produced them |
| Guarantees.CommandsArriveInPlace | supervisor/src/main.rs:81-162 | no start command reaches a helper that has a manager; acceptance and rejection arrive while awaited |
| Guarantees.ManagersHaveVerifiedLeases | supervisor/src/main.rs:81-111 | a manager runs only under a lease the daemon has verified |
| Guarantees.ReadyIsEarned | daemon/src/app.rs:637-645 | a request is told ready only when the helper of the user who made it has a verified lease and its ready action exited with 0 for the latest start command |
| Guarantees.StoppingIsForGood | daemon/src/state.rs:78-90 | a stopping generation becomes absent when its process is gone and nothing else before |
| Guarantees.StoppingIsTold | daemon/src/app.rs:604-623 | its helper is leaving, or has a command before it that makes it leave, or cannot be told |
| Guarantees.StartsAreNumbered | daemon/src/state.rs:143-256 | the n-th start command of a generation carries attempt n, saturating, and no turn sends two |
| Guarantees.BackoffWaitsExactly | daemon/src/app.rs:776-796 | after n start commands a user in backoff has its timer outstanding, set to exactly min(minimum * 2^min(n-1, 31), maximum) |
| Runs.AttemptsIncrease | daemon/src/state.rs:143-256 | over every run the attempts of one generation's start commands strictly increase, through failures and readiness alike, until they stay at the 32-bit maximum |
| Runs.TimerAt | daemon/src/app.rs:776-796 | over every run each scheduled backoff has exactly the delay due after the start commands asked for by then |
| Runs.DelaysNeverShrink | crates/core/src/config.rs:124-129 | over every run the delays scheduled for one generation never decrease |
| Runs.OneTokenInEveryRun | daemon/src/state.rs:117-256 | in every run a starting user with an accepted lease has exactly one attempt under way, or none in exactly the cases of a lost send |
| Runs.ReadyIsEarnedInEveryRun | daemon/src/app.rs:637-645 | in every run nobody is told ready but a user whose helper then has a verified lease and a ready action that exited with 0 |
| Runs.AnswersAreDueInEveryRun | daemon/src/state.rs:54-304 | in every run whoever is answered is told ready exactly when the turn leaves the user's manager ready, and an error only for the cause it names |
| Records.EveryRecordWasTold | daemon/src/app.rs:583-632 | in every run the lease registered for a user is one that this helper announced and the daemon verified, and the process number kept one that it reported |
| Witnesses.ReadyIsReachable | daemon/src/app.rs:637-645 | from every initial state some run reaches a turn in which a request is told ready |
| Runs.StartsArriveInEveryRun | supervisor/src/main.rs:144-154 | in every run a start command finds an idle helper with its accepted session open, and carries its number |
| Guarantees.TurnKeepsAlone | daemon/src/app.rs:817-851 | a helper process that is not gone is the registered one of its user |
| Guarantees.OneHelperPerUser | daemon/src/app.rs:817-851 | in no reachable state two helpers of one user are alive, as long as no launch fails late |
| Strays.EveryWideRunIsSound | supervisor/src/runtime.rs:49-61 | beside helpers left by an earlier daemon, and with launches that fail late, the joint invariant of the system still holds in every reachable state, and no two processes hold the lock of one user |
| Strays.OneLeasePerUser | supervisor/src/runtime.rs:49-61 | then too no two processes of one user hold a lease or own a manager at the same time: a helper does not overlap an orphaned old one |
| Strays.OnlyStraysLiveBeside | daemon/src/app.rs:817-851 | two processes of one user alive together are the same, or one is unknown to the daemon |
| Strays.StrayAndHelperCanLive | daemon/src/app.rs:839-848 | a run in which a helper lives beside one whose launch failed late |
| Refinement.StartIsInitial | daemon/src/app.rs:175-222 | the maps a daemon starts with are those of an initial state of the system |
| Refinement.StepIsTurn | daemon/src/app.rs:175-285 | a step of the daemon's maps is a turn of the system: hearing is the delivery of the oldest message of that channel, an exit is its notice, and the log grows by what the turn shows |
| Refinement.AllowedIsCaused | daemon/src/app.rs:224-285 | the daemon's other steps need no cause in a helper |
| Refinement.EveryDaemonIsSound | daemon/src/app.rs:175-285 | the lawful steps that a daemon's turns are, with any events of its helpers in between, are a run of the system that ends with the daemon's maps and shows its log, and the joint invariant holds |
| Refinement.EveryCourseIsSound | daemon/src/app.rs:175-285 | whatever happens to a daemon from its start on is a run of the system that shows its maps and its log, and the joint invariant holds |
| Staleness.ErasureKeepsCourse | daemon/src/app.rs:265-283 | erasing stale messages, exits and timers from any course of events changes no state but the timers outstanding, and no effect |
| Staleness.BranchesNeverTaken | daemon/src/state.rs:180-283 | the replies and shutdowns for users without a session are never asked for |
| Staleness.OutdatedRestartIsHarmless | daemon/src/app.rs:277-283 | an outdated wish to restart launches nothing |
| Codec.EncodesIffEncodable | crates/protocol/src/lib.rs:383-401 | a message encodes exactly when its strings fit, and no packet is too large |
| Codec.DecodeInvertsEncode | crates/protocol/src/lib.rs:219-381 | decoding gives back every message of all four types |
| Codec.EncodeInvertsDecode | crates/protocol/src/lib.rs:403-503 | only the packet that encoding produces decodes |
| Codec.OneTypePerPacket | crates/protocol/src/lib.rs:20-36 | no packet is a message of two types |
| Codec.NoPrefixDecodes | crates/protocol/src/lib.rs:403-424 | no proper prefix of a valid packet is valid |
| Codec.PacketLayout | docs/wire-protocols-v1.md:3-11 | where the header fields are |
| Codec.SamplePackets | crates/protocol/src/lib.rs:20-63 | whole packets with their numbers |
| Codec.PacketsAreSpelledOut | crates/protocol/src/lib.rs:20-63 | every message that encodes is the packet with the kind, error code and status numbers and the big-endian lengths of the specification |
| Wire.Encoder.String | crates/protocol/src/lib.rs:437-448 | a string is appended whole or refused with its fault |
| Wire.Decoder.String | crates/protocol/src/lib.rs:473-494 | a string is read with its checks in this order |
| Wire.OpenPacket | crates/protocol/src/lib.rs:403-424 | the header is checked in this order |
| Wire.EncodeRequest | crates/protocol/src/lib.rs:220-230 | encodes as the codec does |
| Wire.DecodeRequest | crates/protocol/src/lib.rs:232-243 | decodes as the codec does |
| Wire.EncodeReply | crates/protocol/src/lib.rs:247-255 | encodes as the codec does |
| Wire.DecodeReply | crates/protocol/src/lib.rs:257-269 | decodes as the codec does |
| Wire.EncodeCommand | crates/protocol/src/lib.rs:273-286 | encodes as the codec does |
| Wire.DecodeCommand | crates/protocol/src/lib.rs:288-304 | decodes as the codec does |
| Wire.EncodeReport | crates/protocol/src/lib.rs:308-343 | encodes as the codec does |
| Wire.DecodeReport | crates/protocol/src/lib.rs:345-380 | decodes as the codec does |
| Utf8.ValidIffEncoded | crates/protocol/src/lib.rs:487 | the bytes accepted as text are exactly the encodings of strings |
| Utf8.CharsSurviveEncoding | crates/protocol/src/lib.rs:445-446 | a string is recovered from its bytes |
| Utf8.BytesSurviveDecoding | crates/protocol/src/lib.rs:487 | and the bytes from the string |
| Utf8.BoundaryIffPrefixValid | supervisor/src/main.rs:515-518 | a text may be cut exactly at character boundaries |
| Readiness.ReadinessFrame.Push | crates/protocol/src/lib.rs:178-203 | a chunk is added and everything received is judged |
| Readiness.VerdictIsExact | crates/protocol/src/lib.rs:183-202 | what a message and "no message yet" are, independently of the order of checks |
| Readiness.PushFollowsStream | crates/protocol/src/lib.rs:178-203 | for any chunks, a push returns a text iff the stream so far is that text and one NUL and was never complete before |
| Readiness.FirstResultIsFinal | crates/protocol/src/lib.rs:178-203 | after an error or a message every push fails |
| Readiness.BufferIsBounded | supervisor/src/main.rs:247-259 | the buffer never exceeds the longest payload and one chunk |
| Reports.BoundedMessage | supervisor/src/main.rs:509-519 | the longest prefix of the sanitized text that fits and ends at a character, found within three steps |
| Reports.PayloadsAreDelivered | supervisor/src/main.rs:190-192 | every payload a stream yields encodes and arrives unchanged |
| Reports.DeliveredPayloadsAreFramed | crates/protocol/src/lib.rs:172-203 | every payload that encodes is one a stream yields |
| Reports.BoundedTextsAreDelivered | supervisor/src/main.rs:151-152 | a bounded error text encodes and arrives unchanged iff it is not empty |
| PamEditor.EnableInto | pam-config/src/main.rs:222-246 | building the file piece by piece gives the insertion after the anchor |
| PamEditor.InspectIsExact | pam-config/src/main.rs:198-220 | disabled iff no line names the module, enabled iff one does, as the managed line right after an anchor |
| PamEditor.ModuleNameByWords | pam-config/src/main.rs:258-265 | a line names a module by its words alone |
| PamEditor.EditsSucceedExactly | pam-config/src/main.rs:222-256 | which files are refused |
| PamEditor.EnableEnables | pam-config/src/main.rs:222-246 | enabling keeps every line in order, adds one after the anchor, and the result inspects as enabled |
| PamEditor.EnableKeepsLines | pam-config/src/main.rs:222-246 | the lines read are the same and one more, except for a carriage return at the end of an unterminated anchor |
| PamEditor.DisableInvertsEnable | pam-config/src/main.rs:248-256 | disabling gives back the file, or the file and the line feed its last line lacked |
| PamEditor.DisableDisables | pam-config/src/main.rs:248-256 | the result of disabling is disabled |
| PamEditor.EditsAreIdempotent | pam-config/src/main.rs:222-256 | doing either twice is doing it once |
| PamEditor.EnableInvertsDisable | pam-config/src/main.rs:222-256 | enabling restores what was disabled exactly when the managed line was as the editor writes it and its anchor is the only one |
| Config.DelayIsExact | crates/core/src/config.rs:124-129 | despite saturation the delay is min(minimum * 2^k, maximum) |
| Config.DelaysNeverDecrease | crates/core/src/config.rs:124-129 | later attempts never wait less |
| Config.ValidatedDelaysAreBounded | crates/core/src/config.rs:87-96 | which settings pass validation, and that delays then lie between the limits |

## Left out

- D-Bus proxies, signal subscription and the answers of the login manager: they are parameters of the
  daemon's methods.
- Sockets, `poll`, pidfd, fork and exec, file descriptors, peer credentials: FIFO channels, an abstract
  child and a clock stand for them. A send that fails once fails for good.
- The PAM calls themselves, the PAM module of the login stack, and its answers: the opened and ended
  discipline of the lease and the variables of its session are kept.
- File ownership and path checks, and the runtime directory beyond the per-user lock, which is a flag
  of the helper. The readiness FIFO and the per-attempt state directory are abstract, and so is the
  assembly of the backend environment.
- TOML loading, argument parsing, logging, the lower limit of user identifiers, backend names.
- Atomic replacement and locking of the edited file.
- The wrap-around of generation and request numbers, which takes 2^64 of them.
- A helper killed from outside without running its drop code, and with it the managers that such a
  helper leaves behind.
- Guarantees.OneHelperPerUser: does not include launches that fail after the helper process was
  started, of which it is false; `Strays.dfy` has what holds with them.
- The timers of pending requests: their expiry is an event that may come at any time.
- Processes.World: its `patience` bounds how often it lets the helper poll before it hangs up, so that
  runs are finite; any finite part of an unbounded wait is part of a run with enough patience.
- Signals from the login manager that are invalid, which are only logged.
- Processes.World: its clock moves by any number of ticks at a time, so waiting has lower bounds and
  exact timeouts but no upper bound on when it ends.
- Daemons.Daemon: the machines in its map are values, each changed as a `UserMachine` object that is
  taken out and put back; the ownership of the map excludes sharing, so nothing else is lost.
- Texts are strings in the state machines and UTF-8 bytes in the codec; the two correspond one to one
  (`Utf8.CharsSurviveEncoding`, `Utf8.BytesSurviveDecoding`).
- The wording of the helper's error texts: what matters is that they are bounded and sent.
