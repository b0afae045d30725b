# Owners of irreversible effects

These modules model the parts of the live-stream operations code that own an effect which cannot be taken back: a
PATCH to the relay, a service restart, a provider call, an appended record. Each stays correct when evidence is
missing, a clock steps, or the process dies between a durable write and the effect; the lemmas say so over every
run. Beside them are the streaming loops whose result must not depend on how their input was cut or windowed.

| file | what it holds |
|---|---|
| `TwitchSession.dfy`, `TwitchRuns.dfy` | the renewal policy, its schedule, the seven-phase reducer, and what every run of it keeps |
| `TwitchDaily.dfy`, `TwitchDailyRuns.dfy`, `TwitchDailyOutcomes.dfy`, `TwitchDailyOwner.dfy` | the journal, outbox and owner loop as moves with crashes, what every run keeps, what each move does exactly, and the program that takes those moves |
| `ReceiverGuard.dfy`, `ReceiverRuns.dfy`, `ReceiverRecovery.dfy`, `ReceiverProgram.dfy` | one receiver observation as an ordered plan of durable effects, runs with crashes, what always leads to a restart, and the in-place program |
| `RelayLease.dfy`, `RelayGuard.dfy`, `RelayRuns.dfy`, `RelayProgram.dfy` | lease admission, the forwarding state machine, runs over restarts, and the program |
| `NotificationGateway.dfy` | the receipt table and its delivery runs |
| `GapRecorder.dfy` | the gaps of a timeline and their recording over rotating windows |
| `Chunks.dfy`, `FramedChannel.dfy`, `TransportProbe.dfy` | streams cut into chunks: the framed byte channel and the 64-byte token window |
| `WindowCounters.dfy`, `Checksum.dfy`, `OutageEpisode.dfy`, `PlayerContinuity.dfy` | indexed windows and deques, the echo checksum, outage episodes, the player assessment |

Conventions. A run is a sequence of ticks, moves, steps or events, each carrying everything that the program met
(clock readings, replies, which effects completed before it died); every lemma about runs holds for all of them.
SQLite rows and state files are values that change in whole transactions. SHA-256 and HMAC are injective. Seconds
are `int` microseconds in the renewal protocol and `real` elsewhere. Where the code mutates objects or loops, a
class or method with the same fields and branches is proved equal to the function that the lemmas are about.

Results that differ from a first reading of the code, each with its exact condition:

- A wall clock that steps seven days lets the purge remove a fresh receipt, so a delivered message can be sent again
  at once (`NotificationGateway.PurgeAllowsRepeat`). Over any events in between that happens exactly when some purge
  among them reads a wall time more than seven days past the receipt's creation (`RepeatsAfterRunExactlyWhen`); on a
  wall clock that never does so within 180 s of a delivery, calls are always 180 s apart (`SteadyWallSpacesCalls`).
- A gap is lost when two gaps share both capture times (`GapRecorder.StalledCaptureTimeLosesGap`). The log is the
  list of gaps exactly when no two rows that close a gap do (`RecordsAllExactlyWhen`).
- A warning count written for one second misses the later warnings of that second
  (`WindowCounters.SecondWarningIsMissed`), because only the smallest value of a second is written. It is
  the whole history's count exactly when no warning follows the second's first event (`WarnCounts`).
- An observer clock that steps back can leave an episode file that its own loader refuses, can swallow an outage
  (`OutageEpisode.ClockStepsBack`), and can stop the observer for good (`ClockStepsBackForGood`). It stops for good
  exactly when a restart or an UP finds the open episode's first and last DOWN out of order
  (`NeverStartsExactlyWhen`); the file loads exactly when that never happened and they are in order now
  (`LoadsExactlyWhen`); nothing is refused exactly when every outage's restarts and its UP read in order
  (`NoneRefusedExactlyWhen`); and the sequence counts every outage exactly when none begins right after a refused UP
  or after the observer stopped (`SequenceCountsExactlyWhen`).
- A receiver snapshot refused as UNKNOWN because the decoder behind it changed is told as HEALTHY and confirmed when
  it is read a second time, exactly when the status before it was confirmed and it holds fresh positions
  (`ReceiverRecovery.RefusedSnapshotRetold`).

Two guards of single decisions are also gathered in one statement each, as corollaries of the bodies:
`NotificationGateway.CalledExactlyWhen` and `ReceiverRuns.ReservesExactlyWhen`. `RelayLease.NoReplay` is the
single-admission case of `RelayRuns.LeasesAreSpentOnce`.

## Model

| member | source | states |
|---|---|---|
| TwitchSession.NextRenewalIsLeast | ops/relay/twitch_session.py:95-108 | For every start and accepted policy the schedule is strictly later, at most one day away, reads the renewal time on a JST clock, and no instant before it does. |
| TwitchSession.DueBeforeBroadcastLimit | ops/relay/twitch_session.py:50-64 | The due instant is after the start and within a day, and due time, timeout and skew together end before the 48-hour broadcast limit. |
| TwitchRuns.StepKeepsInvariant | ops/relay/twitch_session.py:319-488 | One tick from any invariant run, saved or dropped by the driver, keeps every field of the state tied to the log of the renewal in progress. |
| TwitchRuns.ReplayKeepsInvariant | ops/relay/twitch_session.py:319-488 | The invariant holds after every tick sequence from the empty state. |
| TwitchRuns.CommandGrammar | ops/relay/twitch_session.py:399-466 | In every run the commands alternate STOP, START; a START repeats the operation and binding of its STOP; the session start grows from pair to pair; no request ID recurs. |
| TwitchRuns.EveryStartIsJustified | ops/relay/twitch_session.py:447-466 | Every START follows its own confirmed STOP by at least the offline wait of boottime, on an OFFLINE fact no older than that confirmation, and within the renewal timeout of wall time after the STOP. |
| TwitchRuns.EveryRenewalAdvances | ops/relay/twitch_session.py:473-487 | Every completed renewal ends on a session that started later than the stopped one and no earlier than its START less the skew, within the timeout. |
| TwitchRuns.MovesExactlyOnEvidence | ops/relay/twitch_session.py:335-488 | At every reachable state a tick moves the renewal on if and only if the clock continues, the route and lease authorise it, the deadline holds and the phase's own evidence is there, each stated on the fields of the tick. |
| TwitchRuns.HaltsExactlyWhen | ops/relay/twitch_session.py:363-458 | At every reachable state a tick cancels a renewal if and only if the route was handed over or is another one, and leaves it UNKNOWN if and only if it is authorised on that route and the deadline has passed, the awaited command's outcome is unknown, or the stopped writer is seen other than stopped. |
| TwitchRuns.OldWriterStaysStopped | ops/relay/twitch_session.py:455-466 | Between the confirmation of a STOP and its START every authorised tick in time saw the old writer stopped, in its old generation. |
| TwitchRuns.RecordsExactly | ops/relay/twitch_session.py:331-438 | A tick records nothing once halted or off the timeline, and otherwise one revision with its clock; an idle tick learns the session exactly from a credible live broadcast. |
| TwitchRuns.NeverCorrupt | ops/relay/twitch_session.py:335-352 | No reachable state is ever judged corrupt, whatever the inputs. |
| TwitchRuns.HaltIsAbsorbing | ops/relay/twitch_session.py:353-354 | After UNKNOWN or CANCELLED no later tick changes the state or emits a command. |
| TwitchRuns.AdoptedClocksAgree | ops/relay/twitch_session.py:355-362 | Between any two adopted ticks the boot is the same, elapsed time does not decrease, and wall time differs from it by at most the skew per tick adopted. |
| TwitchDailyRuns.ActsSafe | ops/relay/twitch_daily.py:251-367 | After every sequence of moves, crashes anywhere included, tables, process memory and reducer history satisfy the safety invariant. |
| TwitchDailyRuns.ChangesAtMostOnce | ops/relay/twitch_daily.py:92-94 | No request ID reaches the relay twice, and each one that does has its own outbox row with exactly one attempt. |
| TwitchDailyRuns.ChangeFollowsDispatch | ops/relay/twitch_daily.py:334-337 | The move that changes the relay adds exactly one command, whose row is already durably DISPATCHING on its only attempt and which never reached the relay before. |
| TwitchDailyRuns.HeldForever | ops/relay/twitch_daily.py:266-269 | Once a process ended with an unresolved row, no later moves or restarts change the database, the relay or the forwarding list. |
| TwitchDailyRuns.GenerationCountsStarts | ops/relay/twitch_daily.py:96-107 | The writer generation is always 1 plus the number of START rows whose effect was observed. |
| TwitchDailyRuns.ChangesFollowReducer | ops/relay/twitch_daily.py:324-367 | The planned changes are the reducer's command sequence, at most one short, followed by at most one failure STOP that stays unresolved. |
| TwitchDailyRuns.StartFollowsObservedStop | ops/relay/twitch_daily.py:315-337 | When a START reaches the relay, the change before it is its own STOP, and that STOP's row is OBSERVED. |
| TwitchDailyRuns.ChangeHasEvent | ops/relay/twitch_daily.py:328-337 | Behind every planned change stands the linked reducer event that asked for it, with its evidence. |
| TwitchDailyRuns.StartIsTimed | ops/relay/twitch_daily.py:315-337 | A START at the relay follows the STOP just before it there with that STOP's own confirmation between them: the offline wait of boottime after it, on an OFFLINE fact no older than it, both under an authorised route, and within the renewal timeout of wall time. |
| TwitchDailyRuns.YouTubeStaysFirst | ops/relay/twitch_daily.py:226-234 | In every run the forwarding list is the approved list or its first entry alone, and unless it is the approved list that entry's provider is YouTube. |
| TwitchDailyRuns.PatchLeadsWithYouTube | ops/relay/twitch_daily.py:226-234 | Every list that a PATCH of any run produces leads with the approved first entry, whose provider is YouTube, and holds the Twitch entry exactly after a START; no other move touches the list. |
| TwitchDailyOutcomes.BootsExactlyWhen | ops/relay/twitch_daily.py:266-277 | A process starts if and only if every row was observed, the boot is the one of the last clock kept, and a grant it needs is there; otherwise it exits, and nothing else changes. |
| TwitchDailyOutcomes.ForwardUpdateExactly | ops/relay/twitch_session.py:138-175 | Exactly which lists are rewritten, and to what: YouTube alone, or the approved Twitch entry after it. |
| TwitchDailyOutcomes.LookEndsExactlyWhen | ops/relay/twitch_daily.py:279-322 | At every reachable point, on the reading and the tables: which looks end the process, and which of those ask for the failure stop (an error or stalled Twitch row, or a dispatched command without effect for 15 s, unless the row was displaced). |
| TwitchDailyOutcomes.LookSettlesExactlyWhen | ops/relay/twitch_daily.py:301-320 | What a look that goes on tells the reducer of the writer, and that it settles the dispatched command in the journal exactly when the relay shows its effect. |
| TwitchDailyOutcomes.DecidesExactlyWhen | ops/relay/twitch_daily.py:323-345 | When a decision issues a command, moves the renewal on, ends the process or is saved, as equivalences on what was looked at; a decision that must be committed always can be. |
| TwitchDailyOutcomes.CommittedIsSent | ops/relay/twitch_daily.py:334-337 | A committed command reaches the relay once the process lives on, leaves the list it asks for, and is awaited from then. |
| TwitchDailyOutcomes.ChangeEndsExactlyWhen | ops/relay/twitch_daily.py:334-355 | Whatever the relay answers: a change counts as tried, is awaited if and only if the PATCH applied without an error, and asks for the failure stop if and only if the list may not be rewritten or forwarding failed. |
| TwitchDailyOutcomes.InterruptEnds | ops/relay/twitch_daily.py:346-369 | An exception between two moves leads to the fault path, one on the fault path ends the process, and neither changes anything else. |
| TwitchDailyOutcomes.RescueStopsTwitch | ops/relay/twitch_daily.py:352-365 | After a planned stop, a look that asks for it ends, once the fault path is lived through, in one failure STOP more and the YouTube entry alone, with its row unresolved. |
| TwitchDailyOutcomes.RescuesExactlyWhen | ops/relay/twitch_daily.py:354-365 | The fault path issues a failure STOP if and only if it was asked for, the guard is quiesced and a handler is found; otherwise it only ends the process. |
| TwitchDailyOutcomes.QuiescedAfterStop | ops/relay/twitch_daily.py:96-109 | The guard counts as quiesced if and only if some planned STOP was seen to take effect. |
| TwitchDailyOwner.Journal.constructor | ops/relay/twitch_daily.py:61-74 | A new journal holds the empty state, an empty outbox and writer generation 1. |
| TwitchDailyOwner.Journal.Commit | ops/relay/twitch_daily.py:79-90 | Either state and outbox row change together on an equal revision and a new request ID, or nothing changes. |
| TwitchDailyOwner.Journal.DispatchOnce | ops/relay/twitch_daily.py:92-94 | Succeeds exactly for a PENDING row without attempts, and makes it DISPATCHING with one attempt. |
| TwitchDailyOwner.Journal.Finish | ops/relay/twitch_daily.py:96-109 | Outcome and writer row change together for a DISPATCHING row, a START needing a new handler ID; otherwise nothing changes. |
| TwitchDailyOwner.Journal.PendingCount | ops/relay/twitch_daily.py:117-118 | Counts exactly the rows that are not OBSERVED. |
| TwitchDailyOwner.Journal.OutcomeFor | ops/relay/twitch_daily.py:120-123 | Returns the outcome stored for the request that the state waits on, if any. |
| TwitchDailyOwner.Owner.Start | ops/relay/twitch_daily.py:266-277 | Starting is the boot move: it runs only without unresolved rows, on the same boot, with a grant if one is needed. |
| TwitchDailyOwner.Owner.LookAt | ops/relay/twitch_daily.py:279-322 | One look is the look move: the progress fields after one observation or, when the provider was polled, after two, the settled outcome written before it is used, and the errors in the program's order. |
| TwitchDailyOwner.Owner.ObserveRow | ops/relay/twitch_daily.py:222-223 | Twitch progress is dated by the last observation that saw its bytes grow. |
| TwitchDailyOwner.Owner.ReadWriter | ops/relay/twitch_daily.py:283-311 | The writer facts of the loop, the new generation being assumed only while a start is in progress. |
| TwitchDailyOwner.Owner.CheckWriter | ops/relay/twitch_daily.py:296-307 | Which writer errors end the process, and which of them allow a failure stop, as `LookEndsExactlyWhen` states them on the reading. |
| TwitchDailyOwner.Owner.DecideOn | ops/relay/twitch_daily.py:323-345 | Deciding is the decide move, including the ticks whose decision is dropped. |
| TwitchDailyOwner.Owner.TakeDecision | ops/relay/twitch_daily.py:330-345 | A decision is committed before it is adopted, and UNKNOWN or CANCELLED ends the process. |
| TwitchDailyOwner.Owner.DispatchCommitted | ops/relay/twitch_daily.py:335-335 | The dispatch move: the row is DISPATCHING before the relay is touched. |
| TwitchDailyOwner.Owner.SendDispatched | ops/relay/twitch_daily.py:336-337 | The change move with its own observation of the relay, after which the command waits for its physical outcome. |
| TwitchDailyOwner.Owner.SendChange | ops/relay/twitch_daily.py:226-234 | The one write path: after one more observation the forwarding list becomes what the command's action makes of the approved one, or stays. |
| TwitchDailyOwner.Owner.FailureStop | ops/relay/twitch_daily.py:350-367 | The fault path is at most one rescue commit, dispatch and change, and the process then ends. |
| TwitchDailyOwner.Owner.Iterate | ops/relay/twitch_daily.py:278-367 | Every iteration of the loop is a sequence of moves of the machine. |
| TwitchDailyOwner.Owner.Run | ops/relay/twitch_daily.py:251-369 | Every execution of the program is a run of the machine, so every result about moves holds of it. |
| ReceiverRuns.RunsAreSafe | ops/airspy-reception/receiver_guard.py:288-434 | After every sequence of invocations, each cut short after any of its effects, the window of bad entries records a contiguous suffix of the accepted samples and the restart budget matches the attempts made. |
| ReceiverRuns.EveryAttemptIsJustified | ops/airspy-reception/receiver_guard.py:366-418 | Every reserved attempt rests on a contiguous window of one invocation under one policy: enough samples, source clock increasing in allowed steps, the span met on both clocks, every ratio low, no fresh positions, an equal position counter, past the grace and inside the startup window, no lost buffers, a confirming recheck. |
| ReceiverRecovery.CollapseIsRestarted | ops/airspy-reception/receiver_guard.py:366-430 | The converse: from every reachable state with an unspent episode and a baseline, whole invocations whose samples form such a run, the last one allowed, cooled down and confirmed, end in a call of the restart. |
| ReceiverRecovery.RestartIsRecorded | ops/airspy-reception/receiver_guard.py:413-433 | In every run, after each effect of a reservation the disk holds the spent budget and the restart's time; from the save after the call it holds how the reply is judged, and from the last the status told. |
| ReceiverRecovery.TellsExactlyWhen | ops/airspy-reception/receiver_guard.py:351-434 | At every reachable state an assessed sample confirms reception if and only if it is the second good one in a row, and raises the alert if and only if, while reception is watched, the decoder is another one or the collapse is sustained. |
| ReceiverRecovery.GoodPairIsConfirmed | ops/airspy-reception/receiver_guard.py:353-361 | From every reachable state two good samples in a row are told as HEALTHY and confirmed. |
| ReceiverRecovery.RefusedSnapshotRetold | ops/airspy-reception/receiver_guard.py:335-350 | A snapshot refused because its counters are another decoder's is told with the status before it when it is read again, confirmed if and only if that status was and it holds fresh positions. |
| ReceiverRecovery.RefusesExactly | ops/airspy-reception/receiver_guard.py:289-350 | What is told of a failed collection or a sample that is not assessed, and which evidence stands after it. |
| ReceiverRecovery.JudgedAgainst | ops/airspy-reception/receiver_guard.py:306-333 | In every run, exactly which episode a sample is judged against: a new one after a reboot, or after a new invocation while the restart is unspent or reception has recovered; the spent origin's; or the one held. |
| ReceiverRecovery.RemembersExactly | ops/airspy-reception/receiver_guard.py:279-285 | The history kept is the last 32 of the recent rows, with the sample once a snapshot. |
| ReceiverGuard.BaselineIsEarned | ops/airspy-reception/receiver_guard.py:241-257 | A baseline is built if and only if there are enough recent rows, all with fresh positions, without a gap, under one decoder, over a counter that moved, with a positive middle rate; its rate is midway between the middle rates in order, half of the rates on each side. |
| ReceiverGuard.RecentRowsKeepAll | ops/airspy-reception/receiver_guard.py:242-243 | The rows considered are those of this boot inside the baseline time, each as often as in the history. |
| ReceiverGuard.RecentRowsKeepOrder | ops/airspy-reception/receiver_guard.py:242-243 | They stand in the history's order. |
| ReceiverGuard.SortedRatesSorts | ops/airspy-reception/receiver_guard.py:253-253 | The rates the median is taken of are the rows' own, in order. |
| ReceiverRuns.AttemptsAreSpaced | ops/airspy-reception/receiver_guard.py:386-418 | Any two attempts belong to different origin episodes; in one boot they are a cooldown of monotonic time apart with two consecutive good samples between them. |
| ReceiverRuns.RestartFollowsReservation | ops/airspy-reception/receiver_guard.py:413-430 | A restart is called at most once in an invocation, right after the spent budget was saved, and is one of the recorded attempts. |
| ReceiverRuns.BudgetIsValid | ops/airspy-reception/receiver_guard.py:200-210 | The durable budget is always 0 or 1, so loading never rejects it. |
| ReceiverProgram.Guard.Load | ops/airspy-reception/receiver_guard.py:200-210 | The in-memory state becomes the durable one. |
| ReceiverProgram.Guard.Save | ops/airspy-reception/receiver_guard.py:212-213 | The durable state becomes the in-memory one, as one recorded effect. |
| ReceiverProgram.Guard.BindTo | ops/airspy-reception/receiver_guard.py:306-323 | Which episode a sample belongs to: a new one after a reboot or an unspent or healthy invocation change, the origin's for a retry child. |
| ReceiverProgram.Guard.RememberSample | ops/airspy-reception/receiver_guard.py:279-285 | The history keeps one row per source snapshot, only recent rows of this boot, and at most 32. |
| ReceiverProgram.Guard.ForgetEvidence | ops/airspy-reception/receiver_guard.py:289-305 | A failed collection drops the window and the last post, keeps the alert, and saves. |
| ReceiverProgram.Guard.ObserveOnce | ops/airspy-reception/receiver_guard.py:288-434 | One invocation performs exactly the planned effects in order, returns the planned status and leaves the last save on disk. |
| ReceiverProgram.Guard.AssessSample | ops/airspy-reception/receiver_guard.py:351-386 | The assessment of an accepted sample, branch by branch, equals the plan. |
| ReceiverProgram.Guard.RecoverSample | ops/airspy-reception/receiver_guard.py:386-412 | The restart decision equals the plan; nothing is saved when the recheck raises. |
| ReceiverProgram.Guard.RestartOnce | ops/airspy-reception/receiver_guard.py:413-434 | The budget is saved spent before the restart and its result before the observation ends. |
| RelayLease.AdmittedIsBounded | ops/relay/relay_lease.py:38-75 | An admitted lease carries the signed terms, is valid when admitted, authorises less than 15 s of boottime, ends by its expiry on a steady clock and before its grant, exceeds the high water, and keeps identity and progress against the previous lease. |
| RelayLease.AdmittedExactlyWhen | ops/relay/relay_lease.py:38-75 | For every body and signature: admitted if and only if signed, typed and addressed to this relay, above the high water, within all limits and a renewal of the lease held; and the boottime deadline it gets. |
| RelayRuns.RunKeepsSafe | ops/relay/relay_guard.py:93-221 | The ledger of commits, the lease held and the forwarding flags stay consistent over every interleaving of boots, accepts, ticks, stops and crashes. |
| RelayRuns.LeasesAreSpentOnce | ops/relay/relay_guard.py:109-123 | Over all restarts committed sequences strictly increase and no body is used twice; each commit was valid for its relay and operator grant; within one instance identity is fixed and the input sequence increases. |
| RelayRuns.HaltedForever | ops/relay/relay_guard.py:93-100 | A halted instance stays exactly as it is: no lease, tick or stop changes it or sends a PATCH. |
| RelayRuns.FirstInputStaysPinned | ops/relay/relay_guard.py:179-192 | While an instance lives its input identity is the first non-empty one pinned, input bytes never decrease, and halting and the Twitch disablement are permanent. |
| RelayRuns.ForwardingIsAuthorised | ops/relay/relay_guard.py:157-221 | After any completed tick of any run, enabled implies that this instance's last commit is its lease, made less than 15 s of boottime ago and valid at that tick, with the operator grant running, the input online and its progress at most 4 s old, no YouTube row with an error and, 15 s on, one that forwards, and the same of Twitch unless it is disabled. |
| RelayRuns.TickDoesExactly | ops/relay/relay_guard.py:157-221 | In every run, exactly when a tick of an instance that has not halted stops it and why, raises, sends each PATCH, forwards on and disables Twitch, and what it keeps of input and clocks, all on the fields of what it meets. |
| RelayRuns.AcceptsExactlyWhen | ops/relay/relay_guard.py:109-123 | A request that the storage takes is committed and then held if and only if it is acceptable to the instance; any other changes nothing. |
| RelayRuns.ForwardingBegins | ops/relay/relay_guard.py:39-58 | After any history, a new instance given an acceptable lease forwards at its first tick that sees the input publish. |
| RelayRuns.RaisedTickStops | ops/relay/relay_guard.py:286-290 | After a tick that raised, the stop that follows leaves the instance halted and not forwarding. |
| RelayRuns.EnablingIsJustified | ops/relay/relay_guard.py:196-202 | The enabling PATCH is sent only once, while not forwarding, under a lease checked at the tick and again just before, on input that progressed less than 2 s ago. |
| RelayRuns.ClocksStayInStep | ops/relay/relay_guard.py:164-169 | While an instance has not halted, wall time never goes back between its ticks and drifts from boottime by at most 2 s a tick. |
| RelayRuns.PatchesAreBounded | ops/relay/relay_guard.py:196-221 | An instance sends at most one enabling and then one Twitch-disabling PATCH, even when a tick raises and a stop has yet to run. |
| RelayRuns.FiniteGrantEnds | ops/relay/relay_guard.py:113-117 | In finite mode no lease an instance holds is valid once the operator grant's wall time is reached. |
| RelayProgram.Guard.constructor | ops/relay/relay_guard.py:39-58 | A new instance starts from the durable high water, disabled and without a lease. |
| RelayProgram.Guard.Stop | ops/relay/relay_guard.py:93-100 | Halts and disables at once; the first reason stands. |
| RelayProgram.Guard.AcceptLease | ops/relay/relay_guard.py:109-123 | A rejection changes nothing; an admission commits the row and then holds the lease. |
| RelayProgram.Guard.TickOnce | ops/relay/relay_guard.py:157-178 | A tick equals the machine's tick in state, PATCHes and error, its clock, grant and lease checks first. |
| RelayProgram.Guard.ReadAndForward | ops/relay/relay_guard.py:179-192 | Reading the input pins its identity and its progress exactly as the machine does. |
| RelayProgram.Guard.ForwardWhenAllowed | ops/relay/relay_guard.py:193-202 | Stale input stops the relay; otherwise forwarding is enabled exactly when the machine enables it. |
| RelayProgram.Guard.WatchDestinations | ops/relay/relay_guard.py:203-221 | A failing YouTube stops the relay and a failing Twitch is disabled once. |
| RelayProgram.Guard.Serve | ops/relay/relay_guard.py:243-265 | Whatever lease and stop requests arrive, serving them is a run of the instance. |
| RelayProgram.Guard.Round | ops/relay/relay_guard.py:286-291 | One round of the control loop, with requests arriving before its tick and before the stop that follows a tick that raised, is a run of the instance. |
| RelayProgram.Guard.Control | ops/relay/relay_guard.py:285-295 | Every execution of the control loop, with requests arriving before any tick, between a tick that raised and its stop, and before the final stop, is one run of the instance and ends halted and disabled, so every result about runs holds of it. |
| NotificationGateway.RunKeepsSafe | ops/scripts/stream_v3_notification_gateway.py:52-76 | Every run with crashes between the transactions and the call keeps receipts that answer for all past calls. |
| NotificationGateway.CallsAreSpaced | ops/scripts/stream_v3_notification_gateway.py:57-76 | No call for a message follows one whose outcome is not known, and a call after a delivered one in the same boot is at least 180 s later unless a purge within those 180 s read a wall time more than seven days past the receipt's creation. |
| NotificationGateway.SteadyWallSpacesCalls | ops/scripts/stream_v3_notification_gateway.py:60-71 | If no purge within 180 s of a delivered call reads a wall time more than seven days past its receipt's creation, calls for one message in one boot are 180 s apart. |
| NotificationGateway.RepeatsAfterRunExactlyWhen | ops/scripts/stream_v3_notification_gateway.py:60-71 | For a receipt delivered in this boot and less than 180 s old after any sequence of other events, a new request calls the provider if and only if some delivery among them reached its purge with a wall time more than seven days past the receipt's creation, there is room, and the program lives that long. |
| NotificationGateway.RepeatsExactlyWhen | ops/scripts/stream_v3_notification_gateway.py:60-71 | The same for exactly one delivery in between, of any message: the step from which the run is built. |
| NotificationGateway.RebootRebinds | ops/scripts/stream_v3_notification_gateway.py:62-66 | After a reboot the first completed request for a delivered message answers "delivered" without a call; a later one of that boot, with no request for it and no removing purge between, calls the provider if and only if at least 180 s passed since the first and the program lives that long. |
| NotificationGateway.AnswersTellReceipt | ops/scripts/stream_v3_notification_gateway.py:57-78 | Exactly when a request is answered with nothing, "capacity" or what its receipt says, an unknown outcome being told as such. |
| NotificationGateway.ReceiptRecordsCall | ops/scripts/stream_v3_notification_gateway.py:67-76 | What a delivery past its purge leaves: its receipt as reserved while the outcome is open and as reported once the call completed, and the log that stands for it. |
| NotificationGateway.HeldForever | ops/scripts/stream_v3_notification_gateway.py:60-60 | Once a receipt is SENDING or UNKNOWN it never changes and its message is never sent again. |
| NotificationGateway.TableIsBounded | ops/scripts/stream_v3_notification_gateway.py:68-71 | The table never holds more than 10000 rows, even when the purge deletes the row being replaced. |
| NotificationGateway.DeliveredWasSent | ops/scripts/stream_v3_notification_gateway.py:60-77 | An answer "delivered" stands for a call that the provider reported as delivered. |
| NotificationGateway.PurgeAllowsRepeat | ops/scripts/stream_v3_notification_gateway.py:69-69 | A concrete run in which the purge makes the same message go out twice with no boottime between. |
| NotificationGateway.Gateway.Reserve | ops/scripts/stream_v3_notification_gateway.py:68-71 | Purge, capacity check and receipt are one transaction; a full table keeps its purge. |
| NotificationGateway.Gateway.DeliverOnce | ops/scripts/stream_v3_notification_gateway.py:52-76 | A delivery, ended at any of its crash points, has exactly the specified table, calls and answer. |
| GapRecorder.FindGaps | ops/scripts/relay_output_gap_recorder.py:79-110 | The loop yields exactly the gaps between consecutive verified rows, with their kinds, spans and failure reasons. |
| GapRecorder.GapsArePartedNeighbours | ops/scripts/relay_output_gap_recorder.py:79-110 | On the rows' own fields: a gap is reported if and only if it lies between two neighbouring rows with a valid clock that a failed capture, or nothing for too long, parts, and it tells their times, ages and the reasons between. |
| GapRecorder.SplitAtVerified | ops/scripts/relay_output_gap_recorder.py:88-110 | The gaps of a timeline are those up to a verified row followed by those from it on, for any verified row. |
| GapRecorder.WindowIsSlice | ops/scripts/relay_output_gap_recorder.py:79-110 | The gaps of any window are a contiguous slice of the timeline's gaps, starting no later than any verified row it holds. |
| GapRecorder.AttemptLogs | ops/scripts/relay_output_gap_recorder.py:113-134 | A run over a joined window, complete or cut short, extends the logged prefix of the timeline's gaps and never repeats or reorders one. |
| GapRecorder.WindowsLogTheTimeline | ops/scripts/relay_output_gap_recorder.py:113-134 | Any sequence of such runs that covers the timeline leaves the gaps of the whole timeline in the log, each identifier once. |
| GapRecorder.RecordingAgainAddsNothing | ops/scripts/relay_output_gap_recorder.py:125-127 | Recording any window again after that adds nothing. |
| GapRecorder.RecordsAllExactlyWhen | ops/scripts/relay_output_gap_recorder.py:88-134 | Over any covering windows the log is literally the list of gaps if and only if no two rows that close a gap share both capture times with their verified neighbours. |
| GapRecorder.PairsAreIds | ops/scripts/relay_output_gap_recorder.py:88-93 | The identifiers of the gaps are distinct if and only if those pairs of capture times are. |
| GapRecorder.IncreasingCapturesLogAll | ops/scripts/relay_output_gap_recorder.py:93-134 | Capture times that increase along the verified rows suffice for that. |
| GapRecorder.StalledCaptureTimeLosesGap | ops/scripts/relay_output_gap_recorder.py:93-93 | A concrete timeline whose capture time stalls and which loses a gap. |
| GapRecorder.Recorder.KnownIds | ops/scripts/relay_output_gap_recorder.py:114-121 | The known set is exactly the identifiers in the log. |
| GapRecorder.Recorder.Record | ops/scripts/relay_output_gap_recorder.py:113-134 | One run appends the window's gaps with unknown identifiers, in order, and returns how many it added. |
| FramedChannel.Encode | ops/fifo-lab/node.py:33-36 | Exactly the payloads over the limit are refused. |
| FramedChannel.LookAtEncoded | ops/fifo-lab/node.py:33-36 | A frame is read back from its own bytes, whatever follows. |
| FramedChannel.EncodedIsTaken | ops/fifo-lab/node.py:726-733 | Bytes taken for a frame are exactly the encoding of that frame. |
| FramedChannel.ConsumeInTwo | ops/fifo-lab/node.py:725-742 | Parsing a stream in two parts, the leftover first, equals parsing it whole; a fault is final. |
| FramedChannel.SentIsDelivered | ops/fifo-lab/node.py:721-742 | Every list of frames of known kinds, followed by an incomplete frame, is delivered in order with that incomplete frame left pending. |
| FramedChannel.BytesAreConserved | ops/fifo-lab/node.py:725-742 | For every byte stream without a fault, the delivered frames' encodings and the pending bytes are the stream, and the pending bytes hold no complete frame. |
| FramedChannel.Node.Feed | ops/fifo-lab/node.py:725-742 | One chunk edits the buffer in place to exactly the parse of the old buffer and the chunk. |
| FramedChannel.Node.Loop | ops/fifo-lab/node.py:720-742 | Over any cutting into chunks the node delivers what parsing the concatenation delivers, with less than one complete frame pending. |
| FramedChannel.SentIsQueued | ops/fifo-lab/run.py:74-84 | Frames of any kind reach the lab's queue in order and whole. |
| FramedChannel.BothEndsAgree | ops/fifo-lab/run.py:74-84 | On every stream both parsers agree on frames and on oversized frames, up to the first kind that only the node refuses. |
| FramedChannel.ReadExact | ops/fifo-lab/run.py:21-28 | Whatever short reads occur, exactly the requested bytes are returned, or the end of the channel. |
| FramedChannel.Reader | ops/fifo-lab/run.py:74-84 | The blocking reader queues exactly the frames of the stream and ends as specified. |
| TransportProbe.WindowSuffices | ops/fifo-lab/transport_probe.c:179-185 | The last 64 bytes decide whether the token ends at the end of the stream. |
| TransportProbe.ReportsAtFirstOccurrence | ops/fifo-lab/transport_probe.c:176-190 | For every chunking, the chunk with which the token first occurs in the joined prefix is the one that holds the last byte of its first occurrence in the whole stream. |
| TransportProbe.ReportedOnceIffOccurs | ops/fifo-lab/transport_probe.c:176-190 | There is such a chunk if and only if the token occurs in the whole stream, and there are never two. |
| TransportProbe.Probe.Receive | ops/fifo-lab/transport_probe.c:167-194 | Over the records after a handshake, the stream has a first end of the token whenever the token occurs in it, and call k reports if and only if it holds that byte; some call does if and only if it occurs; no two do; and the log gains exactly that one event. |
| TransportProbe.Probe.Connect | ops/fifo-lab/transport_probe.c:58-83 | A connection to the target resets the flags and the window and reports its own stages; any other changes no report. |
| TransportProbe.Probe.Handshake | ops/fifo-lab/transport_probe.c:120-135 | The first start and the first completion of the handshake are each reported once. |
| TransportProbe.Probe.ObserveError | ops/fifo-lab/transport_probe.c:149-154 | One error per connection is reported, nonblocking progress never. |
| TransportProbe.Probe.Append | ops/fifo-lab/transport_probe.c:179-183 | Shifting and appending in the array keeps it the last 64 bytes received. |
| TransportProbe.Probe.Match | ops/fifo-lab/transport_probe.c:179-185 | Comparing the window's end matches if and only if the token now occurs in everything received. |
| TransportProbe.Probe.RecordRecv | ops/fifo-lab/transport_probe.c:167-194 | A record reports the token exactly when it first completes it in the bytes since the handshake, and acknowledgements stay one per connection, after its handshake. |
| WindowCounters.BisectLeft | ops/scripts/backfill_prometheus_stream_v2.py:176-176 | The index before which all times are earlier and from which none is. |
| WindowCounters.BisectRight | ops/scripts/backfill_prometheus_stream_v2.py:177-177 | The index before which no time is later and from which all are. |
| WindowCounters.SliceIsWindow | ops/scripts/backfill_prometheus_stream_v2.py:176-178 | Between the two indices lies exactly the history filtered to the closed window. |
| WindowCounters.RecoveryAt | ops/scripts/backfill_prometheus_stream_v2.py:175-189 | The sliced rates and the three restart counts of one step equal filtering the whole history. |
| WindowCounters.FastRecovery | ops/scripts/backfill_prometheus_stream_v2.py:169-189 | Every step from start to end has its row, equal to filtering the whole history. |
| WindowCounters.Engine | ops/scripts/backfill_prometheus_stream_v2.py:192-198 | The same for the engine restarts of both event types. |
| WindowCounters.Slide | ops/scripts/backfill_prometheus_stream_v2.py:205-219 | Appending and pruning keeps a deque equal to the history so far filtered to its day, and its counts equal to filtering it to one, eight and 24 hours. |
| WindowCounters.YoutubeHealth | ops/scripts/backfill_prometheus_stream_v2.py:201-222 | Row by row the deque loop equals filtering the history up to that event. |
| WindowCounters.SoFarIsWholeIff | ops/scripts/backfill_prometheus_stream_v2.py:201-222 | A row equals filtering the whole history if and only if no event of the kind follows within the same second. |
| WindowCounters.WriteSeries | ops/scripts/backfill_prometheus_stream_v2.py:123-129 | Sorting and skipping writes a series in strictly increasing time, one row for each non-negative second, holding that second's smallest value. |
| WindowCounters.WarnCounts | ops/scripts/backfill_prometheus_stream_v2.py:201-222 | The warning count written for a second is the one at its first event, and is the whole history's if and only if no warning follows in that second. |
| WindowCounters.DegradedFlags | ops/scripts/backfill_prometheus_stream_v2.py:201-222 | The degraded flag written for a second is the one at its first event, and is the whole history's if and only if the window is bad by then or nothing bad follows in that second. |
| WindowCounters.SecondWarningIsMissed | ops/scripts/backfill_prometheus_stream_v2.py:124-129 | Two warnings in one second, of which one is written. |
| Checksum.TwoFoldsSuffice | ops/fifo-lab/node.py:641-643 | For up to 65536 words two folds of the plain sum give the one's-complement sum with end-around carry. |
| Checksum.ComplementCancels | ops/fifo-lab/node.py:644-644 | Putting the complement into a zero word makes the one's-complement sum 0xFFFF. |
| Checksum.SumWords | ops/fifo-lab/node.py:641-641 | The loop computes the plain sum. |
| Checksum.Insert | ops/fifo-lab/node.py:640-644 | Every even-length message of up to 65536 words with a zeroed field sums to 0xFFFF after the insertion, its other bytes unchanged. |
| Checksum.Ping | ops/fifo-lab/node.py:638-644 | The echo request that is sent carries the wrapped sequence number and sums to 0xFFFF. |
| OutageEpisode.HealthByAnchors | ops/scripts/persistent_tcp_anchor_observer.py:174-185 | For every payload: DOWN if and only if it covers the four anchors with booleans and none answered, UP if and only if it covers them and one of each provider answered, otherwise UNKNOWN. |
| OutageEpisode.TakesBackExactly | ops/scripts/persistent_tcp_anchor_observer.py:116-171 | For every file in the fields modelled: it is taken back unchanged if and only if it is of this boot and holds no episode and sequence 0, one active episode, or one that recovered after its last DOWN, with its sequence and readable times in order. |
| OutageEpisode.StatesAreSound | ops/scripts/persistent_tcp_anchor_observer.py:147-219 | In every run an active and a completed episode never coexist, and the loader takes the file back unchanged if and only if an active episode's times read and are in order; otherwise it refuses it. |
| OutageEpisode.SequenceCountsOutages | ops/scripts/persistent_tcp_anchor_observer.py:188-219 | While neither an UP nor a start is refused, the sequence is the number of DOWN samples whose last known predecessor is not DOWN, and an episode is active exactly during such an outage. |
| OutageEpisode.OrderedTimesAreAccepted | ops/scripts/persistent_tcp_anchor_observer.py:142-171 | On nondecreasing times, wherever the process restarts, nothing is refused and the loader takes every file back unchanged. |
| OutageEpisode.EpisodesFollowOutages | ops/scripts/persistent_tcp_anchor_observer.py:188-219 | The two together, for every run with nondecreasing readable times. |
| OutageEpisode.RunFollowsReadings | ops/scripts/persistent_tcp_anchor_observer.py:147-219 | On every run, restarts included, the observer has stopped for good if and only if a restart or an UP once found the open episode's first and last DOWN out of order; until then the open episode and its times are those that the samples' own readings determine. |
| OutageEpisode.NoneRefusedExactlyWhen | ops/scripts/persistent_tcp_anchor_observer.py:147-218 | Nothing is refused in a run if and only if every restart during an outage finds its first and last DOWN in order and every UP that ends one reads in order with them. |
| OutageEpisode.LoadsExactlyWhen | ops/scripts/persistent_tcp_anchor_observer.py:147-171 | The file after a run is taken back unchanged if and only if no restart and no UP ever found the open episode's first and last DOWN out of order, and they are in order now. |
| OutageEpisode.NeverStartsExactlyWhen | ops/scripts/persistent_tcp_anchor_observer.py:147-171 | The observer can never start again, its file staying as it is whatever follows, if and only if a restart or an UP found the open episode's first and last DOWN out of order. |
| OutageEpisode.LoadsAfterOrderedEnds | ops/scripts/persistent_tcp_anchor_observer.py:147-171 | While every outage ended, and every restart came, in order, that is if and only if an outage still going on reads in order. |
| OutageEpisode.SequenceCountsExactlyWhen | ops/scripts/persistent_tcp_anchor_observer.py:147-219 | The sequence never exceeds the number of outages, and equals it if and only if no outage begins after the observer stopped for good, or after a refused UP with nothing known in between. |
| OutageEpisode.ClockStepsBack | ops/scripts/persistent_tcp_anchor_observer.py:214-218 | A concrete run with a backward clock that loses an outage and leaves a file the loader refuses. |
| OutageEpisode.ClockStepsBackForGood | ops/scripts/persistent_tcp_anchor_observer.py:142-171 | A concrete run in which a backward clock stops the observer for good, so that the next outage is never seen. |
| OutageEpisode.Observer.constructor | ops/scripts/persistent_tcp_anchor_observer.py:670-671 | The observer starts from exactly what the loader accepts. |
| OutageEpisode.Observer.Observe | ops/scripts/persistent_tcp_anchor_observer.py:692-696 | An update that raises changes neither state nor file; any other is written before the episode is published. |
| OutageEpisode.Serve | ops/scripts/persistent_tcp_anchor_observer.py:668-696 | Looping over updates and starting anew through the loader after every restart and every update that raised, the program's file and its fate are those of the run, so every result about runs holds of it. |
| PlayerContinuity.RunStartIsMaximal | ops/scripts/stream_v3_player_av_probe.py:125-132 | The tracked start is the start of the maximal run ending at the current sample. |
| PlayerContinuity.Assess | ops/scripts/stream_v3_player_av_probe.py:110-145 | PASS if and only if the maximal run that ends at the last sample spans the minimum with three audible samples, reporting that run; otherwise the largest span over all runs. |

## Left out

- HTTP, SSH, sockets, processes, systemd, selectors and browser calls: each is an arbitrary reply or one effect.
- Cryptography, JSON text, SQLite files, locks and fsync: digests are injective, rows and files are values that change whole.
- Floating point: times, rates and ratios are `int` or `real`; `round`, percentiles, maxima and budget sums of the metrics are one-pass arithmetic.
- Environment and command-line parsing, status files, event logs and alert texts of all programs.
- The reducer's type checks on a hand-edited state row: the model's state is well typed; `NeverCorrupt` covers the reachable values.
- The approval digest, the relay identity and path checks of `bound` and `observe` in the daily owner: together one observation that may raise.
- The polling back-off of the daily owner: whether an iteration polled, and with what facts, is arbitrary.
- Removal of `moqTransport` from the wire form and the URL classifier of a destination: a destination carries its provider.
- `waiting_origin`, the list of closed episodes and the reason texts of the receiver guard: nothing that is modelled depends on them.
- How the receiver guard collects a sample (`collect`): it raises or yields an arbitrary sample.
- Starting and terminating MediaMTX in the relay guard, and its projection of destinations beyond position, state and error.
- RelayProgram.Guard.AcceptLease: does not include the crash right after the commit, which ends the object; the runs do.
- The relay guard's list and connection rows beyond the first matching one: a reply says whether the path is online and what publishes.
- Values nested inside a lease body: a value that is not text, an integer or a finite number is one of two opaque kinds.
- `samples` of the gap recorder (reading, deduplicating and sorting the history files): windows are slices of one timeline of rows.
- A log line torn in the middle by a crash: the recorder's crash falls between lines.
- The handling of frames and of commands in `node.py`, and a full queue in `run.py`: a frame is delivered or queued.
- The `getsockopt`, `close`, `gnutls_record_send` and hostname hooks of the transport probe and races between its atomics: calls are sequential.
- The other metric families of the backfill script, and a step of zero or less, which the model excludes.
- Matching echo replies in `node.py`.
- `assess_displayed_clock` and the rest of the player probe; a sample's missing keys read as their defaults.
- TwitchRuns.MovesExactlyOnEvidence: speaks of one tick at a reachable state; that the provider ever shows the evidence is not claimed.
- NotificationGateway.CallsAreSpaced: boots are numbered in order, so a boot identifier that returns after another one is not covered.
- OutageEpisode.Serve: speaks of one boot; after a reboot the loader refuses the file whatever it holds, because of its boot identifier.
- The reason labels of the reducer's decisions: they only reach status files, and nothing is claimed of them.
- The name of the error that the relay guard appends to its reason after a tick that raised.
- The fixed fields, key sets and digest format of an episode file: the model's file holds the fields that vary.
