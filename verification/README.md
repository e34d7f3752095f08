# The single-writer order protocol and the feed-health arithmetic

This project models two components of the trading platform and proves properties of
them.

**Component A, the order protocol.** `Controller` is a state machine over link, sync,
operating mode and order state. It commits an event to an append-only `Journal` before
every broker write, pins the authorising event with an out-of-band `JournalWitness`,
fences the next process with a `FatalFence`, and rebuilds itself from the log and a
broker snapshot. `RiskEngine` bounds what may be sent, and `JournalAuditor` is a
separately written offline checker over the same log.

- `Models`, `RiskCounters`: the vocabulary. `LogView`: the meaning of a log, `Fold`, one
  record at a time, and `Lawful`, the records the controller may append in each state.
- `Journals`, `Witnesses`, `Fences`, `Brokers`, `Risk`: one class for each object the
  source updates in place, with failing writes, lost answers, and a broker that may fill,
  cancel or reject whenever it likes.
- `States`: the process memory and the world as two values, the invariants between them,
  and the steps. `Sending`, `Cancelling`, `Resync`, `Callbacks`, `Restarts`: why each step
  keeps them. `Decisions`: what the controller decides, as a function.
- `Controllers`: the class itself, every operation with its new state in its contract.
- `Hosts`: one process at a time over storage, fence, witness and broker. `Host.Run` takes
  any script of inputs, callbacks (late, repeated, out of order), broker activity, crashes,
  tail losses, acknowledgements and restarts, and is the theorem over whole runs.
- `Auditor`, `HaltFolds`, `Replays`, `Ledgers`: the offline folds and the replays.
  `Alarms`, `Midnight`, `Unkept`: the four rules of the audit that the controller does not
  always keep, with the exact condition and a log for each.

**Component B, feed health.** `RecorderHealth` tiles a session by BAR stamps and partitions
each long missing-BAR interval by the state of the feed; `Liveness` is its live counterpart
and turns polls into bracketed incidents; `Feeds` is the status fold both read.

## What a run is, and what is assumed

Invariants hold whatever the broker reports. The bound on the exposure holds while what it
reports is true, which is one predicate, `States.Truthful`:

- a stable snapshot lists exactly our open orders and executions at that moment, and may
  also list orders and executions of others; an unstable one may say anything;
- an execution callback reports an execution that happened, whenever it arrives and however
  often; a cancel callback is about an order that can no longer fill; a rejection is about
  an order that never filled.

Also assumed: one strategy on one symbol, so one leg; an account that starts flat; a clock
that does not go back and stands still inside a step; intent ids that never repeat, even
across lost tails; injective event digests; fills of an order that never exceed its size;
one process at a time over the journal (its file lock). Any journal, witness or fence write
may fail, and a write that failed may still have reached the disk.

`ProcessStarted` is recorded at each start, as scripts/deterministic_soak.py:60-69 does;
execution_host.py itself does not write it.

## Where the code does not keep its own rules

Four of the seventeen checks of the offline audit that are modelled can be reported of a log
the controller wrote. Each has an exact condition, proved for every lawful log, and a
concrete lawful log on which it fails; the whole audit is silent exactly if all four
conditions hold (`Auditor.NothingToReport`).
In the three logs of `Unkept` each order is launched by the records the contract of
`Controllers.Controller.Send` names (`Decisions.LaunchNotes`); the order of the other
records is read from the cited lines.

- **I16, the 60-second cap.** The offline check counts across UTC midnight
  (src/ib_execution/auditor.py:477-478); the online counter starts afresh with the day
  (src/ib_execution/risk.py:147-154). `Auditor.CapsCleanIff`: silent exactly if every send
  in the first minute of a UTC day that finds a send of the day before inside its window
  keeps both sides together within the cap. `Midnight.MidnightBurstIsReported`: a log in
  the controller's own record order, with both sends decided on and admitted in states
  that satisfy its invariants.
- **I4, no send while one is awaited.** The check waits for a record with the intent's id,
  and the record of a rejection carries none (src/ib_execution/auditor.py:152-175,
  src/ib_execution/controller.py:1741). `Alarms.NeverAwaitingIff`: silent exactly if no
  send follows an order that was rejected before it was acknowledged without a completed
  reconciliation since. `Unkept.RefusedFirstIsReported`.
- **I14, an external fact halts.** `Alarms.NeverFlaggedIff`: silent exactly if no send
  follows a fact whose process died before its HALT was on disk, with no HALT since; a
  later process does not see the fact again if the broker no longer reports it.
  `Unkept.LostFactIsReported`.
- **I18, a failed callback halts.** The same condition, and no cancel call that raised: its
  CALLBACK_FAILURE is followed by distrust and a reconciliation, not by a HALT
  (src/ib_execution/controller.py:648-655). `Unkept.RaisedCancelIsReported`.

## Model

| member | source | states |
|---|---|---|
| `Hosts.Host.Run` | scripts/deterministic_soak.py:60-158 | For every script of any length, at every moment: the log is one the controller may write and, unless the startup check would refuse it, knows every order ever sent; no runtime assertion of the process then alive has failed, and under a stop it is HALTED; while reports are true at most one order can still fill and the position is within the limit. A stop that is asked for is held, or the fence was tried in that step too and failed; from whenever a stop stands, it stands, with nothing sent or cancelled, until a step lifts it. |
| `Hosts.Host.RunThenAudit` | src/ib_execution/auditor.py:66-89 | The seventeen modelled checks over the log of any run report nothing, if and only if no send meets a midnight burst, an unheard rejection, a fact or failure left without its HALT. |
| `Hosts.Host.Start` | src/ib_execution/execution_host.py:169-240 | A fence refuses the start, then missing evidence does and raises a fence (or its write failed), before a controller exists; a started process has the log's position, comes up HALTED exactly if a HALT is active, never NORMAL with a residual, HALTED if any stop stood; and the surviving log knows every order ever passed to the broker. |
| `Hosts.Host.AcknowledgeHalt` | src/ib_execution/controller.py:1169-1190 | Through the process or the tool, an acknowledgement changes the log only if attributed and only by clearing the active HALT; it lifts a stop exactly if no fence stands and the evidence is intact, and a HALTED process stays HALTED. |
| `Hosts.Host.AcknowledgeWithTool` | src/ib_execution/ack_halt.py:86-153 | While no process owns the journal: blank attribution or nothing active changes nothing, otherwise only the active HALT is cleared, and orders and ledger stay. |
| `Hosts.Host.RetireFence` | src/ib_execution/fatal_fence.py:242-257 | Only an acknowledged and reconciled fence is lifted, and a stop survives that if a pinned HALT remains. |
| `Hosts.Host.StorageLosesTail` | src/ib_execution/journal_witness.py:234-274 | Losing any part of the log while down keeps every promise: the start refuses, or the stop and every order sent are still known. |
| `Restarts.TailLost` | src/ib_execution/journal_witness.py:234-274 | For every prefix of the log: what is left is lawful, a stop still stands or the check refuses, and the exposure stays known if the check passes. |
| `Witnesses.CheckedLogKnowsEveryOrder` | src/ib_execution/journal_witness.py:198-274 | If the startup check passes, every order ever placed has its intent and send attempt in the log. |
| `Witnesses.PromiseSurvivesTailLoss` | src/ib_execution/journal_witness.py:234-274 | A tail loss the check does not notice leaves the pinned part, and with it every placed order's attempt. |
| `Witnesses.JournalWitness.Record` | src/ib_execution/journal_witness.py:198-226 | A reported success pins exactly the named event; a failure leaves the old record or the new one, nothing else. |
| `Witnesses.JournalWitness.Verify` | src/ib_execution/journal_witness.py:234-274 | Clean only if the pinned sequence number exists in this journal and carries the pinned event, and then always unless the record cannot be read, which is never taken for no record. |
| `Fences.FatalFence.Raise` | src/ib_execution/fatal_fence.py:194-217 | The first cause is kept; a reported success means a fence is there. |
| `Fences.FatalFence.Acknowledge` | src/ib_execution/fatal_fence.py:219-240 | Attribution is required, the cause is kept, and the fence stays. |
| `Fences.FatalFence.Retire` | src/ib_execution/fatal_fence.py:242-257 | Removed exactly if acknowledged and reconciled, and an error exactly if still there. |
| `Journals.Journal.Submit` | src/ib_execution/journal.py:433-455 | A request answered in time is on disk and is what the tables decided; anything else latches the failure, leaves at most one unacknowledged event on disk, and nothing is acknowledged again. |
| `Journals.Journal.Transact` | src/ib_execution/journal.py:301-405 | Claim and event in one transaction: a duplicate decision or execution id, or an acknowledgement of anything but the active HALT, writes nothing. |
| `Journals.ClaimsAreLogged` | src/ib_execution/journal.py:306-352 | The claim tables hold exactly the ids present in the log. |
| `HaltFolds.FindUnacknowledgedHalt` | src/ib_execution/ack_halt.py:39-64 | The tool's and the controller's loop compute the active HALT of the fold, its start is bounded, and the HALT is active throughout. |
| `HaltFolds.ActiveHaltSeq` | src/ib_execution/journal.py:355-381 | The writer's own fold computes the same active HALT on every log. |
| `HaltFolds.AcknowledgementIsExact` | src/ib_execution/journal.py:383-405 | An acknowledgement of the HALT read earlier clears the HALT exactly if no cause was committed since; a later cause survives it. |
| `HaltFolds.AuditedAgrees` | src/ib_execution/auditor.py:573-597 | The offline fold, which forgets a HALT once it has reported the mode leaving it, is the online one on logs where it reports nothing. |
| `HaltFolds.LawfulNeverLeaves` | src/ib_execution/controller.py:207-229 | A log the controller may write never leaves a HALT without its acknowledgement. |
| `HaltFolds.StopSurvivesTailLoss` | src/ib_execution/controller.py:1396-1435 | A HALT pinned at a sequence number is active in every prefix that long. |
| `Auditor.JournalAuditor.Audit` | src/ib_execution/auditor.py:66-89 | All modelled checks together report nothing on a lawful log exactly if the four conditions hold, and an empty report means every check is clean. |
| `Auditor.LawfulLogIsClean` | src/ib_execution/auditor.py:177-286 | Every check of the twelve that are always kept reports nothing on every log the controller may write. |
| `Auditor.JournalAuditor.CheckDecisionOnce` | src/ib_execution/auditor.py:93-105 | The loop reports exactly the repeated decision ids. |
| `Auditor.JournalAuditor.CheckDurableBeforeSend` | src/ib_execution/auditor.py:107-120 | The loop reports exactly the send attempts without an earlier committed intent. |
| `Auditor.JournalAuditor.CheckOneLiveIntent` | src/ib_execution/auditor.py:122-150 | The loop reports exactly the send attempts beside a live one. |
| `Auditor.JournalAuditor.CheckNothingAwaited` | src/ib_execution/auditor.py:152-175 | The loop reports exactly the sends while an earlier one is awaited. |
| `Auditor.JournalAuditor.CheckNoSendWhileCancelling` | src/ib_execution/auditor.py:177-193 | The loop reports exactly the sends during an outstanding cancel. |
| `Auditor.JournalAuditor.CheckReconciledFirst` | src/ib_execution/auditor.py:195-209 | The loop reports exactly the sends of a process that has not reconciled. |
| `Auditor.JournalAuditor.CheckNotExpired` | src/ib_execution/auditor.py:211-228 | The loop reports exactly the intents committed past their target's end. |
| `Auditor.JournalAuditor.CheckExecutionOnce` | src/ib_execution/auditor.py:230-242 | The loop reports exactly the execution ids booked again. |
| `Auditor.JournalAuditor.CheckTrustedWrites` | src/ib_execution/auditor.py:244-259 | The loop reports exactly the broker writes while the log's link or sync is not trusted. |
| `Auditor.JournalAuditor.CheckModeGate` | src/ib_execution/auditor.py:261-286 | The loop reports exactly the sends the mode in the log forbids, opening, non-zero under FLATTEN_ONLY, and HALTED apart. |
| `Auditor.JournalAuditor.CheckHalted` | src/ib_execution/auditor.py:288-340 | For facts and for failed callbacks alike: the loop reports exactly the first send after each alarm without a HALT between. |
| `Auditor.JournalAuditor.CheckFlattenAlone` | src/ib_execution/auditor.py:342-373 | The loop reports exactly the zero-target intents while another order works. |
| `Auditor.JournalAuditor.CheckResidualBoots` | src/ib_execution/auditor.py:397-432 | The loop reports exactly the first intent of a process that started with a residual and is neither FLATTEN_ONLY nor HALTED. |
| `Auditor.JournalAuditor.CheckRunawayCaps` | src/ib_execution/auditor.py:434-484 | The loop over its own maps and stamps reports exactly the sends that exceed a cap of the log. |
| `Auditor.JournalAuditor.CheckSelfTested` | src/ib_execution/auditor.py:538-560 | The loop reports exactly the processes started and intents committed before the configuration was loaded and then proven. |
| `Auditor.JournalAuditor.CheckHaltSurvives` | src/ib_execution/auditor.py:562-597 | The loop reports nothing exactly on logs that never leave a HALT unacknowledged. |
| `Auditor.CapsCleanIff` | src/ib_execution/auditor.py:434-484 | On a lawful log the caps check is silent exactly if each send in the first minute of a UTC day with a send of the day before in its window keeps both sides within the cap. |
| `Auditor.SingleDayIsClean` | src/ib_execution/auditor.py:434-484 | On a lawful log whose sends fall on one UTC day the caps check is silent. |
| `Auditor.NothingAwaitedIff` | src/ib_execution/auditor.py:152-175 | On a lawful log I4 is silent exactly if no send follows a rejection that preceded its acknowledgement without a completed reconciliation between. |
| `Auditor.HaltedIff` | src/ib_execution/auditor.py:288-340 | On a lawful log I14 and I18 are silent exactly if no send follows an alarm that calls for no HALT, or whose process ended first, with no HALT since. |
| `Alarms.AwaitedIffUnheard` | src/ib_execution/controller.py:1734-1751 | With nothing open and every cancel settled, something is still awaited exactly if some order was rejected unacknowledged and nothing was reconciled since. |
| `Alarms.UnansweredIffLeft` | src/ib_execution/controller.py:1309-1370 | Where no HALT is due, an alarm is unanswered exactly if it called for none or its process ended before the HALT. |
| `Midnight.MidnightBurstIsReported` | src/ib_execution/risk.py:147-154 | A log in the controller's own record order whose two sends the controller wants and admits in states satisfying its invariants, and which the caps check reports. |
| `Unkept.RefusedFirstIsReported` | src/ib_execution/controller.py:1734-1751 | A log in the controller's record order in which a late rejection precedes the acknowledgement, and the next send is reported by I4. |
| `Unkept.LostFactIsReported` | src/ib_execution/controller.py:936-953 | A log in which a process ends between an external fact and its HALT, and the next process's send is reported by I14. |
| `Unkept.RaisedCancelIsReported` | src/ib_execution/controller.py:641-656 | A log in which a cancel call raises, the account reconciles, and the next send is reported by I18. |
| `Risk.RiskEngine.Check` | src/ib_execution/risk.py:170-271 | Accepted exactly if every limit holds at the counters of the day, and a rejection names a limit that is exceeded. |
| `Risk.RiskEngine.RecordSent` | src/ib_execution/risk.py:273-279 | Every submission attempt counts one order, its shares, its notional and its stamp, on the day it is made. |
| `Risk.RiskEngine.RestoreFromEvents` | src/ib_execution/risk.py:281-302 | The counters rebuilt from a log are the fold's: each attempt once, sized by its intent. |
| `Risk.DailyCapsHold` | src/ib_execution/risk.py:204-242 | On every UTC day of a lawful log, sends, shares and notional stay within the daily caps. |
| `Risk.MinuteCapHolds` | src/ib_execution/risk.py:204-242 | Every 60-second window inside one UTC day of a lawful log holds no more sends than the cap. |
| `Risk.CountersTally` | src/ib_execution/risk.py:139-154 | The counters of a lawful log are the tallies of its last trading day. |
| `Risk.ReversalIsExecutable` | src/ib_execution/risk.py:50-133 | A validated configuration can execute a full reversal in one order. |
| `Sending.AttemptInFlight` | src/ib_execution/controller.py:511-559 | Counting the attempt makes live and logged counters agree again, with the order the only one in flight. |
| `Sending.AttemptKeepsExposure` | src/ib_execution/controller.py:511-559 | Between the durable attempt and its count, a restart would rebuild the live counters or exactly one attempt more, that of the order in flight. |
| `Sending.AtRest` | src/ib_execution/controller.py:387-438 | At rest and SYNCED, nothing at the broker can still fill, every execution is booked, and the believed position is the broker's. |
| `Sending.PlacingIsSafe` | src/ib_execution/controller.py:463-608 | Placing a sendable order keeps the exposure bounded and known. |
| `Sending.PlaceKeepsDurable` | src/ib_execution/controller.py:535-566 | A pinned attempt covers the order it authorises, whatever becomes of the call. |
| `Brokers.FillKeepsSound` | src/ib_execution/fake_broker.py:172-238 | A fill keeps the position within the limit, and one that completes an order leaves the position at its target. |
| `Brokers.FillsLandOnTarget` | src/ib_execution/controller.py:426-438 | However an order's fills are split: after every prefix of them the position is inside the limit and the order stays open until the last, which fills it exactly at its target. |
| `Brokers.PlacingKeepsSound` | src/ib_execution/fake_broker.py:115-165 | An order placed at rest, sized for its target, keeps at most one order open and the limit kept. |
| `Brokers.EndingKeepsSound` | src/ib_execution/fake_broker.py:276-315 | A cancel or a rejection keeps the exposure sound. |
| `Brokers.ExpectedIsClaimedSum` | src/ib_execution/controller.py:1116-1130 | The expected position and the filled quantity of a lawful log are sums over the distinct executions booked. |
| `Ledgers.ExpectedIsBookedSum` | src/ib_execution/journal.py:330-352 | In a lawful log the running position is the sum over the booked ids, each once. |
| `Ledgers.PositionIsRouteIndependent` | src/ib_execution/controller.py:1595-1639 | Two histories that booked the same executions expect the same position, whatever the order or route. |
| `LogView.PrefixFacts` | src/ib_execution/controller.py:1072-1130 | Over a lawful log nothing attempted, intended, claimed or booked is forgotten, and no attempted order reopens. |
| `Replays.OpenIntentsByRef` | src/ib_execution/controller.py:1072-1130 | The open intents replayed are those attempted and not resolved. |
| `Replays.FilledFor` | src/ib_execution/controller.py:1633-1639 | The filled quantity replayed is the ledger's. |
| `Replays.LastEodResidual` | src/ib_execution/controller.py:1241-1269 | The residual replayed is the last one recorded and not completed, a live order counting like a position. |
| `Decisions.SendIsJustified` | src/ib_execution/controller.py:387-438 | An order is decided only for a valid target, at rest, trusted, in a mode that allows it, inside the ladder, and for exactly the gap. |
| `Decisions.RestrictedModesOnlyReduce` | src/ib_execution/controller.py:249-268 | Outside NORMAL an order never takes the position further from zero, nor through it. |
| `Decisions.ActedUntrusted` | src/ib_execution/controller.py:249-268 | While the account is not trusted, every decision leaves the state and the broker as they are. |
| `Controllers.Controller.Evaluate` | src/ib_execution/controller.py:387-448 | What is done, logged and sent is what the decision function says of the state: nothing, discard, hold, cancel first, or one order; nothing is sent or cancelled otherwise. |
| `Controllers.Controller.CanWrite` | src/ib_execution/controller.py:249-268 | The gate opens exactly on a healthy journal, a trusted link and account, and a mode that allows the write, and names the first reason it does not. |
| `Controllers.Controller.Send` | src/ib_execution/controller.py:463-608 | The proposed order is refused and recorded exactly if a limit rejects it; otherwise it was sent at most once, and rejected, uncertain, working, or abandoned because the attempt could not be pinned; in each case the contract gives the exact records written, in order. |
| `Controllers.Controller.RequestCancel` | src/ib_execution/controller.py:610-656 | With a live order and an open gate the cancel is in the log, and either asked for once or the order is unreconciled; otherwise nothing changes. |
| `Controllers.Controller.SubmitTarget` | src/ib_execution/controller.py:274-342 | A repeated or expired decision changes nothing; a new one replaces the target and is decided on; its id is recorded for ever. |
| `Controllers.Controller.ReceiveTarget` | src/ib_execution/controller.py:274-342 | Exactly the arrival records of the source: refused, received, missed as expired, or superseding. |
| `Controllers.Controller.Defer` | src/ib_execution/controller.py:362-381 | A block is recorded once, not again while it stays the same. |
| `Controllers.Controller.TickOrder` | src/ib_execution/controller.py:662-716 | Exactly the first timer due acts: distrust, cancel as expired, cancel to reprice, unreconciled; none ever sends. |
| `Controllers.Controller.Tick` | src/ib_execution/controller.py:662-716 | A waiting target is evaluated first, exactly as the decision function says; then the first timer due acts (distrust, cancel as expired, cancel to reprice, unreconciled); then, with a position left, the end-of-day records and flatten are up to date. |
| `Controllers.Controller.RecordEodResidual` | src/ib_execution/controller.py:764-818 | Once per session, past the deadline with something left, the residual is on record and the mode at least FLATTEN_ONLY, a HALT unweakened; otherwise nothing changes. |
| `Controllers.Controller.CheckEod` | src/ib_execution/controller.py:718-762 | Inside the window, unless HALTED or under way, one zero target decided under FLATTEN_ONLY; otherwise nothing is sent. |
| `Controllers.Controller.FlattenNow` | src/ib_execution/controller.py:850-869 | The zero target is claimed and stored before anything is decided on it. |
| `Controllers.Controller.MaybeCompleteFlatten` | src/ib_execution/controller.py:829-848 | The flatten is closed exactly when flat, with nothing working, at rest, and the residual is then cleared. |
| `Controllers.Controller.Reconcile` | src/ib_execution/controller.py:882-1070 | It succeeds exactly if the snapshot is stable, everything in it is ours, and positions agree once its executions are booked; otherwise nothing is trusted or sent; then the leg is what the snapshot says, and an undisturbed account reconciles. |
| `Controllers.Controller.AdoptExecutions` | src/ib_execution/controller.py:955-981 | The ledger becomes the old one with each missing execution booked once. |
| `Resync.AdoptionIsIdempotent` | src/ib_execution/controller.py:957-964 | Adopting a report, or any part of it, again changes nothing. |
| `Resync.AdoptedIsReported` | src/ib_execution/controller.py:957-964 | Adoption books exactly the reported ids, and keeps what was booked. |
| `Controllers.Controller.ConfirmAbsent` | src/ib_execution/controller.py:983-1015 | Every open order the broker no longer reports is ended in the log, as filled exactly if its fills reach its size. |
| `Controllers.Controller.ExternalFacts` | src/ib_execution/controller.py:904-953 | External exactly if some order is not an open intent of ours or some unbooked execution is of no intent of ours. |
| `Controllers.Controller.Quarantine` | src/ib_execution/controller.py:936-953 | The fact is in the log before the account is distrusted and the HALT recorded; afterwards it is HALTED, held out of band or reported. |
| `Resync.UndisturbedIsExplained` | src/ib_execution/controller.py:904-953 | While the exposure is known, a true snapshot of an account nobody else used never looks external. |
| `Resync.FinishOutcome` | src/ib_execution/controller.py:1017-1070 | Completion restores the whole invariant, with the log's open orders the broker's. |
| `Resync.BookedPositionIsTrue` | src/ib_execution/controller.py:966-981 | With every execution booked the ledger's position is the broker's. |
| `Controllers.Controller.KnownBrokerIntent` | src/ib_execution/controller.py:1275-1295 | A report about an order this log never intended is journalled, ends trust, halts, and is held out of band or admitted as not held. |
| `Controllers.Controller.OnAck` | src/ib_execution/controller.py:1489-1507 | Only the live order's acknowledgement changes anything, and it does not restore trust. |
| `Controllers.Controller.OnWorking` | src/ib_execution/controller.py:1509-1529 | The live order is marked working; if the target changed meanwhile and the gate is open its cancel is in the log and asked for once, or the order is unreconciled; SYNCED is never restored. |
| `Controllers.Controller.OnExecution` | src/ib_execution/controller.py:1531-1593 | A repeated execution changes nothing; a new one is in ledger and position; the live order's remainder is settled, a full fill racing a cancel leaves it unreconciled; an execution of any other order ends trust. |
| `Controllers.Controller.BookExecution` | src/ib_execution/controller.py:1595-1631 | Booked exactly if its id was not, by whatever route. |
| `Controllers.Controller.OnFee` | src/ib_execution/controller.py:1641-1658 | A fee of a booked execution is recorded and moves nothing; an unknown one halts. |
| `Controllers.Controller.OnCancelled` | src/ib_execution/controller.py:1660-1700 | The live order is over in the log and never open again, and nothing is sent before a stable snapshot. |
| `Controllers.Controller.ForgetCancel` | src/ib_execution/controller.py:1681-1688 | Only a reprice cancel climbs a rung of the ladder, any other starts it again. |
| `Controllers.Controller.OnCancelRejected` | src/ib_execution/controller.py:1702-1732 | A refused cancel is never repeated: the account is untrusted, HALTED, or the order is over. |
| `Controllers.Controller.OnRejected` | src/ib_execution/controller.py:1734-1751 | The live order is over, the decision spent and recorded as missed, and one rung is used. |
| `Controllers.Controller.AfterTerminal` | src/ib_execution/controller.py:1753-1764 | An expired target is dropped and recorded, any other decided on, and a flatten that is done is closed. |
| `Callbacks.FullyFilledIsOver` | src/ib_execution/controller.py:1561-1592 | An order whose booked fills reach its size can no longer fill, and all of it is booked. |
| `Callbacks.ExecutionProgress` | src/ib_execution/controller.py:1531-1593 | Any execution, in any state, keeps the invariants. |
| `Controllers.Controller.OnConnected` | src/ib_execution/controller.py:1457-1467 | A new epoch, connected, and the account unverified again. |
| `Controllers.Controller.OnDisconnected` | src/ib_execution/controller.py:1469-1473 | Neither link nor account is trusted. |
| `Controllers.Controller.OnMarketDataLost` | src/ib_execution/controller.py:1475-1487 | The quote is dropped, the link degraded, the account unverified. |
| `Controllers.Controller.SetOrderState` | src/ib_execution/controller.py:175-193 | Exactly the records of the change are added; entering an untrustworthy state takes SYNCED away and records that too. |
| `Controllers.Controller.SetMode` | src/ib_execution/controller.py:207-217 | The mode in memory and in the log stay the same, and entering HALTED is pinned, or fenced, or the fence write of this very call failed. |
| `Controllers.Controller.Halt` | src/ib_execution/controller.py:218-229 | A further cause advances the active HALT to the latest record, and each call is held out of band or reports that it is not. |
| `Controllers.Controller.Require` | src/ib_execution/controller.py:235-247 | A violated assertion is counted and halts; together with `Hosts.Host.Run` none ever is. |
| `Controllers.Controller.WitnessOrFence` | src/ib_execution/controller.py:1370-1394 | Before a broker write: the event is pinned, or this process is fenced and HALTED. |
| `Controllers.Controller.WitnessSafetyCritical` | src/ib_execution/controller.py:1396-1435 | After a HALT: it is held out of band, or both writes of this call failed. |
| `Controllers.Controller.AcknowledgeHalt` | src/ib_execution/controller.py:1169-1190 | Acknowledges exactly the active HALT and nothing in memory resumes. |
| `Controllers.Controller.Restore` | src/ib_execution/controller.py:1192-1239 | The new process takes position, counters, bookings and mode from the log: HALTED exactly if a HALT is active, never NORMAL with a residual. |
| `Controllers.Controller.RestoredMode` | src/ib_execution/controller.py:1217-1269 | HALT outranks residual and overnight carry, and NORMAL with a position needs an execution of the session. |
| `Controllers.Controller.Guarded` | src/ib_execution/controller.py:1309-1370 | Every entry keeps the invariants and every stop, leaves at least what its kind of call promises; after a journal failure, or a stop that was asked for, the process is HALTED and the stop held or reported; a callback that raised is recorded and halts. |
| `RecorderHealth.Gaps` | src/ib_execution/recorder_health_v4.py:473-511 | The gaps are consecutive, non-empty, tile the session exactly, and no clipped stamp lies strictly inside one. |
| `RecorderHealth.StatusStateAt` | src/ib_execution/recorder_health_v4.py:514-533 | The loop computes the point state of the feed. |
| `RecorderHealth.ConnectivityOutages` | src/ib_execution/recorder_health_v4.py:536-586 | The pairing of first loss and first recovery covers exactly the instants at which the point state is lost, in disjoint ordered spans. |
| `RecorderHealth.BarGapFindings` | src/ib_execution/recorder_health_v4.py:589-643 | Every instant of the interval is lost, in a farm outage, or in a suspected gap, and the three durations add up to it. |
| `RecorderHealth.Analyze` | src/ib_execution/recorder_health_v4.py:751-925 | Healthy exactly if never lost, no long gap, no hard status, and the recording without errors, live and whole; every instant of every long gap is explained exactly once, and all durations add up. |
| `RecorderHealth.HealthyMeansDense` | src/ib_execution/recorder_health_v4.py:779-828 | A session without long gaps has a BAR in every stretch longer than the threshold. |
| `Feeds.StateIsSteady` | src/ib_execution/recorder_health_v4.py:514-533 | The state changes only at a relevant status. |
| `Liveness.LivenessIncidentTracker.Observe` | src/ib_execution/market_liveness.py:232-283 | Every step keeps the markers bracketed with increasing ids and the counters equal to the trace; a step back to normal closes an incident only on a BAR at or after its start. |
| `Liveness.LivenessIncidentTracker.Close` | src/ib_execution/market_liveness.py:285-291 | An open incident ends with exactly one END marker carrying its duration, never negative. |
| `Liveness.Track` | src/ib_execution/market_liveness.py:174-329 | Over any poll sequence with non-decreasing time: bracketed markers; of each kind, started less completed is one exactly while it is open; all durations together are at most the elapsed time; checkpoints bounded by duration. |
| `Liveness.Follow` | src/ib_execution/market_liveness.py:422-461 | Live and offline agree: after any statuses in recorded order the live tracker holds the state the analyser finds at that time. |
| `Liveness.MarketLiveness.NoteStatus` | src/ib_execution/market_liveness.py:422-461 | The live feed state is the offline point state after the same statuses, and auxiliary farm codes change neither. |
| `Liveness.MarketLiveness.Assess` | src/ib_execution/market_liveness.py:529-610 | What is reported follows the lost link, the degraded farms, halts and the calendar in the source's order. |

## Left out

- The folds I13, I17, I19 and I20 of the audit are not stated: I13 reads the wording of a HALT's cause, which the records here do not carry (and `on_fee`'s own halt text meets it, controller.py:1650); I17 and I19 read the configuration hash and the stress evidence inside an intent's payload, which is not carried either (the stress limit itself is part of `Risk.RiskEngine.Check`); I20 checks the auditor's own list of checks.
- Hosts.Host.RunThenAudit: seventeen of the twenty-one audit methods, without I13, I17, I19 and I20, for the reasons above.
- Auditor.JournalAuditor.Audit: seventeen of the twenty-one audit methods, without I13, I17, I19 and I20, for the reasons above.
- Auditor.LawfulLogIsClean: states the checks that always hold; I4, I14, I16 and I18 do not, and have their exact conditions instead.
- Hosts.Host.Start: without the platform, calendar and failure-domain gates, which refuse more starts and read things outside the model.
- Journals.Journal.Submit: a write that completes after its caller timed out reaches the disk inside the timed-out call or not at all, not later.
- Controllers.Controller.ExternalFacts: without the permanent ids the broker assigns; an order is known by its reference alone.
- Controllers.Controller.KnownBrokerIntent: without the branch for a permanent id that does not match.
- Controllers.Controller.Guarded: an exception other than a failed journal or a violated assertion is modelled for a callback that raised before it changed anything, not in the middle of one.
- Several legs and strategies; "HALTED is absorbing" is proved for one leg only, since the end-of-day guard stands outside the loop over legs (controller.py:734-749).
- Corrections and busts of executions are booked and journalled, but an account with corrections is outside the bound on the exposure, which assumes executions that stand.
- Fees, beyond the fact that they move neither position nor trust; alerts, status output, heartbeats and the watchdog.
- Price rounding and tick sizes: prices are exact reals.
- Once the journal has failed, each further entry is modelled by the fail-closed handler alone, also where the source raises to a caller that stops the process.
- `restore_from_journal` is modelled at the start only; its later calls return what it kept.
- SQLite, fsync, file locks, JSON, gzip, digests and device checks: the journal, witness and fence are durable cells with failing writes.
- Calendar and time zones: a session plan per instant, and a fixed offset for the exchange's day.
- `run_once`, exit codes and signal handling of the host; the gateway, the adapter's stubs and the threads of the bridge.
- The fake broker's `stale_snapshot` and its possible over-fill; the broker here may do anything else its orders allow.
- Evidence texts and ordering of findings, advisories for event-driven and auxiliary streams, and the metrics of `analyze_rows_v4`.
