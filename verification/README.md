# Verified models of Arbiter

Arbiter is a local alert-triage service. It collects events into a durable queue, triages each one
with guardrails, a cheap prefilter and a language model, remembers analysts' feedback, and may
contain a peer by a temporary, reversible firewall rule. This project models the parts whose
correctness is a matter of whole runs rather than single calls, and proves what those runs keep.

`dafny verify dfyconfig.toml` checks everything; the modules need nothing else.

## How the models are built

* **Durable state.** A SQLite database is `Wrappers.Database`: atomic commits on a state, with a
  ghost `trail` of every state that was ever on disk. Each operation has a specification function
  that lists the states its commits leave (`ApproveTrace`, `TickTrace`, `PollTrace`, ...), and the
  method of the service class is proved to commit exactly that list. A crash is `Cut`: the process
  stops after any number of those commits. A run is a list of operations, each with its cut. A loop
  is `Wrappers.UpTo`: its turns, each started from the state the turn before left.
* **The native firewall** is a set of rules outside the process. Each native command may raise, and
  either way leave its rule present or absent; a query may raise or answer no without cause, but
  never answers yes falsely.
* **Numbers.** Times are integers (reals in the bench and the quotas), scores are reals, and every
  id derived by a hash is a datatype value, so equal ids are equal inputs.
* Each component has a module with the operations and others with the theorems: `...Runs`,
  `AttachmentsRecovery`, `L2Agreement`, `L2Deadlines` and `SyslogRoundTrip` about whole runs, and
  `...Outcomes` and `L2Support` about how one operation ends. The latter are stated in the fields of
  rows, cases and native replies, and not through the predicates that the operations share.

## What is proved

1. **Containment.** No run leaves a native rule without a live row, except through one window: a
   crash after `approve` has marked a failed block and before its rule is removed or marked for
   cleanup. The window is exact, it is reachable, and no later reconcile closes it. Reconcile
   never blocks, and ends row by row exactly as its clock, its scope and the native replies say.
   An approval is admitted for exactly the address that its evidence, scope and table allow. Scoped
   runs keep at most ten live rows with distinct targets; undo of finished rows can break that, and
   the condition is exact.
2. **First- and second-level response.** Over every run with crashes and restarts there is at most
   one automatic block per case, per incident identity and per second-level key, each one due,
   resting on an authorization that still stood and on evidence gathered anew. How each deadline
   ends is exact, with the row and the rule it leaves. At the second level this needs no assumption on
   the clock, and the configuration may change at every step; deadlines stay within their bound, a
   rise never gives more time, and with a monotone clock and one policy nothing else takes time away.
   An emergency stop that a crash cuts short may leave first-level cases armed for a later resume:
   which ones is stated exactly, a run in which one goes through is given, and only such a stop can lie
   between a schedule and its block.
3. **Evidence.** Rules, drafts, challenges and re-checks are characterised by the fields they read: a
   block for repeated logins rests on five failed logins from the blocked address to one account, one
   for malware on a native detection of the connecting file. Whatever a review asks to block passes
   the later re-check, the fast brief always validates, and the rule of every second-level block of
   every run can be derived again from the row it was made on and the rows its brief cites.
4. **Ingestion.** Exactly-once tailing of the authentication log, in which an undisturbed poll leaves
   nothing in front of its offset unstored; a bounded wait for every queued event under any stream of
   more urgent ones; an attachment event stream from which the inventory can be rebuilt, and which a
   poll of the same snapshot completes after any number of interrupted or crashed ones; at most one
   audited verdict per event, finished rows that agree with it, and the exact count by which the
   signature history exceeds the audit.
5. **Memory and triage.** The hand-maintained history cache equals the aggregate over the table; a
   reversed suppression keeps the cheap tier from suppressing that signature; who may suppress at
   all is stated exactly.
6. **Arithmetic and scanning.** The queue simulation against a max-plus and a counting reference,
   verdict reuse dominating no reuse, sliding-window quotas, and the RFC 5424 scanner.

## Where the code and its prose differ

The models follow the code.

* `arbiter/triage.py:139-142` says any other guardrail still vetoes after a downgrade. The check
  returns only the first rule that matches (`arbiter/guardrails.py:287-293`), so rules behind a
  corroborated one are not consulted: `TriageRuns.LaterRulesDoNotVeto`.
* `arbiter/ingestion/response_workflow.py:118` says resume never re-arms. That holds for a stop
  that completes; `ResponseRuns.InterruptedStop` says what an interrupted one leaves, and
  `ResponseRuns.BlockAfterACutStop` is a run in which a block follows one.
* `arbiter/ingestion/pipeline.py:54-55` reuses a completed verdict after a crash. The signature
  history has no such protection: it counts one verdict more for each attempt that dies between its
  two commits, or whose verdict the audit refuses, and for no other
  (`PipelineRuns.HistoryAgreesUnlessAttemptsSlip`).
* `arbiter/ingestion/collectors/attachments.py:254` speaks of retry on backpressure. After a crash the
  retry repeats a sequence number exactly when the change handed over again is a different one:
  `AttachmentsRuns.RetryAfterCrash`, `AttachmentsRecovery.RepeatedNumber`.
* `arbiter/bench.py:127` starts the server free at time 0, so the usual formula for finish times
  holds for every job only if the first does not arrive before 0: `BenchRuns.FinishIsMaxPlus`.
* The grammar in section 6 of RFC 5424 allows a backslash in a name; `arbiter/ingestion/collectors/syslog.py:52`
  treats it as an escape everywhere, so an element with no parameters and such an id may not close:
  `SyslogRoundTrip.RoundTrip`, `SyslogRoundTrip.DanglingExample`.

## Model

| member | source | states |
|---|---|---|
| Containment.SingleTargetScope | arbiter/ingestion/containment.py:13-37 | the scope built around one enrolled address permits that address and nothing else, and permits it exactly when it is ordinary unicast outside the protected networks |
| Protection.Protection.Approve | arbiter/ingestion/protection.py:131-164 | the exact sequence of disk and firewall states of an approval, including the failed row written before native cleanup, and success exactly when admission and native verification succeed |
| Protection.Protection.Cleanup | arbiter/ingestion/protection.py:154-159 | the removal after a failed block, and the `cleanup_failed` row exactly when it is not confirmed |
| Protection.Protection.Fail | arbiter/ingestion/protection.py:152-159 | the row reads failed before any cleanup begins |
| Protection.Protection.Undo | arbiter/ingestion/protection.py:170-185 | the states of an undo of any row, finished ones included, and success exactly when removal is confirmed |
| Protection.Protection.Reconcile | arbiter/ingestion/protection.py:187-201 | one turn for each live row of the snapshot, in order, each with its own clock and native failures; nothing at all without verification |
| Protection.Protection.SetActionStatus | arbiter/ingestion/protection.py:166-168 | one commit that changes the status of that action only |
| ProtectionRuns.ApproveCrash | arbiter/ingestion/protection.py:148-162 | an approval cut after any commit leaves every present rule with a live row, if and only if it is not cut in the window between the failed row and the end of cleanup with the rule still there |
| ProtectionRuns.StrandedExample | arbiter/ingestion/protection.py:152-159 | that window is reachable from an empty table: the rule is present and its only row reads failed |
| ProtectionRuns.NoRunOrphansARule | arbiter/ingestion/protection.py:131-201 | over all runs of approve, undo, reconcile and native expiry, with any firewall failures and crashes anywhere else, a present rule implies a row in pending, executed or cleanup_failed |
| ProtectionRuns.ReconcileNeverBlocks | arbiter/ingestion/protection.py:187-201 | at every point of a reconcile no rule has been added, and only rules of rows live at its start can be gone |
| ProtectionRuns.ReconcileSettles | arbiter/ingestion/protection.py:187-201 | under arbitrary failures per row, every row live afterwards awaits cleanup, or is executed and was unexpired and in scope at its turn |
| ProtectionRuns.ReconcileLeavesStranded | arbiter/ingestion/protection.py:191-195 | a rule without a live row is still there after any reconcile |
| ProtectionOutcomes.ScopePermits | arbiter/ingestion/containment.py:13-37 | a scope permits exactly the ordinary addresses that are hosts of an allowed network, not its first or last in IPv4, and of no protected one |
| ProtectionOutcomes.ScopeMade | arbiter/ingestion/containment.py:13-19 | a scope is made exactly from networks to allow, none of them everything, and networks to protect |
| ProtectionOutcomes.ProposalIsBlockable | arbiter/ingestion/protection.py:89-120 | exactly that address is proposed which a finished local escalation, no replay, points at by its correlated rules; within a scope it is fresh, from exactly this host and in scope |
| ProtectionOutcomes.ApproveOutcome | arbiter/ingestion/protection.py:131-164 | nothing is written unless there is an admissible address, with nothing in force for the event and room in the scope; else one row for it is added, executed exactly when the rule is there and verified, failed when its removal is verified, else cleanup_failed; and the native table after it |
| ProtectionOutcomes.UndoOutcome | arbiter/ingestion/protection.py:170-185 | undo of an unknown row does nothing; of a known one it ends undone exactly when its removal is verified, else cleanup_failed |
| ProtectionOutcomes.ReconcileOutcome | arbiter/ingestion/protection.py:187-201 | row by row under any failures: one that is pending, awaits cleanup, is expired at its turn or out of scope has its rule removed and reads expired or recovered, or cleanup_failed if that is not verified; any other row and its rule are untouched |
| ProtectionOutcomes.ExecutedIsInForce | arbiter/ingestion/protection.py:194-199 | what still reads executed after a reconcile expires later than its turn and is in scope |
| ProtectionRuns.ScopedApproveBounded | arbiter/ingestion/protection.py:137-147 | a scoped approval keeps, at every commit, at most ten live rows with distinct targets |
| ProtectionRuns.UndoBounded | arbiter/ingestion/protection.py:170-185 | an undo keeps that bound if and only if its row was live, or removal is confirmed, or there is still room for the row and its target |
| ProtectionRuns.UndoExample | arbiter/ingestion/protection.py:170-185 | undoing an undone action whose removal fails can make two live rows for one target |
| ProtectionRuns.ScopedRunsStayBounded | arbiter/ingestion/protection.py:137-201 | the bound over all runs of scoped approve, undo of live rows, reconcile and expiry, with crashes anywhere |
| ResponseWorkflow.Workflow.Recover | arbiter/ingestion/response_workflow.py:36-39 | restart turns every listed executing case into one for review, one commit each, and changes nothing else |
| ResponseWorkflow.Workflow.Ensure | arbiter/ingestion/response_workflow.py:68-89 | the first look at a completed escalation opens its case with severity, creation time and deadline; later looks change nothing |
| ResponseWorkflow.Workflow.Control | arbiter/ingestion/response_workflow.py:111-175 | the commits and the acceptance of undo, reviewed, reject, defer and schedule, with every refusal |
| ResponseWorkflow.Workflow.Stop | arbiter/ingestion/response_workflow.py:115-123 | the stopped setting is committed first, then armed cases are disarmed one commit at a time |
| ResponseWorkflow.Workflow.FindEvidence | arbiter/ingestion/response_workflow.py:177-205 | the loop over live rows returns the first that is at most thirty seconds old, about the same account or process, from a native connector, supports the enrolled rule anew and proposes the enrolled target |
| ResponseRuns.FreshEvidenceQualifies | arbiter/ingestion/response_workflow.py:177-205 | evidence is found if and only if some live row meets every one of those conditions, and then it is such a row |
| ResponseWorkflow.Workflow.Execute | arbiter/ingestion/response_workflow.py:224-247 | executing is saved before any native call; the case ends blocked exactly when the approval does, else needs review |
| ResponseWorkflow.Workflow.AtDeadline | arbiter/ingestion/response_workflow.py:219-247 | nothing before the deadline; overdue without enrolment or while stopped; otherwise the execution |
| ResponseWorkflow.Workflow.Sweep | arbiter/ingestion/response_workflow.py:251-260 | a blocked case follows the status of its action record |
| ResponseWorkflow.Workflow.Tick | arbiter/ingestion/response_workflow.py:207-260 | the commits of a whole pass, in order: new cases, passed deadlines, reconcile, follow-up |
| ResponseRuns.StopCarries | arbiter/ingestion/response_workflow.py:115-123 | wherever a stop is cut it keeps every invariant: one block per case and identity, and an authorization for every armed case and every block |
| ResponseRuns.StopLeavesNothingArmed | arbiter/ingestion/response_workflow.py:119-123 | a stop that runs to its end over every case leaves no case armed |
| ResponseRuns.CutStopIsTurns | arbiter/ingestion/response_workflow.py:115-123 | a stop cut behind its first commit leaves the state after some number of its turns |
| ResponseRuns.InterruptedStop | arbiter/ingestion/response_workflow.py:115-125 | after a stop cut short and a resume, a case is armed if and only if it was armed before and its turn had not come |
| ResponseRuns.ResumeKeeps | arbiter/ingestion/response_workflow.py:115-118 | a resume re-arms nothing and keeps all authority invariants |
| ResponseRuns.EnrollKeeps | arbiter/ingestion/response_workflow.py:148-171 | an accepted schedule keeps identities unique across cases and records a standing authorization made before the deadline |
| ResponseRuns.ExecutorBlocksTheEnrolledTarget | arbiter/ingestion/response_workflow.py:230-240 | at every commit the executor's approval has added one row, for the enrolled event and target, at most one rule, and the target is outside the protected networks given at enrolment |
| ResponseRuns.AtMostOneAutomaticBlock | arbiter/ingestion/response_workflow.py:36-39 | over all runs with crashes: one automatic block at most per case and per incident identity, no case back to pending, and each deadline is creation plus the window, or twice the window after the one deferral |
| ResponseRuns.EveryBlockIsAuthorized | arbiter/ingestion/response_workflow.py:219-247 | over every run, whatever is cut, each automatic block happens at or after the deadline and rests on an accepted schedule of that case and plan, made before the deadline while not stopped, with no review or reject since and no stop that disarmed the case or did not find it armed, and on a live row at most thirty seconds old of the same account or process that supports the same rule and target |
| ResponseRuns.OnlyCutStopsIntervene | arbiter/ingestion/response_workflow.py:115-125 | over every run, a stop begun between a schedule and the block that rests on it is a step of the run that found the case armed and ended before the turn of that case |
| ResponseRuns.BlockAfterACutStop | arbiter/ingestion/response_workflow.py:115-125 | a run of four steps, a schedule, a stop cut behind its first commit, a resume and a pass, in which the block goes through |
| ResponseRuns.EveryRuleIsLogged | arbiter/ingestion/response_workflow.py:224-247 | at every commit of a deadline the only rule that can be new is the attempt's own, and then its block has just been logged |
| ResponseOutcomes.FreshEvidenceIsFirst | arbiter/ingestion/response_workflow.py:177-205 | the evidence is the first live row of the last thirty seconds, about the same account or process, that shows the enrolled rule against the enrolled target |
| ResponseOutcomes.EvidenceMeans | arbiter/ingestion/response_workflow.py:224-240 | the evidence holds exactly when there is such a row, the original still proposes the target and the target is not protected |
| ResponseOutcomes.EveryBlockIsBacked | arbiter/ingestion/response_workflow.py:219-247 | over every run each automatic block was due and rested on such evidence |
| ResponseOutcomes.DeadlineOutcome | arbiter/ingestion/response_workflow.py:219-247 | how every deadline ends: nothing, overdue, blocked with its action exactly when the attempt passes and the firewall blocks, else needs review; and the action row and native rule that the attempt leaves |
| ResponseOutcomes.BlockedMeansExecuted | arbiter/ingestion/response_workflow.py:240-246 | an armed, due case reads blocked if and only if the action table then holds its executed row and the rule is there, and else it needs review |
| ResponseOutcomes.OpeningOutcome | arbiter/ingestion/response_workflow.py:68-89 | the case opened for a completed escalation, with its severity and its deadline in seconds |
| ResponseOutcomes.ReasonedOutcome | arbiter/ingestion/response_workflow.py:135-147 | when a review, a reject and the one extension are accepted, and the case after each |
| ResponseOutcomes.ScheduleOutcome | arbiter/ingestion/response_workflow.py:148-171 | a schedule is accepted exactly when there is a plan on offer, before the deadline and while not stopped: the first enrollable rule, the proposed and unprotected target, and an identity that no other case has; and it arms the case with that plan |
| ResponseOutcomes.UndoCaseOutcome | arbiter/ingestion/response_workflow.py:128-134 | an undo takes the newest unfinished action of the event, and the case is reverted exactly when the removal is verified |
| ResponseOutcomes.SweepOutcome | arbiter/ingestion/response_workflow.py:251-260 | a blocked case lapses exactly when the action it follows has expired, and is reverted exactly when that was undone or recovered |
| ResponseOutcomes.ManualOutcome | arbiter/api/server.py:564-571 | a manual action ends the case as blocked or reverted by hand exactly when it succeeds |
| ResponseOutcomes.RestartOutcome | arbiter/ingestion/response_workflow.py:36-39 | a restart hands exactly the executing cases it comes to to a person |
| L2Workflow.Workflow.Recover | arbiter/l2_workflow.py:62-65 | restart hands every executing case to a person |
| L2Workflow.Workflow.Observe | arbiter/l2_workflow.py:145-162 | what an observation commits: a new case, a rise of the severity computed from the row's score and assessment that shortens the deadline and drops the brief, fresher evidence, or nothing |
| L2Workflow.Workflow.TakeResult | arbiter/l2_workflow.py:171-187 | a review result counts only for an open case at the severity it looked at; an error needs a person; a follow-up never changes the state |
| L2Workflow.Workflow.Control | arbiter/l2_workflow.py:89-115 | what revert, reject, ack and defer commit and when they are refused: a blank reason, an unknown or closed case, no action, an extension already used |
| L2Workflow.Workflow.AtDeadline | arbiter/l2_workflow.py:195-225 | without a brief one alert and nothing else; the row of the case's event is read again, and nothing is committed if it is gone; a block needs policy, freshness, a proposal, confidence, the pinned target and the re-check of the brief on that row and evidence collected anew; otherwise a person is called |
| L2Workflow.Workflow.Execute | arbiter/l2_workflow.py:218-225 | executing is saved before the approval, and the case is contained exactly when the approval succeeds |
| L2Runs.AtMostOneBlockPerKey | arbiter/l2_workflow.py:62-225 | over all runs, whatever the clock reads, with any policy and scope at each step and any cuts: one automatic block at most per identity key, each due, not halted, enrolled by the policy in force, on the row of its event, at most thirty seconds old with a proposal, at the address its brief names, the brief confident and passing the re-check; every native rule has its block in the log; four extensions at most, no case back to waiting, dropped or less severe, no block forgotten |
| L2Runs.EveryRuleIsLogged | arbiter/l2_workflow.py:195-225 | at every commit of every operation, from any state: a rule that is new is the attempt's own, in the turn of a waiting case, and the one block just logged holds that case's event, deadline and brief, the running policy and scope, and the row of that event; nothing else adds to the log |
| L2Runs.EveryBlockIsSupported | arbiter/l2_workflow.py:202-218 | over all runs the rule of each automatic block follows from fresh local facts drawn only from the row of its event and the rows its brief cites |
| L2Deadlines.DeadlinesStayBounded | arbiter/l2_workflow.py:107-162 | over all runs, whatever the clock reads: under policies whose windows never exceed given ones, each deadline is at most one such window after its case opened or last rose, or two once acknowledged |
| L2Deadlines.DeadlinesInMinutes | arbiter/l2_workflow.py:9-27 | so under any policies that the configuration admits, one, five or thirty minutes, or twice that |
| L2Deadlines.RiseShortens | arbiter/l2_workflow.py:157-160 | a rise leaves the earlier of the old deadline and the end of the new window, and moves a deadline later if and only if it was 0, which reads as none, and the new one lies after it |
| L2Deadlines.RisesNeverPostpone | arbiter/l2_workflow.py:157-160 | wherever a run has come, with times past the epoch in any order and any policy at each step, no step that raises a severity, whole or cut, moves that deadline later |
| L2Deadlines.AckExtends | arbiter/l2_workflow.py:107-112 | an acknowledgement moves the deadline at most one window later, and not earlier if and only if the old deadline is within one window of the time then read, as it is with a monotone clock |
| L2Deadlines.AckAfterStepBack | arbiter/l2_workflow.py:107-112 | with a clock that steps back after the case was opened, an acknowledgement brings its deadline forward |
| L2Deadlines.OnlyRisesShorten | arbiter/l2_workflow.py:101-162 | over all runs with a monotone clock and one policy: at one severity a deadline only moves later, and not again once acknowledged |
| L2Outcomes.EveryBlockHasGrounds | arbiter/l2_workflow.py:202-218 | over all runs each block was due and not made while halted; its policy was automatic and enrolled its rule; its row was that of the event, at most thirty seconds old, and proposed an address, the one the brief names; and the brief asked to block, at 0.95 or more, and was sanctioned by the facts of the time |
| L2Outcomes.HaltedNeverBlocks | arbiter/l2_workflow.py:212-213 | while automatic action is halted no step of any kind, whole or cut, adds a block to the log or a native rule |
| L2Outcomes.DeadlineOutcome | arbiter/l2_workflow.py:195-225 | how the deadline of a waiting case ends: one alert without a brief, contained with its action exactly when there are those grounds, nothing is halted, the address is admissible and the firewall blocks it, else needs review; and the action row and native rule it leaves |
| L2Outcomes.FollowOutcome | arbiter/l2_workflow.py:190-194 | a contained case takes the status of its own action exactly when that is neither executed nor due to expire |
| L2Outcomes.ObserveOutcome | arbiter/l2_workflow.py:145-162 | the case after every sighting, with severity and deadline in the terms of score, assessment and windows |
| L2Outcomes.ResultOutcome | arbiter/l2_workflow.py:171-187 | the case after every review result |
| L2Outcomes.ReviewOutcome | arbiter/l2_workflow.py:89-115 | when a rejection, an acknowledgement and a deferral are accepted, and the case after each |
| L2Outcomes.RevertOutcome | arbiter/l2_workflow.py:100-103 | a revert is accepted, and the case reverted, exactly when the removal of its action is verified |
| L2Outcomes.RestartOutcome | arbiter/l2_workflow.py:62-65 | a restart hands exactly the executing cases it comes to to a person |
| L2Evidence.Dossier | arbiter/l2_evidence.py:12-28 | the facts gathered from the rows in order under the bounds on number, age, field length and total size |
| L2Evidence.Validate | arbiter/l2_guardrails.py:6-44 | a draft passes if and only if it meets every demand on action, confidence, texts, hypotheses, assertions and citations |
| L2Evidence.Challenge | arbiter/l2.py:46-62 | a validated draft keeps its action only if the challenge accepts it without objection and cites every required fact for a block; otherwise it asks for human review |
| L2Evidence.RunReview | arbiter/l2.py:22-62 | no evidence, the fast path, the fast-only refusal and the challenged draft, in that order |
| L2Evidence.RequiredInRange | arbiter/l2_evidence.py:35-58 | an assessment that is not `investigate` names a rule and one to five facts of the packet |
| L2Agreement.CriticalDraftIsValid | arbiter/l2.py:27-37 | the brief written for a verified critical finding always passes the guardrails |
| L2Agreement.LighterSelection | arbiter/l2_evidence.py:24-28 | leaving facts out never makes a packet heavier, although the rest are renumbered |
| L2Agreement.CitedDossier | arbiter/l2.py:74-75 | the packet rebuilt from cited rows alone holds exactly the cited facts and the current one |
| L2Agreement.SameRule | arbiter/l2_evidence.py:35-58 | keeping the current and the required facts keeps the rule of the assessment |
| L2Agreement.ReviewedBlockIsAuthorized | arbiter/l2.py:22-76 | every brief from `review` that asks for a block passes `authorize` on the same row, proposal and time |
| L2Agreement.FastReviewSucceeds | arbiter/l2.py:27-41 | for a verified finding the fast path always yields a brief that asks to block the proposed target |
| L2Support.FactsSound | arbiter/l2_evidence.py:12-28 | every fact is a short local untagged row of the same host, at most five minutes old; ids are distinct; there are at most 64 facts and 131072 bytes of them |
| L2Support.FactsAreTheUsableRows | arbiter/l2_evidence.py:12-28 | rows of distinct ids within those bounds lose none of the usable ones, in order |
| L2Support.RuleMeans | arbiter/l2_evidence.py:35-58 | repeated logins are found exactly when the current event is a failed login and five facts of distinct ids are failed logins from the target to its account, as the system recorded them; malware exactly when it is a connection to the target and a fact is a native detection of the connecting file |
| L2Support.AuthorizeMeans | arbiter/l2.py:64-76 | the re-check passes exactly the briefs that ask to block the proposed target, were accepted, cite only facts, and whose rule is so founded on all the facts and on the cited ones alone |
| L2Support.AuthorizedBlockIsSupported | arbiter/l2.py:64-76 | the rule of an authorized block is founded on fresh local facts drawn only from the current event and the cited rows |
| L2Support.AuthorizedLogins | arbiter/l2.py:64-76 | an authorized block for repeated logins has five failed logins of distinct ids, from the blocked address to the account of the current event, among the current and cited rows |
| L2Support.AuthorizedMalware | arbiter/l2.py:64-76 | an authorized block for malware has a native detection, among them, of the file whose process made the current connection to the blocked address |
| L2Support.ValidStands | arbiter/l2_guardrails.py:6-44 | the guardrails let through exactly the drafts whose texts, competing hypotheses, copied fields, target and citations stand |
| L2Support.ReviewOutcome | arbiter/l2.py:22-62 | there is a brief exactly on a native detection without the model, or for a standing draft with a readable challenge; it asks to block exactly when the draft does and the challenge agrees without objection, citing every required fact |
| EventBuffer.Store.Enqueue | arbiter/ingestion/store.py:104-117 | duplicates are refused before capacity is looked at; a full queue is left as it was |
| EventBuffer.Store.EnqueueMany | arbiter/ingestion/store.py:119-129 | a batch goes in whole or not at all |
| EventBuffer.Store.Claim | arbiter/ingestion/store.py:131-148 | the claimed row is the first ready one, in arrival order at every hundredth successful claim and by priority otherwise |
| EventBuffer.First | arbiter/ingestion/store.py:135-142 | no ready row comes before the chosen one, and none is chosen only when none is ready |
| EventBuffer.Priority | arbiter/ingestion/store.py:22-24 | never below the severity, at least 9 for a guarded finding and 6.5 for routine context |
| EventBuffer.Restarted | arbiter/ingestion/store.py:96-96 | restart moves processing rows to pending and changes nothing else |
| EventBuffer.Pruned | arbiter/ingestion/store.py:339-343 | pruning drops only done and failed rows received before the cutoff |
| EventBufferRuns.RunValid | arbiter/ingestion/store.py:104-158 | over every run, restarts included: event ids are unique, row ids increase and pending plus processing stay within capacity |
| EventBufferRuns.ClaimStep | arbiter/ingestion/store.py:131-148 | while a ready event waits, every claim takes something, and takes that event or uses up some of its bounded patience |
| EventBufferRuns.BoundedBypass | arbiter/ingestion/store.py:131-148 | a ready event with k pending events ahead of it in arrival order is taken within 100 (k + 1) claims, whatever more urgent events keep arriving |
| EventBufferRuns.ClaimOutcome | arbiter/ingestion/store.py:131-148 | a claim takes a pending row that is due and that no other such row precedes, by priority, then due time, then id, and every hundredth time by due time and id alone; none if and only if none is ready |
| EventBufferRuns.EnqueueOutcome | arbiter/ingestion/store.py:104-117 | an event goes in unless it is held or the pending and processing rows fill the capacity, as a new row at its raised priority |
| EventBufferRuns.BatchOutcome | arbiter/ingestion/store.py:119-129 | a batch goes in whole and in order exactly when there is room for all of it and every event is new |
| LinuxAuth.Collector.Poll | arbiter/ingestion/collectors/linux_auth.py:48-78 | the disk states of one poll: each record is stored, then the offset before it is saved, and the offset reached is saved when the poll ends or raises |
| LinuxAuthRuns.ExactlyOnceTailing | arbiter/ingestion/base.py:32-60 | over any appends, polls, full queues, stops and crashes, the accepted events are those of a prefix of the complete records, in file order, none repeated and none missing before the saved offset |
| LinuxAuthRuns.PollDrains | arbiter/ingestion/collectors/linux_auth.py:60-78 | after any run an undisturbed poll stores exactly the events of the records up to the offset it saves, and that lies 500 records further, or fewer and in front of a record that cannot be read |
| LinuxAuthRuns.ShorterFile | arbiter/ingestion/collectors/linux_auth.py:54-58 | the same from the start of a file that is shorter than the saved offset |
| LinuxAuthRuns.ReadMeans | arbiter/ingestion/collectors/linux_auth.py:60-67 | a record ends at the first newline, within 32768 bytes; so many without one are oversized, fewer incomplete |
| LinuxAuthRuns.ReadOutcome | arbiter/ingestion/collectors/linux_auth.py:60-78 | whatever a read meets, it passes a record exactly when that is readable and is no login attempt, or one that is stored or taken in |
| Attachments.Collector.Emit | arbiter/ingestion/base.py:36-49 | a change is stored, then the checkpoint that does not count it yet is saved, and only then the live map and sequence number advance; a stop or a full queue changes nothing |
| Attachments.Collector.ScanCategory | arbiter/ingestion/collectors/attachments.py:243-261 | one category's changes in order, and the current map installed only when all were handed over |
| Attachments.Collector.Poll | arbiter/ingestion/collectors/attachments.py:200-261 | the disk states of a poll over the categories that could be read, ending with the checkpoint it reached |
| AttachmentsRuns.ChangesReconcile | arbiter/ingestion/collectors/attachments.py:246-258 | for devices, interfaces and neighbors the emitted changes turn the previous map into the current one |
| AttachmentsRuns.SilentWhenUnchanged | arbiter/ingestion/collectors/attachments.py:246-249 | nothing is emitted for a tracked category if and only if its map is unchanged |
| AttachmentsRuns.ChangesMean | arbiter/ingestion/collectors/attachments.py:243-249 | the changes are exactly the rows that differ from the saved ones, present on the first look and added or changed later, and in the three tracked categories the saved rows that are gone |
| AttachmentsRuns.HandOverOutcome | arbiter/ingestion/base.py:36-49 | a change is taken in exactly when the collector is not stopped and the queue has room or holds its event already |
| AttachmentsRuns.StreamRebuildsInventory | arbiter/ingestion/collectors/attachments.py:206-261 | over any snapshots, unreadable categories, full queues and clean restarts, replaying the accepted events gives the saved maps, and sequence numbers strictly increase |
| AttachmentsRuns.UninterruptedPollIsTheSnapshot | arbiter/ingestion/collectors/attachments.py:206-261 | after an uninterrupted poll the replay equals the snapshot of every category read, and an unreadable category is never a mass disconnection |
| AttachmentsRuns.CrashLosesAtMostTwo | arbiter/ingestion/base.py:36-50 | a process that dies anywhere in a poll leaves the saved checkpoint at most two events behind |
| AttachmentsRuns.RetryAfterCrash | arbiter/ingestion/collectors/attachments.py:250-259 | after such a crash an event is made good exactly when the same change is handed over again; any other change reuses its sequence number |
| AttachmentsRecovery.ChangesShift | arbiter/ingestion/collectors/attachments.py:246-259 | applying the first change of a category leaves exactly its other changes, in the same order |
| AttachmentsRecovery.SameSnapshotRecovers | arbiter/ingestion/base.py:36-50 | after any clean runs, any number of polls of one snapshot, each interrupted or dying anywhere, and then an undisturbed one leave exactly the events that the last alone would have left, each stored once, replaying to the checkpoint, which holds the snapshot |
| AttachmentsRecovery.RepeatedNumber | arbiter/ingestion/collectors/attachments.py:250-259 | a crash behind the first store and a different snapshot give two events one sequence number |
| Pipeline.Worker.ProcessOne | arbiter/ingestion/pipeline.py:33-99 | the commits of one attempt: claim, then history, audit and finish, or fail, for every point at which something raises |
| Pipeline.VerdictFor | arbiter/store.py:97-103 | the verdict found is one the audit holds for that event, and none is found only when it holds none |
| PipelineRuns.OneVerdictPerEvent | arbiter/ingestion/pipeline.py:33-99 | over all runs with crashes, retention and differing model answers, the audit holds at most one verdict per event id and every done row agrees with it |
| PipelineRuns.AuditedVerdictIsFinal | arbiter/ingestion/pipeline.py:54-62 | while the audit is kept, the verdict of an audited event never changes, and every later done row of that event carries it, even after retention and a second arrival |
| PipelineRuns.ModelIsNotAskedTwice | arbiter/ingestion/pipeline.py:54-62 | for an audited event the commits do not depend on what the model would answer, and the row ends with the audited verdict exactly when it loads and planning succeeds |
| PipelineRuns.AttemptBalance | arbiter/ingestion/pipeline.py:71-72 | one attempt, cut anywhere: the history gains one on the audit for an event if and only if the attempt is on that event, unaudited, gets its note written and dies right behind it or has the audit file or table refuse the verdict |
| PipelineRuns.AttemptOutcome | arbiter/ingestion/pipeline.py:33-100 | an uncut attempt finishes its row exactly when nothing raises, with the audited verdict or the new one, and else fails it; and what it adds to history and audit |
| PipelineRuns.HistoryAgreesUnlessAttemptsSlip | arbiter/ingestion/pipeline.py:33-99 | over all runs that keep the audit, the history counts an event as often as the audit, plus once for each such attempt |
| PipelineRuns.HistoryCountsTwice | arbiter/ingestion/pipeline.py:71-72 | a crash between the two commits and a retry make the history count two verdicts, which may differ, while the audit holds one |
| PipelineRuns.RefusedVerdictLeavesANote | arbiter/ingestion/pipeline.py:71-98 | without any crash, a verdict the audit refuses leaves its note behind a failed row |
| VerdictMemory.Aggregate | arbiter/memory.py:166-168 | total is suppressed plus escalated, overruled is at most suppressed, false alarms at most escalated |
| VerdictMemory.AggregateMeans | arbiter/memory.py:166-168 | which rows make the overruled count positive and the false alarms equal to the escalations |
| VerdictMemory.Memory.RecordVerdict | arbiter/memory.py:138-154 | one or two rows appended and the cached entries bumped in place, with commits by other connections in between |
| VerdictMemory.Memory.RefreshHistoryCache | arbiter/memory.py:156-160 | the cache is emptied exactly when another connection has committed |
| VerdictMemory.Memory.History | arbiter/memory.py:162-171 | the cached or freshly aggregated counts, in a new object that is no entry of the cache |
| VerdictMemory.Memory.LabelVerdicts | arbiter/memory.py:173-181 | exactly the rows of the signature and of its contexts are relabelled, and the cache is emptied |
| MemoryRuns.RecordExact | arbiter/memory.py:138-154 | bumping the entries keeps a current cache equal to the aggregate over the extended table |
| MemoryRuns.HistoryIsTheAggregate | arbiter/memory.py:138-181 | after any run of records, labels, questions, evictions and foreign commits, an answer is the aggregate over the table a cacheless service would have, at the call or as committed during it |
| MemoryRuns.ReversalStands | arbiter/memory.py:173-181 | an overruled suppression stays so until a label covers its signature again |
| MemoryRuns.OverruleReverses | arbiter/memory.py:173-181 | overruling a signature marks a suppression if and only if there is one |
| MemoryRuns.AggregateCounts | arbiter/memory.py:166-168 | the counts are the numbers of suppressions, of other verdicts and of the overruled of each, on exactly that signature |
| MemoryRuns.RecordedCounts | arbiter/memory.py:138-148 | a verdict adds one to the counts of its signature and to those of a context of that signature given with it, and to no others |
| MemoryRuns.LabelMarks | arbiter/memory.py:173-181 | a label marks every verdict of its signature and of its contexts, and no other |
| Triage.FirstHit | arbiter/guardrails.py:282-293 | no rule is reported exactly when none fires |
| Triage.TriageEngine.RunPrefilter | arbiter/prefilter.py:37-99 | decision and score as a function of the event and the table, through the cached memory |
| Triage.TriageEngine.Triage | arbiter/triage.py:46-102 | the verdict as a function of event, table and model answer; it is recorded in memory and counted before it is returned |
| TriageRuns.SuppressionNeedsAuthority | arbiter/triage.py:46-166 | for any model behaviour a verdict suppresses if and only if no rule hits and the prefilter or a confident model says so, or the first hit is corroborated privilege expansion and a model at 0.7 or more says so |
| TriageRuns.LaterRulesDoNotVeto | arbiter/guardrails.py:287-293 | rules behind a corroborated first hit do not prevent a suppression |
| TriageRuns.BrokenRuleIsSkipped | arbiter/guardrails.py:287-293 | a rule that raises or does not fire can be left out without changing the first hit |
| TriageRuns.CheapSuppression | arbiter/prefilter.py:77-93 | outside routine telemetry the prefilter suppresses if and only if the score is low and the exact history is long, wholly benign and not reversed, nor is that of the plain signature |
| TriageRuns.FeedbackLasts | arbiter/prefilter.py:55-99 | after a suppression is overruled no later verdicts, and no labels elsewhere, let the prefilter suppress a non-routine event of that signature, with or without context |
| TriageRuns.ContextFeedbackLasts | arbiter/prefilter.py:55-99 | the same for a reversal of the exact context alone |
| TriageRuns.ReversalRaisesScore | arbiter/prefilter.py:42-52 | more reversed suppressions never lower a score |
| TriageRuns.RateIsTheBenignShare | arbiter/memory.py:66-71 | the rate is the share of suppressions and reversed escalations among the verdicts, 0 of none |
| TriageRuns.ScoreMeans | arbiter/prefilter.py:37-53 | the score is severity by criticality, less half the benign share of five or more comparable verdicts and more by 0.3 for up to three reversed suppressions, within 0 and 10 |
| TriageRuns.CheapTierDecides | arbiter/prefilter.py:55-75 | where no rule fires, routine telemetry is suppressed and a score of 7 or more escalated whatever the model would say, and the model is asked only below 7 |
| TriageRuns.WhoDecides | arbiter/triage.py:46-102 | which tier decides, at which score, and that the model's answer counts only in its own and fails towards escalation |
| TriageRuns.OneEventCounted | arbiter/triage.py:65-98 | which counters one event adds to |
| TriageRuns.EveryEventIsCounted | arbiter/triage.py:65-98 | the counters add up by tier and by outcome over any sequence of events |
| Bench.SimulateQueue | arbiter/bench.py:124-138 | for lists of any lengths: times in system and drain time of the pairs, and for sorted arrivals and non-negative services the exact largest backlog, by one pass with a moving pointer, or an index error if and only if an arrival without a service finds every served job gone |
| Bench.Services | arbiter/bench.py:148-163 | each row pays the model latency exactly when it is charged, from the running map of last charges |
| BenchRuns.FinishIsMaxPlus | arbiter/bench.py:127-131 | every finish is at least each earlier arrival plus the work since it, and equal to one of these for every job if and only if the first arrival is not before 0 |
| BenchRuns.DepthIsTheWorst | arbiter/bench.py:133-137 | the reported backlog is met by some arrival and exceeded by none |
| BenchRuns.ChargesAreSpaced | arbiter/bench.py:148-163 | charged calls of one signature are more than a window apart |
| BenchRuns.ReuseIsCovered | arbiter/bench.py:148-163 | a model-tier row is uncharged if and only if a charged row of its signature lies within the window before it |
| BenchRuns.WhoPays | arbiter/bench.py:148-163 | a row pays exactly when it is of the model tier and, with reuse, none of its signature within the window before it has paid; without reuse every such row pays |
| BenchRuns.FirstPays | arbiter/bench.py:148-163 | the first model-tier row of each signature pays |
| BenchRuns.BacklogCounts | arbiter/bench.py:133-137 | the backlog an arrival finds is the number of earlier jobs that have not left |
| BenchRuns.DedupDominates | arbiter/bench.py:148-163 | with reuse no service, time in system, backlog or drain time is larger |
| Quotas.WebsiteCloudBackend.Triage | arbiter/site_cloud.py:49-95 | which reply each request gets, answered exactly when it is admitted and the service answers, and what each does to the queue and the counters |
| Quotas.VisitorPool.Expire | arbiter/site_demo.py:36-40 | exactly the sessions idle longer than the limit are dropped |
| Quotas.VisitorPool.Acquire | arbiter/site_demo.py:42-62 | the pool afterwards and the outcome: gone, crowded, limited or granted |
| QuotaRuns.WindowIsBounded | arbiter/site_cloud.py:59-65 | with a monotone clock no window of the span holds more admissions than the limit, although expired entries are discarded |
| QuotaRuns.RefusedExactlyWhenSpent | arbiter/site_cloud.py:61-64 | a request is admitted if and only if fewer than the limit were admitted within the span before it |
| QuotaRuns.HourlyAllowance | arbiter/site_cloud.py:49-66 | any half-open 3600 seconds of any request sequence hold at most the hourly limit of cloud calls |
| QuotaRuns.HourInSeconds | arbiter/site_cloud.py:59-65 | a call is admitted exactly when fewer than the limit were admitted in the 3600 seconds before it, and no such hour holds more |
| QuotaRuns.VisitorsAreBounded | arbiter/site_demo.py:36-62 | over any visits the live sessions never exceed the capacity and no closed 60 seconds of a session hold more than 300 admitted requests |
| QuotaRuns.MinuteInSeconds | arbiter/site_demo.py:52-58 | no 60 seconds of a live session, both ends included, hold more than 300 admitted requests |
| QuotaRuns.VisitOutcome | arbiter/site_demo.py:36-62 | how every visit ends: idle sessions are gone, which visit finds or opens a session, and a granted one is counted and renews it while a refused one does not |
| QuotaRuns.WhoIsGranted | arbiter/site_demo.py:42-62 | a visit is granted if and only if it has or may open a session that has not used up the last minute |
| Syslog.ScanStructured | arbiter/ingestion/collectors/syslog.py:41-64 | the loop over position, quote and escape computes the scanner function, errors included |
| SyslogRoundTrip.SplitReassembles | arbiter/ingestion/collectors/syslog.py:41-64 | every successful split puts back together to its input |
| SyslogRoundTrip.AcceptedExactly | arbiter/ingestion/collectors/syslog.py:41-64 | a line is accepted exactly when it is the absent value, or one or more bracketed bodies that nothing within closes, up to the end or a space |
| SyslogRoundTrip.NilSplits | arbiter/ingestion/collectors/syslog.py:42-43 | the absent value splits with and without a message |
| SyslogRoundTrip.InsideStops | arbiter/ingestion/collectors/syslog.py:44-61 | the scanner stops right behind the printed elements if and only if the last one closes itself |
| SyslogRoundTrip.RoundTrip | arbiter/ingestion/collectors/syslog.py:41-64 | printed elements with properly escaped values, followed by nothing or by a space and any message, come back exactly, if and only if the last element does not have an id ending in an odd run of backslashes and no parameters |
| SyslogRoundTrip.CleanNamesRoundTrip | arbiter/ingestion/collectors/syslog.py:41-64 | elements whose ids hold no backslash always come back |
| SyslogRoundTrip.DanglingExample | arbiter/ingestion/collectors/syslog.py:52-60 | one element that RFC 5424 allows and that does not come back |

## Left out

* PowerShell, nft, wevtutil and osquery commands, address and timestamp parsing: their results are fields of the evidence or outcomes of native calls.
* Simulation mode of the first-level workflow, its `l1_response_seen` table, and the display parts of a case: a pass is given its unseen findings.
* The correlation rules: a row carries the correlations that correlating it anew would find, and the live rows of a host are given to each execution.
* The clock is read once for each step of a scheduler pass or command, and once for each reconciled row and its expiry; the code reads it again within some steps.
* Second-level notices, review threads and job queues: a result may arrive for any case at any time with any content.
* Parsing of addresses: a row carries its addresses as written for the second-level review, and parsed for the protection.
* L2Evidence.RunReview: prose, digest and timings of the reply are not modelled, and a fast-only request without a verified finding is an error value.
* L2Agreement.ReviewedBlockIsAuthorized: assumes no related row repeats the id of the current one, which the query that collects related rows guarantees.
* LinuxAuth.Collector.Poll: file rotation and truncation under the tail, which start again at offset 0 (`LinuxAuthRuns.ShorterFile`), are outside the runs: there the log is append-only. So is retention that drops the row of a record that is read again: the accepted events only grow.
* AttachmentsRuns.StreamRebuildsInventory: executions and connections, whose departures the source does not report, are modelled but have no inventory to rebuild; keying and filtering of rows happen before the model.
* PipelineRuns.HistoryAgreesUnlessAttemptsSlip: says nothing of runs in which audit rows are dropped by retention.
* PipelineRuns.OneVerdictPerEvent: only the worker writes verdicts; the demo feeder that records audit rows for its own generated events is not modelled, and arrivals are not interleaved between the commits of one attempt.
* Correlation, asset context, response planning, incidents and guidance in the worker: they may raise, and otherwise do not change decision, tier or score.
* The aggregate SQL, schema migration, indexes and write-ahead logging: a statement is a function of the table.
* Triage.TriageEngine.Triage: commits of other connections fall between events, not inside one; the audit file, rationales, evidence texts and facts shown to the model are not modelled.
* Guardrail keyword lists and fact matching: whether a rule or a fact fires, stays silent or raises is a field of the event.
* Cloud transport and visitor cookies: whether a request is configured, gets the slot, fits and is answered is part of the request; a new session's token is given.
* Quotas.VisitorPool.Acquire: the clock is read once for the sweep and the request, and a stored window is rebuilt as an object for the call.
* Syslog framing outside structured data, and names that hold a quote or a closing bracket, which RFC 5424 forbids.
* The HTTP API, discovery, installers, evaluation reports and the dashboard.
