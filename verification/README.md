# A verified model of the governance core

The system holds risky agent actions for a human, decides actions in layers,
records decisions in a hash-chained ledger and a receipt log, and exports a
labelled dataset. Four parts carry its guarantees, and this project models each
and proves what it promises.

**Approval and execution protocol.** One `AgentWorkload` object is written by
clients, an admission webhook and several reconcilers. `Protocol.dfy` is a state
machine over all stored versions of that object, any number of reconcilers with
a local copy of some version, the receipt log, the examples stored in the
dataset, and the calls made with their results. A step is a read of any version,
old ones included; the checks before the action path; a status write that is
applied only over the version it was based on, whose reply may be lost, and that
need not make a new version when it changes nothing; a receipt or an example
that may be stored and still be reported as failed; a tool call; an admitted
client update; a crash of one reconciler; or the restore of a pending action
whose id is in the window of decided ids, in any phase and state.
`ProtocolInvariant.dfy` proves what every step keeps, `ProtocolTheorems.dfy`
what follows over whole runs, `ProtocolSchedules.dfy` that held actions do get
approved and executed, `ProtocolMeaning.dfy` what the stored status means and
what becomes of a proposal by what stands against it, `ProtocolHistory.dfy` how
stored versions follow each other and what becomes of every committed action,
and `ProtocolLimits.dfy` where the guarantees end, each limit with its exact
condition. `ProtocolWitness.dfy` gives runs of one concrete operator, from a
created object, that execute any number of actions on both paths under required
receipts and that reach those limits. `Controller.dfy` is the reconcile code itself, as methods that change a
local copy and ask the world for writes, receipts, examples and calls; each is
proved to make exactly the requests of the automaton in `Protocol.dfy`, whatever
is answered. `Approval.dfy`, `ApprovalProofs.dfy` and `Workload.dfy` hold the
annotation protocol and the webhook, and `ApprovalMeaning.dfy` says what they
accept, read and store, without their code. `Governance.dfy` composes the layers
and says, again without their code, what stands against an action
(`NothingHard`, `Unopposed`, `DecidedAs`); the theorems over runs are stated
with those.

**Audit ledger.** `AuditChain.dfy` and `AuditLedger.dfy`: the canonical bytes of
a row, the recorder, the verifier and checkpoints. SHA-256 and HMAC (section 2
of RFC 2104) are arbitrary functions about which nothing is assumed
(`Crypto.dfy`). Tamper evidence therefore reads "equal, or here are two
different inputs with one digest", and the collision is computed by walking down
the chain.

**Dataset store.** `Dataset.dfy`, `DatasetStore.dfy`, `DatasetVerify.dfy` and
`Redact.dfy`: the append-only file with its torn tail, the index, the offline
check and its agreement with the writer, and redaction. `DatasetWitness.dfy`
fills such a store.

**Deciders.** `Iban.dfy`, `CheckDigits.dfy`, `DataClass.dfy`, `Invariants.dfy`,
`Decision.dfy` and `Governance.dfy`: checksums over digits (`Digits.dfy`)
against their standards (ISO 13616 with ISO/IEC 7064 MOD 97-10; Annex B of
ISO/IEC 7812-1), the budgeted scan, the invariants and the escalate-only
pipeline, composed into one statement about what can be executed.

## Conventions and assumptions

- A Go string or byte slice is a Dafny `string`, one `char` per byte.
- Library behaviour is a function-valued field: JSON reading and writing, UTF-8
  validity and repair, string folding, the policy engine, the threshold
  evaluator, detectors, feature extraction and scoring. Only what a `Lawful`,
  `ReadsBack` or `LineOf` predicate states is assumed of them: strict JSON holds
  no raw NUL (sections 2 and 7 of RFC 8259), a marshalled line holds no newline,
  decoding undoes encoding, repair keeps valid text and empties nothing. Every
  theorem holds for all such functions; `ApprovalProofs.LawsAreConsistent` and
  `DatasetWitness.DatasetLawsAreConsistent` give functions that meet the laws.
- Protocol runs assume that every client write passes the webhook under the
  controller's key, that status is written by the controller only (a restore
  apart), and that a new pending id is fresh. `ApprovalProofs.PendingIdBinds` is
  what stands behind the last one.
- A claim never lowers the risk (pkg/decision/model.go:85-87,
  `Decision.ClaimSafeRisk`). The outcome also depends on the threshold that
  comes with the score; `Decision.ClaimsOnlyTighten` holds when it does not
  depend on claims, as for the scorers of the repository, and
  `Decision.ClaimsLoosenIff` is the exact condition for any scorer.
- One execution is one call of the tool client. That client repeats a request
  that got a 5xx reply (pkg/mcp/client.go:152-163), below the level of this
  model.
- Where fixed widths matter they are written out: 64-bit sequence numbers wrap,
  and the length prefix of the row encoding is cut to 32 bits.

## Where code and documentation disagree

The model follows the code.

- docs/approvals.md:164 says any string that holds a detected class is redacted.
  Only the first 64 KiB of a string are looked at, and Go integers are kept:
  `Redact.RedactionIsSafeIff` is the exact condition, and
  `Redact.LongTextIsLetThrough` an instance. Go integers do not come from the
  controller, which decodes numbers as text
  (internal/controller/approvals.go:266-268, pkg/approval/approval.go:329); such
  a string does, for example when an action held under a policy mode other than
  strict is rejected, because the example is stored before the decision is acted
  on (internal/controller/approvals.go:363-370).
- The condition message for outcome `unknown`
  (internal/controller/approvals.go:229-230) says the action was not run again.
  It is indeed run at most once, but that run may still come:
  `ProtocolLimits.FinishedMayStillRunIff` says exactly when, and
  `ProtocolWitness.SomeUnknownStillRuns` gives a run that gets there.
- The comment at internal/controller/approvals.go:222-225 says a restored
  pending action with a decided id is never acted on again.
  docs/approvals.md:135-141 says so of the last 32 decided ids only, and that is
  what holds, whether the action ran or was rejected or denied:
  `ProtocolLimits.RestoredRunsIff` is the exact condition, and
  `ProtocolWitness.EvictedRunsAgain` an instance beyond it.
- docs/approvals.md:148-152 says that after a stop while executing the next
  reconcile marks the action as failed with outcome `unknown`. It does exactly
  when the checks before the action path pass
  (`ProtocolHistory.NextReconcileReportsIff`). A licence or quota failure there
  (internal/controller/agentworkload_controller.go:325-351) sets the phase
  `Failed` and leaves the action stored; the pending branch (line 481) then
  skips it and the next proposal drops it (line 719). From that phase on no
  outcome is ever recorded: `ProtocolHistory.OutcomeMayFollowIff` is the exact
  condition, `ProtocolHistory.CommittedIsAccounted` says where every committed
  action went, and `ProtocolWitness.SomeOutcomeIsLost` is a run that ends so.
- The store has no limit on the length of a line, the offline check reads lines
  of less than 2^24 bytes: `DatasetVerify.StoredFilePassesIff`,
  `DatasetVerify.OverlongLineFails`. Requests to the receipt writer are far
  smaller (pkg/dataset/dataset.go:32-33), so only another caller of the store
  meets it.
- An IBAN with a digit next to a letter can survive a swap of the two for three
  pairs; the standard's promise is about digits. `Iban.AdjacentSwap` is exact.

## Model

| member | source | states |
|---|---|---|
| `ProtocolTheorems.AtMostOnce` | internal/controller/approvals.go:386-402 | over every run, no two execute_action calls of the human path have the same pending id |
| `ProtocolTheorems.ExecutingNeverReverts` | internal/controller/approvals.go:222-231 | once stored as Executing, an action that is still stored and undecided is Executing in every later state of every run |
| `ProtocolTheorems.SnapshotExecution` | internal/controller/approvals.go:233-320 | over every run: the object stored by the Executing commit of a call carries a verified approve or edit of exactly that action; the call is the stored proposal under the stored name, or the edit's own name, description and parameters, with the stored confidence; and under that object's spec all six invariants hold of what a scan of that call observes, and the packs, asked about it with the stored numbers and the object's history, give no error and deny nothing |
| `ProtocolTheorems.FreezeOverRuns` | api/v1alpha1/agentworkload_webhook.go:138-169 | whenever a held action executes, declared intent, packs, policy mode, decision model, capture and endpoint equal their values when that pending action was stored |
| `ProtocolTheorems.WriteAheadReceipts` | internal/controller/receipts.go:59-100 | with receipts enabled and required, each call on either path comes after a log row that binds the same payload: approved for an approve, edited for an edit, allow with the proposal's own action, parameters and confidence on the direct path |
| `ProtocolTheorems.ExamplesAreBound` | internal/controller/approvals.go:363-365 | every example that a reconciler put in the dataset, in any run, labels a decision that verified on the version it was read from; the receipt with its number is the human row for that id, the outcome that reports that verdict, and the payload that decision asks for |
| `ProtocolTheorems.NoStaleDirectExecution` | internal/controller/agentworkload_controller.go:647-664 | a direct action runs only if its reservation was stored over exactly the object it was decided on, with no other write between, and there nothing at all stood against it: all six invariants hold, no pack fails, denies or asks for approval, the threshold allows it for the proposal's tool and numbers, and the model does not escalate it |
| `ProtocolTheorems.ReplayWindow` | internal/controller/approvals.go:464-468 | the stored window is always the latest 32 finished ids in order, no id is finished twice, and a stored action with a finished id reads as consumed |
| `ProtocolTheorems.FinishedIsNeverCommitted` | internal/controller/approvals.go:195-205 | no Executing commit is made for an id after it was finished, so a call for it comes from an earlier commit |
| `ProtocolTheorems.NothingIsUndone` | internal/controller/approvals.go:386-389 | however a run goes on, stored versions, receipts, calls, finished ids and commits stay, and no finished id is committed anew |
| `ProtocolTheorems.DecisionsAreAppendOnce` | pkg/approval/approval.go:272-299 | from the version at which a decision is stamped for the pending action, and as long as that action stays in the pending phase, all six protocol annotations are the same in every stored version of every run |
| `ProtocolTheorems.ReadNeverFails` | pkg/approval/approval.go:242-270 | on every stored version of every run, reading the decision for its pending action gives no error: no missing, wrong or unverifiable stamp can be found |
| `ProtocolTheorems.NoCredentialExecutes` | pkg/invariants/invariants.go:95-105 | no payload that is executed on either path holds a leaf in which the credential detector fires, at any depth or length |
| `ProtocolTheorems.OutcomesAreTrue` | internal/controller/approvals.go:369-402 | in every reachable state each recorded outcome is what happened: executed after its one call, which succeeded; failed after its one call, which did not; rejected or denied without an Executing commit; unknown after one; each with its phase and label, and the stored last outcome repeats it |
| `ProtocolTheorems.RejectedNeverExecutes` | internal/controller/approvals.go:370-384 | an action finished as rejected or denied is never called, then or in any continuation of the run |
| `ProtocolTheorems.ReadMeansVerified` | pkg/approval/approval.go:258-269 | a decision that Read returns is carried by the annotations: the stamp is the keyed digest of workload, id, decision, approver and proposal, and label, reason, edit and approver are those annotations, in order |
| `ProtocolInvariant.RunInvariant` | internal/controller/approvals.go:214-403 | every state any run reaches satisfies the system invariant: births, stamps, freeze, window, commits, places of all reconcilers and facts about all calls and examples |
| `ProtocolInvariant.StepKeeps` | internal/controller/approvals.go:214-403 | every single step (read, gate, guarded write applied or lost, receipt or example stored or lost, call, proposal, client update, restore, crash) keeps the invariant |
| `ProtocolInvariant.AdmittedVersionOk` | api/v1alpha1/agentworkload_admission.go:38-60 | a version stored by an admitted client update keeps the stamp, birth and freeze facts of the version before |
| `ProtocolInvariant.WriteKeeps` | internal/controller/approvals.go:314-320 | every guarded status write, applied over the version it was based on, keeps the stored versions and the books, and leaves its writer well placed |
| `ProtocolInvariant.CallKeeps` | internal/controller/approvals.go:386-398 | a call of the tool server is the first for its id |
| `ProtocolInvariant.ExecuteStored` | internal/controller/approvals.go:386-389 | an Executing commit is made only for an id that was never committed before |
| `ProtocolInvariant.FinishStored` | internal/controller/approvals.go:451-470 | finishing keeps the window the latest 32 finished ids, and finishes only an id not finished before |
| `ProtocolSchedules.ApprovedActionCanRun` | internal/controller/approvals.go:233-403 | from any state, a reconciler left alone with an approved, unblocked action calls the tool once for it, lists it as executed, and stores the outcome with the decision and the digest of who took it |
| `ProtocolSchedules.HeldActionCanRun` | pkg/approval/approval.go:297-324 | from any state in which an action waits undecided, a client the webhook can stamp may approve it, and if the layers let it through a schedule then calls the tool once for it and records it as executed |
| `ProtocolSchedules.RejectedActionEnds` | internal/controller/approvals.go:370-373 | from any state, a reconciler left alone with a rejected action writes its receipt, ends it as rejected, and calls nothing |
| `ProtocolSchedules.BlockedActionEnds` | internal/controller/approvals.go:374-384 | from any state, a reconciler left alone with an approval that the layers no longer let through writes the human receipt and a deny receipt, ends the action as denied with phase PolicyDenied, and calls nothing |
| `ProtocolSchedules.FailedActionEnds` | internal/controller/approvals.go:390-398 | when the one call of an approved action fails, the action ends as failed, is listed as not approved, and is not called again |
| `ProtocolSchedules.FailedReceiptReleases` | internal/controller/approvals.go:350-362 | when a required human receipt is not stored, nothing is called and the action waits again with that condition, except that nothing more is written, and the action stays as recorded, when the condition says so already |
| `ProtocolSchedules.OptionalReceiptIsSkipped` | internal/controller/approvals.go:350-362 | when a human receipt that is not required is not stored, the decision goes on without its number |
| `ProtocolSchedules.FailedExampleIsNoted` | internal/controller/approvals.go:405-432 | an example that is not stored is noted and the decision goes on |
| `ProtocolSchedules.HeldBackIsNoted` | internal/controller/approvals.go:435-449 | an action that is held back gets the reason as its condition and no other change, and no write when it says so already and is not being acted on |
| `ProtocolSchedules.NoAnswerFails` | internal/controller/agentworkload_controller.go:484-588 | when the tool server proposes nothing the workload fails and nothing else changes |
| `ProtocolSchedules.TouchedGoesOn` | internal/controller/agentworkload_controller.go:244-266 | a status write of the checks before the action path leaves the rest of the object alone, and the reconcile goes on with what it wrote |
| `ProtocolSchedules.UnstorableIsReproposed` | internal/controller/agentworkload_controller.go:718-726 | a proposal that needs an approval and does not marshal leaves the pending phase without an action |
| `ProtocolMeaning.NeedingApprovalIsHeld` | internal/controller/agentworkload_controller.go:666-735 | from any state free to ask, a proposal that needs an approval, or one that is denied outside the strict mode, becomes the pending action of its fresh id with every field of the proposal, undecided; one receipt of that decision is written, and nothing is called |
| `ProtocolMeaning.EscalatedIsHeld` | internal/controller/decision_model.go:41-80 | a proposal that every layer allows and the model escalates is held, and no tool is called for it |
| `ProtocolMeaning.UnopposedRuns` | internal/controller/agentworkload_controller.go:647-682 | from any state free to ask, a proposal that nothing stands against is reserved, called once and listed as executed, with an allow receipt before the call |
| `ProtocolMeaning.UnopposedMayFail` | internal/controller/agentworkload_controller.go:666-674 | and when that call fails the action is listed as not approved and the workload fails |
| `ProtocolMeaning.DeniedIsNotHeld` | internal/controller/agentworkload_controller.go:700-719 | under the strict mode a denied proposal ends in PolicyDenied with no pending action: it is listed and receipted as denied, nothing is born and nothing is called |
| `ProtocolMeaning.BirthsAreDecided` | internal/controller/agentworkload_controller.go:700-735 | over every run: each pending action that was ever stored is a proposal decided on a stored version without a waiting action, with every stored field and the spec of that decision and its receipt number; under the strict mode one that needed an approval and has its required receipt, so nothing denied is ever held there; and an allowed one only because its required receipt was not written |
| `ProtocolMeaning.ListsAreTrue` | internal/controller/approvals.go:390-402 | in every version of every run, each action listed as executed was called with that name, description and confidence and succeeded, and every action in the other list counts as denied |
| `ProtocolMeaning.StatusIsTrue` | internal/controller/approvals.go:451-497 | in every version of every run, the last outcome names a decision that verified for that action, the digest of who took it and its receipt, which a required one has, unless it is unknown, and then the state it was found in; an undecided action in progress carries the verdict that was read; the condition gives each ending its reason, a replay only of a decided action, and never a missing or wrong stamp |
| `ProtocolMeaning.DirectCallsAreFree` | internal/controller/agentworkload_controller.go:476-492 | no direct call of any run is made for an object whose action was rejected or is waiting for a human |
| `ProtocolMeaning.PlanIff` | internal/controller/approvals.go:214-262 | a reconciler gives up exactly on an undecided action found Executing, waits exactly without a decision for it, acts exactly on a verified decision whose proposal parses, and otherwise names the first thing that is wrong |
| `ProtocolLimits.FinishedMayStillRunIff` | internal/controller/approvals.go:227-231 | in every reachable state and for every finished id, some continuation calls the tool for it exactly when its outcome is unknown and the reconciler of its Executing commit stands before the call; the other four outcomes are final |
| `ProtocolLimits.CommittedMayCallIff` | internal/controller/approvals.go:386-390 | after its Executing commit an action can be called in some continuation exactly when a reconciler stands before that call |
| `ProtocolLimits.RestoredRunsIff` | internal/controller/approvals.go:192-205 | when any pending action that was stored before is put back, not executing, and would pass, some continuation calls the tool for it exactly when its id is neither the last decided one nor in the window of 32, or its reconciler stood before the call all along; so it is for rejected and denied actions too, and for one that ran this is a second run |
| `ProtocolLimits.RestoreInWindow` | internal/controller/approvals.go:222-225 | putting back an action whose id is the last decided one or in the window, in any state and phase, leads to no call of it in any continuation, unless a reconciler stands before that call already |
| `ProtocolLimits.CalledHasNoCaller` | internal/controller/approvals.go:386-390 | an id that was called has no reconciler before a call, so for it a restore leads to a second call exactly when it has left the window |
| `ProtocolHistory.OutcomeMayFollowIff` | internal/controller/agentworkload_controller.go:476-492 | in every reachable state and for every committed id without an outcome, some continuation records one exactly when the action is still stored in the pending phase |
| `ProtocolHistory.NextReconcileReportsIff` | internal/controller/approvals.go:227-231 | the next reconcile of a stored Executing action writes outcome unknown exactly when the checks before the action path let it through |
| `ProtocolHistory.CommittedIsAccounted` | internal/controller/agentworkload_controller.go:717-735 | in every reachable state a committed action has an outcome, or is still stored, or was dropped from a version in another phase than the pending one, or was replaced by a restore |
| `ProtocolHistory.WaitsOnce` | internal/controller/agentworkload_controller.go:481-483 | in every run the versions in which one undecided action waits in the pending phase form one span: once it left that phase it never waits again |
| `ProtocolHistory.HumanRowsAgree` | internal/controller/approvals.go:330-350 | in every run two human receipt rows with one pending id are equal in outcome and payload, so a crash after the receipt can only repeat it |
| `ProtocolWitness.SomeRunExecutes` | internal/controller/approvals.go:233-403 | for every n a run from a created object, with receipts required and a dataset, calls the tool for n held actions one after the other, has all of them decided and labelled, and then calls it for an action of the direct path |
| `ProtocolWitness.SomeUnknownStillRuns` | internal/controller/approvals.go:227-231 | a run from a created object reaches outcome unknown of an action whose call is still to come and can then be made |
| `ProtocolWitness.SomeOutcomeIsLost` | internal/controller/agentworkload_controller.go:325-351 | a run from a created object calls the tool, stops, fails the next check before the action path, and ends with no reconciler at work and no outcome that could still be recorded |
| `ProtocolWitness.EvictedRunsAgain` | internal/controller/approvals.go:464-468 | a run of 33 finished actions from a created object pushes the first one out of the window, and when it is put back it can be approved and executed again |
| `Controller.Copy.ReconcileApproval` | internal/controller/approvals.go:214-403 | whatever the world answers, the requests are exactly those of the protocol automaton, in its order, up to its end |
| `Controller.Copy.ActOn` | internal/controller/approvals.go:314-365 | persists Recording, appends the human receipt, offers the example once that is stored, and goes back to the empty state when a required receipt is not stored, as the automaton does |
| `Controller.Copy.StoreExample` | internal/controller/approvals.go:405-432 | offers one example when the dataset is configured; a failure changes one condition and never the decision |
| `Controller.Copy.Conclude` | internal/controller/approvals.go:369-389 | rejects, records the deny, or commits Executing, as the automaton does |
| `Controller.Copy.Run` | internal/controller/approvals.go:390-402 | calls once and finishes as executed or failed, as the automaton does |
| `Controller.Copy.FinishApproval` | internal/controller/approvals.go:451-497 | stores outcome, trimmed window, cleared action, phase and condition as one guarded write |
| `Controller.Copy.HoldApproval` | internal/controller/approvals.go:435-449 | writes the condition, or nothing when the object already says so and no decision is in progress |
| `Controller.Copy.ApprovalConsumed` | internal/controller/approvals.go:195-205 | found exactly when the id is the last decided one or in the window |
| `Controller.Copy.ReconcileDirect` | internal/controller/agentworkload_controller.go:485-645 | proposal, layers, model and receipt follow the automaton whatever is answered |
| `Controller.Copy.Settle` | internal/controller/agentworkload_controller.go:647-739 | reserves before executing, holds under a new pending action, or denies, as the automaton does |
| `Controller.Copy.ExecuteDirectly` | internal/controller/agentworkload_controller.go:661-739 | calls once after the reservation and records the result in one guarded write |
| `Controller.Copy.ReserveExecution` | internal/controller/reservation.go:24-34 | goes on to the call only if the guarded reservation write was accepted |
| `Controller.Copy.Reconcile` | internal/controller/agentworkload_controller.go:476-492 | dispatches a rejected, held or free workload as the automaton does |
| `Controller.RecordDecision` | internal/controller/receipts.go:59-100 | one append when receipts are enabled; the result stands, or is decided again with INV-05 when a required row was not stored |
| `Controller.EvaluateLayers` | internal/controller/approvals.go:65-119 | invariants in order, then pack findings only when packs are set, next to the threshold result |
| `Controller.Observe` | pkg/decision/observe/observe.go:42-54 | the observed input of a payload is the scan's classes and completeness under the endpoint's host |
| `Controller.OneCallPerReconcile` | internal/controller/approvals.go:386-402 | in one reconcile a call of the tool server comes right after an accepted guarded write, its payload is the approved one or that of the proposal decided, and at most one write and no second call follow it |
| `Approval.Admit` | pkg/approval/approval.go:274-324 | an update is refused with the first rule it breaks and no change, or admitted with the new stamps and nothing else changed |
| `ApprovalProofs.StampInvariant` | pkg/approval/approval.go:274-324 | in every annotation state reachable through Admit under one key there is no decision and no stamp, or all three stamps, and reading for the action it was made for gives the label, reason, edit and approver that were admitted |
| `ApprovalProofs.AdmitStamps` | pkg/approval/approval.go:307-323 | an admitted new decision is stamped for the pending action and reads back as admitted |
| `ApprovalProofs.AdmitKeepsStampOk` | pkg/approval/approval.go:274-324 | one admitted update keeps every stored decision stamped for a known pending action |
| `ApprovalProofs.ReadNeverRefuses` | pkg/approval/approval.go:242-270 | with decisions stamped that way Read gives no error, and a decision exactly when one is stamped for the pending action |
| `ApprovalProofs.AppendOnce` | pkg/approval/approval.go:297-299 | once a decision is stamped for the pending action, an update is admitted exactly when it leaves all six annotations alone |
| `ApprovalProofs.DecisionIsFinal` | pkg/approval/approval.go:279-299 | no run of requests under one pending action changes or removes its stamped decision |
| `ApprovalProofs.ReadStamped` | pkg/approval/approval.go:258-269 | a verifying stamp is read as exactly the stamped decision |
| `ApprovalProofs.OnlyProtocolKeysMatter` | pkg/approval/approval.go:272-272 | Read and the stamps depend on the six protocol annotations only |
| `ApprovalProofs.StampParses` | pkg/approval/approval.go:132-152 | a stamp made for any non-blank user parses back, with the group digest intact |
| `ApprovalProofs.DecisionTextInjective` | pkg/approval/approval.go:97-100 | the NUL-joined text of validated decisions splits back into one label, reason and edit, even when the reason holds NULs |
| `ApprovalProofs.EditRuleIsNeeded` | pkg/approval/approval.go:219-225 | without the rule that only edit decisions carry an edit, one text belongs to two different decisions |
| `ApprovalProofs.MacBinds` | pkg/approval/approval.go:102-108 | equal stamps bind the same workload, pending id, payload, decision and approver, or an explicit HMAC or SHA-256 collision |
| `ApprovalProofs.PendingIdBinds` | internal/controller/approvals.go:178-190 | equal pending ids come from one workload and one receipt (or one input, time and proposal), or two inputs whose digests share 16 bytes |
| `ApprovalMeaning.VerifiesIff` | pkg/approval/approval.go:102-125 | the stamp check accepts exactly the keyed digest of the six NUL-joined parts, decoded from hexadecimal, and nothing without a key |
| `ApprovalMeaning.FieldsIff` | pkg/approval/approval.go:202-234 | the client fields are in order exactly for an approval or rejection without an edit, or an edit with a readable action, all within their limits |
| `ApprovalMeaning.ReadIff` | pkg/approval/approval.go:242-270 | Read returns exactly the decision the annotations carry for this action under a verifying stamp, and none exactly when there is none or it is stamped for another action |
| `ApprovalMeaning.ReadRefusesIff` | pkg/approval/approval.go:246-260 | the exact conditions of a missing stamp, a missing key and a stamp that does not verify |
| `ApprovalMeaning.AdmitIff` | pkg/approval/approval.go:274-324 | what an admitted request stores, for all requests: itself when it changes no protocol annotation or clears a decision with its stamps, itself with the three stamps of the webhook when it decides the pending action; refused as forged exactly when it changes something and brings a stamp, and as final exactly when it would touch a decision of the pending action |
| `ApprovalMeaning.UpdateIff` | api/v1alpha1/agentworkload_webhook.go:76-169 | an update of the stored object passes exactly when its defaulted spec is valid, keeps type and endpoint, keeps the five frozen fields while an action waits or is acted on, and its annotations are admitted, for the pending action only in the pending phase |
| `Webhook.Incoming.Default` | api/v1alpha1/agentworkload_admission.go:38-60 | defaults the policy mode and admits the annotations against the stored ones, with the pending action only in the pending phase |
| `Webhook.ValidateApprovalFreeze` | api/v1alpha1/agentworkload_webhook.go:138-169 | names exactly the frozen fields that change, and none when the freeze does not apply |
| `Webhook.Validate` | api/v1alpha1/agentworkload_webhook.go:76-136 | accepts exactly the updates that pass every check, in order |
| `Webhook.HeldSpecIsFrozen` | api/v1alpha1/agentworkload_webhook.go:111-169 | an admitted update of a held object keeps all frozen fields and the endpoint |
| `Webhook.NoOpUpdatePassesIff` | api/v1alpha1/agentworkload_webhook.go:61-63 | of the two handlers alone: an update of a held object that changes nothing is admitted exactly when the stored object has a policy mode |
| `Workload.LatestOfLatest` | internal/controller/approvals.go:464-468 | trimming to 32 at every append is the same as trimming once at the end |
| `Governance.UnblockedCarriesNoCredential` | pkg/invariants/invariants.go:148-155 | an action no invariant denies was scanned in full and no leaf of it shows a credential |
| `Governance.OnlyCleanActionsPass` | internal/controller/approvals.go:133-138 | neither what the layers and the model let through nor what a human may execute carries a credential |
| `Governance.HumanPassesIff` | internal/controller/approvals.go:65-138 | a human's decision is let through exactly when all six invariants hold of what a scan of the action observes, and the packs, asked about it, give no error and deny nothing |
| `Governance.JudgedIff` | internal/controller/agentworkload_controller.go:590-645 | the direct path allows exactly what no invariant, pack, threshold or model stands against, denies exactly what something hard or the threshold stands against, and holds the rest |
| `Governance.DeniedCounts` | pkg/decision/observe/observe.go:56-66 | the history counts exactly the proposed actions that were not approved |
| `Decision.DecideIsStrictest` | pkg/decision/decision.go:68-94 | the outcome is the strictest of what the layers ask for separately, the named layer asked for it, and a denial names the first layer that denies |
| `Decision.DecideIsMonotone` | pkg/decision/decision.go:68-94 | more findings in any layer never give a looser outcome |
| `Decision.DecideKeepsReasons` | pkg/decision/decision.go:71-79 | the reasons are exactly the findings of all layers |
| `Decision.HumanBlockedIff` | internal/controller/approvals.go:133-138 | a human is blocked exactly when the action would be denied even with the threshold allowing it and no pack asking for approval |
| `Decision.EffectiveThreshold` | pkg/decision/model.go:129-138 | the effective threshold lies between 0 and the artifact's |
| `Decision.OverrideOnlyTightens` | pkg/decision/model.go:129-138 | the effective threshold is the stricter of the artifact's and a valid override, and nothing else |
| `Decision.ClaimSafeRisk` | pkg/decision/model.go:85-110 | the kept risk is the higher of the risks with and without claims, reasons come with it, and the options stay those of the kept risk |
| `Decision.ModelOnlyEscalates` | internal/controller/decision_model.go:31-94 | the model changes a result exactly when it is an allow in escalate mode and scoring failed or the kept risk reaches the threshold, and then to require_approval with all reasons kept |
| `Decision.ClaimsOnlyTighten` | internal/controller/decision_model.go:65-80 | when the artifact threshold does not depend on the claims, the outcome with any claims is at least as strict as without them, in every mode and under every override |
| `Decision.ClaimsLoosenIff` | pkg/decision/model.go:100-109 | for every configuration, mode and base: claims loosen the outcome exactly in escalate mode on an allow, when both scores succeed and the one with claims carries a threshold its kept risk misses while the score without claims reaches its own |
| `Decision.VaryingThresholdCanLoosen` | pkg/decision/model.go:100-109 | a scorer whose threshold depends on its features can be loosened by a claim |
| `Decision.ReceiptOnlyTightens` | internal/controller/receipts.go:86-99 | the receipt step never loosens; when receipts are required only an action with a stored row is left undenied, and otherwise nothing changes |
| `Invariants.Check` | pkg/invariants/invariants.go:83-93 | returns the violated invariants in order, each exactly when what it says is so, and none exactly when all six promises hold |
| `Invariants.FindingsIff` | pkg/invariants/invariants.go:95-155 | each of the six findings is reported exactly when what it says of the action is so, stated without the code's helpers |
| `Invariants.EmptyIffSatisfied` | pkg/invariants/invariants.go:95-155 | no violation exactly when there is no credential, the scan is complete, the writer is there if needed, and the host and every class lie inside what was declared, if anything was, stated without the code's helpers |
| `Invariants.HostAllowedIff` | pkg/decision/input/input.go:152-169 | a host is allowed exactly when some folded pattern is that host, or is *. before a domain that the host lies properly under, dot included |
| `Invariants.PersonalDestIsRedundant` | pkg/invariants/invariants.go:113-131 | INV-03 never denies unless INV-02 denies too |
| `Invariants.LosingTheWriterOnlyAdds` | pkg/invariants/invariants.go:139-146 | losing the receipt writer adds INV-05 to the violations and changes nothing else |
| `DataClass.Scan` | pkg/dataclass/dataclass.go:92-100 | complete exactly when the value fits the depth, node, byte, string and type limits, and then the classes are those of full detection over every leaf; they are returned in ascending order, each once |
| `DataClass.ScanIsExact` | pkg/dataclass/dataclass.go:95-157 | the same for the recursive walk, with the limits in closed form over its visits |
| `DataClass.LoopExact` | pkg/dataclass/dataclass.go:108-157 | the budget left is exactly what the visits cost, or the scan is cut short exactly when they do not fit |
| `DataClass.BudgetNeverNegative` | pkg/dataclass/dataclass.go:108-125 | byte and node budgets never go below zero or grow, and classes once found stay |
| `DataClass.LeafClassesFound` | pkg/dataclass/dataclass.go:84-90 | the classes of a value include those of each of its leaves |
| `DataClass.ClassesAreOfLeaves` | pkg/dataclass/dataclass.go:108-157 | the classes of a value are exactly those found in the texts at its leaves |
| `DataClass.LeavesOf` | pkg/dataclass/dataclass.go:108-157 | the texts of a value are its own or those of its items, at any depth |
| `DataClass.Budget.WalkValue` | pkg/dataclass/dataclass.go:108-157 | the in-place walk leaves exactly the specified budget, flag and classes |
| `Iban.IbanValid` | pkg/dataclass/dataclass.go:248-267 | the stepwise remainder accepts exactly the strings of 15 to 34 characters whose whole letter-expanded integer, first four characters last, is 1 modulo 97 |
| `Iban.SubstitutionRejected` | pkg/dataclass/dataclass.go:248-267 | any change of one digit to a digit or one letter to a letter of an accepted IBAN is rejected |
| `Iban.AdjacentSwap` | pkg/dataclass/dataclass.go:252-266 | a swap of neighbours in the rearranged text goes unnoticed exactly for equal neighbours and the pairs 1 and B, 2 and M, 3 and X |
| `CheckDigits.LuhnValid` | pkg/dataclass/dataclass.go:269-287 | the right-to-left loop accepts exactly the numbers whose weighted sum is 0 modulo 10 |
| `CheckDigits.LuhnAcceptsIff` | pkg/dataclass/dataclass.go:269-287 | that is the standard's test: 13 to 19 digits whose digit sum, every second digit from the right doubled and its digits added, is 0 modulo 10 |
| `CheckDigits.LuhnSubstitution` | pkg/dataclass/dataclass.go:269-287 | every single-digit change of an accepted number is rejected |
| `CheckDigits.LuhnSwap` | pkg/dataclass/dataclass.go:269-287 | a swap of neighbouring digits goes unnoticed exactly when they are equal or are 0 and 9 |
| `CheckDigits.TableIsGroup` | pkg/dataclass/dataclass.go:289-300 | the product table is composition in the dihedral group of order ten |
| `CheckDigits.TableIsPower` | pkg/dataclass/dataclass.go:302-311 | each row of the permutation table is one more application of the permutation, and the eighth power is the identity |
| `CheckDigits.VerhoeffValid` | pkg/dataclass/dataclass.go:313-322 | the table loop accepts exactly twelve digits whose product, each digit turned once more than the one to its right, is the identity of the dihedral group |
| `CheckDigits.VerhoeffSubstitution` | pkg/dataclass/dataclass.go:313-322 | every single-digit change of an accepted number is rejected |
| `CheckDigits.VerhoeffSwap` | pkg/dataclass/dataclass.go:313-322 | every swap of two different neighbouring digits of an accepted number is rejected |
| `AuditChain.ComputeEntryHash` | pkg/audit/chain.go:185-208 | the writes through reused buffers hash exactly the canonical bytes, field after field |
| `AuditChain.PutLittleEndian` | pkg/audit/chain.go:189-195 | the buffer holds the number's bytes, least significant first |
| `AuditChain.DecodeEncode` | pkg/audit/chain.go:187-215 | a decoder inverts the canonical bytes of fields shorter than 2^32 bytes |
| `AuditChain.EncodeInjective` | pkg/audit/chain.go:187-215 | equal canonical bytes come from equal fields |
| `AuditChain.LongFieldsCollide` | pkg/audit/chain.go:210-215 | the bound is needed: a field of exactly 2^32 bytes can move to the next field without changing the bytes |
| `AuditChain.Hash` | pkg/audit/chain.go:139-152 | seals the row in place: payload digest, hash of the canonical bytes, key id and signature, and no other field |
| `AuditChain.Verify` | pkg/audit/chain.go:154-183 | returns exactly the first check that fails, in the order link, payload, hash, signer, signature, and none exactly for rows that verify |
| `AuditChain.RowVerifiesIff` | pkg/audit/chain.go:154-183 | a row verifies exactly when none of the five checks fails |
| `AuditChain.SealedVerifies` | pkg/audit/chain.go:139-183 | a sealed row verifies under the key that sealed it, whatever it held before |
| `AuditChain.EditedRowFails` | pkg/audit/chain.go:154-183 | two rows that verify with one hash agree on all hashed fields and the payload, or an explicit SHA-256 collision |
| `AuditChain.NewChainHasher` | pkg/audit/chain.go:122-134 | accepts exactly a named key of at least 32 bytes |
| `AuditLedger.NewVerifier` | pkg/audit/verifier.go:21-39 | accepts exactly a non-empty list without a repeated key id, and indexes exactly those keys |
| `AuditLedger.Walk` | pkg/audit/verifier.go:54-92 | the OK count is the longest valid prefix, the head is the last good row, and the error at the first bad row is that of the first check that fails there: cancelled, sequence, unknown signer, and then the row's own checks in order |
| `AuditLedger.VerifyCheckpoints` | pkg/audit/verifier.go:104-139 | adds exactly the number of checkpoints that match the last row of their number, and keeps the first error |
| `AuditLedger.TamperEvident` | pkg/audit/verifier.go:57-92 | two accepted ledgers with one hash at row n agree on the first n rows, or the walk down the chain exhibits a SHA-256 collision |
| `AuditLedger.CheckpointPinsHistory` | pkg/audit/verifier.go:104-139 | a checkpoint taken at row n of one ledger is OK for another accepted one exactly when that still holds the first n rows unchanged, unless a collision is exhibited |
| `AuditLedger.Recorder.Append` | pkg/audit/recorder.go:63-86 | appends exactly when it is up to date: the caller's fields under the next number and the given time, linked and sealed; otherwise changes neither backend nor memory |
| `AuditLedger.MemoryBackend.Append` | pkg/audit/recorder.go:106-116 | stores the row exactly when its number is the next one |
| `AuditLedger.SharedLedgerStaysValid` | pkg/audit/recorder.go:49-116 | with any number of recorders, stale ones and restarts under other keys, the stored ledger is accepted in full by a verifier with all keys |
| `AuditLedger.RecordAppendsIff` | pkg/audit/recorder.go:63-86 | of any number of recorders one appends its next row exactly when it is up to date, and any other changes nothing |
| `AuditLedger.SomeLedgerGrows` | pkg/audit/recorder.go:49-86 | a valid ledger of any length is reached with a recorder that restarts before every row |
| `DatasetStore.Open` | pkg/dataset/store.go:37-68 | opens exactly when the file can be read or made, every kept line parses and the cut and the reopening for append succeed; then the torn tail is cut and the kept lines are indexed |
| `DatasetStore.Store.Append` | pkg/dataset/store.go:71-100 | file, index and broken flag after every outcome of validation, write and sync |
| `DatasetStore.AppendCases` | pkg/dataset/store.go:71-100 | the store writes exactly when it is not broken and the example is bound, marshals and is new; a failed write breaks it |
| `DatasetStore.StoreSurvivesCrashes` | pkg/dataset/store.go:37-100 | after any run of appends, torn writes, crashes, power losses and reopens the file is whole lines of distinct bound examples and one torn tail, holds everything acknowledged, and agrees with the index of a store that is not broken |
| `DatasetStore.ReopenRepairs` | pkg/dataset/store.go:46-68 | whatever happened, opening again succeeds, leaves whole lines only, indexes exactly them and has lost nothing acknowledged |
| `DatasetStore.ReopenServesIff` | pkg/dataset/store.go:37-68 | after any run, opening serves a store exactly when the file can be read, opened for appending, and a torn tail, if there is one, can be cut |
| `DatasetStore.AcknowledgedIsNotStoredAgain` | pkg/dataset/store.go:89-91 | a second example for an acknowledged receipt or pending id is answered with Duplicate and writes nothing |
| `DatasetStore.SplitRender` | pkg/dataset/store.go:48-57 | splitting a file of whole lines gives back its lines, and no byte of it is cut |
| `DatasetStore.SplitJoins` | pkg/dataset/store.go:48-57 | the pieces of any file hold no newline and joined with newlines are the file |
| `DatasetVerify.Verify` | pkg/dataset/verify.go:59-119 | reports exactly the specified failures over the lines the scanner reads, bound examples and failures together are the non-blank ones, and it ends without failure or scan error exactly when the file passes |
| `DatasetVerify.NoFailuresIffClean` | pkg/dataset/verify.go:83-117 | no failure exactly when every non-blank line parses, binds to a receipt of the chain and its record, and names a receipt of its own |
| `DatasetVerify.PassesIff` | pkg/dataset/verify.go:59-119 | a file passes exactly when each of its lines is shorter than 2^24 bytes and all that are not blank bind, with distinct numbers |
| `DatasetVerify.TokensIff` | pkg/dataset/verify.go:85-87 | the lines the scanner reads hold no newline and joined with newlines are the file, but for one newline at its end |
| `DatasetVerify.NonBlankCounts` | pkg/dataset/verify.go:88-91 | what the report counts is the number of lines that are not blank |
| `DatasetVerify.FailuresExplain` | pkg/dataset/verify.go:83-117 | every reported failure names a line and what is wrong with it |
| `DatasetVerify.LastReceiptWins` | pkg/dataset/verify.go:68-81 | of receipts with one number the last one counts |
| `DatasetVerify.LastRecordWins` | pkg/dataset/verify.go:68-81 | and of records with one number the last one that parses |
| `DatasetVerify.FileIsCleanIff` | pkg/dataset/verify.go:83-117 | on a file of whole lines the report is clean exactly when every example is bound and no receipt number repeats, and then counts every line |
| `DatasetVerify.StoredFilePassesIff` | pkg/dataset/verify.go:59-119 | the file a store serves after any run and a reopen passes the offline check, scan error included, exactly when each line is shorter than the scanner's 2^24 bytes; then every example counts, and nothing else can be wrong with it |
| `DatasetVerify.VerifierMatchesWriter` | pkg/dataset/verify.go:98-116 | on a file the store wrote, the verifier passes one more line exactly when the store would write it and all lines fit the scanner's buffer, except that the store also refuses a pending id it holds |
| `DatasetVerify.OverlongLineFails` | pkg/dataset/verify.go:86-118 | a line of 2^24 bytes or more, which the store would write, makes the file fail |
| `DatasetWitness.SomeStoreFills` | pkg/dataset/store.go:37-100 | libraries that keep all laws assumed of them exist, with a chain that exports every lookup, and with them a store acknowledges any number of examples with different receipts |
| `Dataset.ReceiptDeterminesLabel` | pkg/dataset/dataset.go:303-349 | two examples that validate against one receipt, with any two records, agree on id, label, hashes, numbers and workload, or the two records differ and both hash to that receipt |
| `Dataset.ValidateIff` | pkg/dataset/dataset.go:303-349 | an example validates exactly when the record hashes to the receipt, is a human decision whose outcome reports the example's label, and agrees with it on id, digests, original receipt and workload, with an edit difference exactly for an edit; each error fits |
| `Dataset.BuiltExampleValidates` | pkg/dataset/dataset.go:250-295 | an example built for a human decision validates against its receipt and record and carries the given content, features, time, mode and edit difference; it is built exactly when its content renders and an edit comes with an action whose difference renders |
| `Redact.RedactValue` | pkg/dataset/dataset.go:198-231 | the rebuilt value is the specified redaction |
| `Redact.KeptIff` | pkg/dataset/dataset.go:188-231 | redaction keeps a value exactly when all of it is within the depth limit and of known types, and no detector fires in the scanned prefix of any of its texts, unless it is the marker already |
| `Redact.RedactionIsSafeIff` | pkg/dataset/dataset.go:188-231 | every leaf left by redaction is harmless exactly when the value holds, within the depth limit, no detectable int or int64 and no string that is detectable only past the scanned prefix |
| `Redact.LongTextIsLetThrough` | pkg/dataset/dataset.go:188-205 | a text of one byte more than is scanned is kept as it is, with what a detector finds in it |
| `Redact.JsonRedactionIsSafe` | pkg/dataset/dataset.go:188-231 | values decoded from JSON with strings of at most 64 KiB are always redacted safely |

## Left out

- The checks before the action path (templates, finalizer, policy pack validity, licence, quota, model routing, runtimes) are one environment choice that passes, sets a phase other than PendingApproval, or writes unrelated status first.
- Conditions other than ApprovalDecision, timestamps and counters are one opaque text; apart from the note of an example that was not stored, finish and hold writes do not change it.
- Runs restore only a pending action whose id is still the last decided one or in the window, in any phase and state; ProtocolLimits.RestoredRunsIff says when putting back any action that was ever stored, in the pending phase and not executing, leads to a call; runs that go on after such a restore are otherwise not covered by the theorems. An arbitrary rewrite of status by another principal is outside the code's trust boundary and not modelled.
- Protocol.ContentOf: the receipt entry hash and proposal time stored in a pending action are not modelled; no decision reads them.
- Protocol.AppendStep: the receipt log is a plain list; writing, hashing and signing receipts in pkg/receipts and the receipt specification are not part of this model.
- Protocol.ExampleStep: the protocol logs which decision and receipt an example labels; its features, content and difference are built in module Dataset, and its file is module DatasetStore. Building it and sending it are one request that may fail.
- ProtocolSchedules.HeldActionCanRun: one schedule in which nothing fails; that every fair schedule gets there is not stated.
- Governance.Evaluate: the policy engine and the threshold evaluator are arbitrary functions, so what a rule or a threshold says is not modelled.
- Decision.ScoreClaimSafe: feature extraction and the learned model are arbitrary functions; the score's identity fields are dropped.
- DataClass.Detected: the regular expressions, isolation of matches and the group cutting around them are an arbitrary detector; the checksums they call are proved separately.
- DataClass.Walk: map fields are given in key order.
- DatasetStore.Store.Append: the lock that makes the store single-writer is not modelled.
- DatasetVerify.Verify: verification of the receipt chain itself happens before this method and is not part of it.
- Dataset.NewExample: features, content and field differences are opaque values that no check reads.
- Redact.Redacted: a float64 and its printed form are one text.
- AuditLedger.Recorder.Append: failure of a durable backend after storing the row is not modelled; the backend is the in-memory one.
- AuditLedger.VerifyCheckpoints: a checkpoint is its number and its hash. pkg/audit/verifier.go:104-107 speaks of a signature, which the code does not check (lines 133-137), so it has none here.
- Kubernetes caches, finalizers, events, leader election, tracing spans, metrics and logging: no effect on these properties.
- HTTP servers, clients, command line tools, the web UI, the tool and model clients, and the Python agents: plumbing.
- Key files (LoadKey), autoscaling, tenancy, cost reporting and dashboards: easy members or thin wrappers.
- Orchestrated runtimes: packs and approvals act on the direct path only; a runtime's status writes appear as phase-only writes.
