/** What holds over every run of the protocol: any interleaving of reconcilers,
    stale reads, lost replies, crashes between any two steps, admitted client
    updates, phase-only writes and restores.

    The ids minted for new pending actions are assumed fresh (see
    ApprovalProofs.PendingIdBinds), and every client write passes the webhook.
  */
module ProtocolTheorems {
  import opened Text
  import opened Workload
  import opened Governance
  import opened Protocol
  import opened ProtocolInvariant
  import Approval
  import ApprovalMeaning
  import ApprovalProofs
  import DataClass
  import Decision
  import Webhook

  // ------------------------------------------------------------ at most once

  lemma {:induction false} CalledOnce(s: Sys, i: nat, k: nat)
    requires BooksOk(s) && i < k < |s.held|
    ensures s.held[i].h.content.id != s.held[k].h.content.id
  {
    assert CalledIds(s.held)[i] != CalledIds(s.held)[k];
  }

  /** execute_action is called at most once for one pending id. */
  lemma {:induction false} AtMostOnce(env: Env, o: Object, labels: seq<Label>, i: nat, k: nat)
    requires Governance.Lawful(env) && Fresh(env, o)
    requires i < k < |Run(env, o, labels).held|
    ensures Run(env, o, labels).held[i].h.content.id != Run(env, o, labels).held[k].h.content.id
  {
    hide Run, VersionsOk, BooksOk, CurrentOk, ProcsOk, CallsOk, Fresh, Governance.Lawful;
    RunInvariant(env, o, labels);
    CalledOnce(Run(env, o, labels), i, k);
  }

  // ------------------------------------------------------ nothing is undone

  /** The books and logs of s are still there in t, and no action that was
      finished in s was committed since. */
  predicate Later(s: Sys, t: Sys) {
    && s.hist <= t.hist && s.receipts <= t.receipts && s.held <= t.held && s.direct <= t.direct &&
       s.finished <= t.finished
    && s.examples <= t.examples
    && (forall id | id in s.commits :: id in t.commits && t.commits[id] == s.commits[id])
    && (forall id | id in t.commits && id !in s.commits :: id !in s.finished)
  }

  /** An Executing commit is made only for an action that was neither committed
      nor finished before. */
  lemma {:induction false} CommitIsFirst(env: Env, uid: string, s: Sys, pid: nat, pc: Pc, bumped: bool)
    requires Inv(env, uid, s) && PcOk(env, s, pid, pc) && CanWrite(s, pc, bumped) && pc.kind.Execute?
    ensures pc.o == Current(s) && pc.o.pending.Some?
    ensures pc.o.pending.value.content.id !in s.commits && pc.o.pending.value.content.id !in s.finished
  {
    hide VersionsOk, BooksOk, ProcsOk, CallsOk, Consumed, Handles, WindowOk, Witnessed, Passes, HumanRow;
  }

  lemma {:induction false} BookedLater(s: Sys, hist: seq<Object>, pid: nat, o: Object, k: Kind, w: nat)
    requires s.hist <= hist
    requires k.Execute? && o.pending.Some? ==>
             o.pending.value.content.id !in s.commits && o.pending.value.content.id !in s.finished
    ensures Later(s, Booked(s.(hist := hist), pid, o, k, w))
  {
  }

  lemma {:induction false} LaterMove(s: Sys, t: Sys, pid: nat, pc: Pc)
    requires Later(s, t)
    ensures Later(s, Move(t, pid, pc))
  {
  }

  lemma {:induction false} WriteStepLater(env: Env, uid: string, s: Sys, pid: nat, pc: Pc, reply: Reply)
    requires Inv(env, uid, s) && PcOk(env, s, pid, pc) && pc.Writing? && reply.WriteReply?
    ensures Later(s, WriteStep(env, s, pid, pc, reply))
  {
    hide Resume, Out, PcOk, Inv, Booked, Move;
    if reply.applied && CanWrite(s, pc, reply.bumped) {
      if pc.kind.Execute? {
        CommitIsFirst(env, uid, s, pid, pc, reply.bumped);
      }
      hide CanWrite, Current;
      var hist := Store(s.hist, Out(pc.o, pc.kind), reply.bumped);
      BookedLater(s, hist, pid, pc.o, pc.kind, |hist| - 1);
      hide Later;
      LaterMove(s, Booked(s.(hist := hist), pid, pc.o, pc.kind, |hist| - 1), pid,
                Resume(env, pc, if reply.seen then Written(|hist| - 1) else Refused));
    } else {
      LaterMove(s, s, pid, Resume(env, pc, Refused));
    }
  }

  /** Longer logs, and nothing else. */
  lemma {:induction false} LongerLogsLater(s: Sys, t: Sys)
    requires t == s.(hist := t.hist, receipts := t.receipts, held := t.held, direct := t.direct, minted := t.minted,
                     procs := t.procs, examples := t.examples)
    requires s.hist <= t.hist && s.receipts <= t.receipts && s.held <= t.held && s.direct <= t.direct
    requires s.examples <= t.examples
    ensures Later(s, t)
  {
  }

  lemma {:induction false} AppendStepLater(env: Env, s: Sys, pid: nat, pc: Pc, reply: Reply)
    requires reply.AppendReply? && (pc.HumanReceipt? || pc.DenyReceipt? || pc.DecisionReceipt?)
    ensures Later(s, AppendStep(env, s, pid, pc, reply))
  {
    hide Resume, EntryOf, Later;
    LongerLogsLater(s, AppendStep(env, s, pid, pc, reply));
  }

  lemma {:induction false} ExampleStepLater(env: Env, s: Sys, pid: nat, pc: Pc, reply: Reply)
    requires reply.ExampleReply? && pc.StoringExample?
    ensures Later(s, ExampleStep(env, s, pid, pc, reply))
  {
    hide Resume, Later;
    LongerLogsLater(s, ExampleStep(env, s, pid, pc, reply));
  }

  lemma {:induction false} CallLater(env: Env, s: Sys, pid: nat, pc: Pc, ok: bool)
    requires pc.Calling? || pc.DirectCalling?
    ensures Later(s, CallStep(env, s, pid, pc, ok))
  {
    hide Resume, Later;
    LongerLogsLater(s, CallStep(env, s, pid, pc, ok));
  }

  lemma {:induction false} AskLater(env: Env, s: Sys, pid: nat, pc: Pc, answer: Answer)
    ensures Later(s, ProcStep(env, s, pid, pc, AskReply(answer)))
  {
    hide Resume, Later;
    LongerLogsLater(s, ProcStep(env, s, pid, pc, AskReply(answer)));
  }

  lemma {:induction false} ProcStepLater(env: Env, uid: string, s: Sys, pid: nat, reply: Reply)
    requires Inv(env, uid, s) && pid in s.procs
    ensures Later(s, ProcStep(env, s, pid, s.procs[pid], reply))
  {
    var pc := s.procs[pid];
    assert PcOk(env, s, pid, pc);
    hide PcOk, Inv, Resume, Later, WriteStep, AppendStep, ExampleStep, CallStep, Move;
    LongerLogsLater(s, s);
    match reply
    case WriteReply(_, _, _) =>
      if pc.Writing? {
        WriteStepLater(env, uid, s, pid, pc, reply);
      }
    case AppendReply(_, _) =>
      if pc.HumanReceipt? || pc.DenyReceipt? || pc.DecisionReceipt? {
        AppendStepLater(env, s, pid, pc, reply);
      }
    case GateReply(gate) =>
      LaterMove(s, s, pid, Resume(env, pc, Opened(gate)));
    case ExampleReply(_, _) =>
      if pc.StoringExample? {
        ExampleStepLater(env, s, pid, pc, reply);
      }
    case CallReply(ok) =>
      if pc.Calling? || pc.DirectCalling? {
        CallLater(env, s, pid, pc, ok);
      }
    case AskReply(answer) =>
      AskLater(env, s, pid, pc, answer);
  }

  lemma {:induction false} StepLater(env: Env, uid: string, s: Sys, a: Label)
    requires Inv(env, uid, s)
    ensures Later(s, Apply(env, s, a))
  {
    hide Inv, ProcStep, Webhook.Admitted, Consumed, Later;
    if a.Step? && s.hist != [] && a.pid in s.procs {
      ProcStepLater(env, uid, s, a.pid, a.reply);
    } else {
      LongerLogsLater(s, Apply(env, s, a));
    }
  }

  lemma {:induction false} LaterTransitive(s: Sys, t: Sys, u: Sys)
    requires Later(s, t) && Later(t, u)
    ensures Later(s, u)
  {
    forall id | id in u.commits && id !in s.commits
      ensures id !in s.finished
    {
      if id !in t.commits {
        assert id !in t.finished;
        assert forall x | x in s.finished :: x in t.finished;
      }
    }
  }

  lemma {:induction false} RunMore(env: Env, o: Object, labels: seq<Label>, more: seq<Label>, a: Label)
    ensures Run(env, o, labels + (more + [a])) == Apply(env, Run(env, o, labels + more), a)
  {
    hide Apply;
    var all := labels + (more + [a]);
    assert all[..|all| - 1] == labels + more && all[|all| - 1] == a;
  }

  /** However a run goes on, its history, logs and commits stay, and an action
      that was finished is never committed again. */
  lemma {:induction false} NothingIsUndone(env: Env, o: Object, labels: seq<Label>, more: seq<Label>)
    requires Governance.Lawful(env) && Fresh(env, o)
    ensures Later(Run(env, o, labels), Run(env, o, labels + more))
  {
    hide Run, Apply, Inv, Fresh, Governance.Lawful;
    if more == [] {
      assert labels + more == labels;
    } else {
      var init, a := more[..|more| - 1], more[|more| - 1];
      NothingIsUndone(env, o, labels, init);
      RunInvariant(env, o, labels + init);
      StepLater(env, o.uid, Run(env, o, labels + init), a);
      assert more == init + [a];
      RunMore(env, o, labels, init, a);
      hide Later;
      LaterTransitive(Run(env, o, labels), Run(env, o, labels + init), Run(env, o, labels + more));
    }
  }

  // ------------------------------------------------- Executing never reverts

  /** The undecided action of an object. */
  predicate Undecided(o: Object, id: string) {
    o.pending.Some? && o.pending.value.content.id == id && !Consumed(o.last, o.consumed, id)
  }

  lemma {:induction false} ExecutingIffCommitted(s: Sys, id: string)
    requires s.hist != [] && CurrentOk(s) && Undecided(Current(s), id)
    ensures Current(s).pending.value.state == Executing <==> id in s.commits
  {
    hide Consumed, WindowOk;
  }

  /** A stored Executing action never goes back to the empty state or to Recording
      under its id: whenever it is still stored and not decided, it is Executing. */
  lemma {:induction false} ExecutingNeverReverts(env: Env, o: Object, labels: seq<Label>, more: seq<Label>, id: string)
    requires Governance.Lawful(env) && Fresh(env, o)
    requires var s := Run(env, o, labels);
             s.hist != [] && Undecided(Current(s), id) && Current(s).pending.value.state == Executing
    ensures var t := Run(env, o, labels + more);
            t.hist != [] && (Undecided(Current(t), id) ==> Current(t).pending.value.state == Executing)
  {
    var s, t := Run(env, o, labels), Run(env, o, labels + more);
    RunInvariant(env, o, labels);
    RunInvariant(env, o, labels + more);
    NothingIsUndone(env, o, labels, more);
    hide Run, Fresh, Governance.Lawful, BooksOk, ProcsOk, CallsOk, CurrentOk, Undecided, VersionOk;
    ExecutingIffCommitted(s, id);
    if Undecided(Current(t), id) {
      ExecutingIffCommitted(t, id);
    }
  }

  // ------------------------------------------------------ snapshot execution

  /** The annotations carry decision d for this action, under a stamp that verifies
      for this workload, id and proposal. */
  ghost predicate VerifiedDecision(env: Env, uid: string, ann: Approval.Annotations, c: Content, d: Approval.Decision) {
    ApprovalMeaning.Carries(env.codec, env.hashes, env.key, uid, c.id, c.proposal, ann, d)
  }

  lemma {:induction false} ReadMeansVerified(env: Env, uid: string, ann: Approval.Annotations, c: Content,
                                             d: Approval.Decision)
    requires Approval.Read(env.codec, env.hashes, ann, RefOf(env.hashes, uid, c), env.key) == Ok(Some(d))
    ensures VerifiedDecision(env, uid, ann, c, d)
  {
    hide Approval.Read, ApprovalMeaning.Carries;
    ApprovalMeaning.ReadIff(env.codec, env.hashes, env.key, uid, c.id, c.proposal, ann, d);
  }

  /** v is the untyped object with exactly these fields. */
  predicate IsObject(v: DataClass.Value, fields: map<string, DataClass.Value>) {
    && v.Object? && !v.typed && |v.keys| == |v.items| == |fields|
    && forall k | k in fields :: exists i | 0 <= i < |v.keys| :: v.keys[i] == k && v.items[i] == fields[k]
  }

  /** The call p, described so, is what decision d asks for action c: an edit calls
      its own tool with its own parameters, and otherwise the stored proposal is
      what is called; the confidence is the stored one. */
  predicate Names(env: Env, c: Content, d: Approval.Decision, description: string, p: Payload) {
    && env.parseProposal(c.proposal).Some? && p.confidence == c.confidence
    && match d.edit
       case None => p.action == c.action && description == c.description &&
         Some(p.params) == env.parseProposal(c.proposal)
       case Some(e) =>
         && p.action == e.name && description == e.description
         && IsObject(p.params, map["action" := DataClass.Str(e.name), "description" := DataClass.Str(e.description),
                                   "params" := e.params])
  }

  lemma {:induction false} TargetIsNamed(env: Env, c: Content, d: Approval.Decision)
    requires env.parseProposal(c.proposal).Some?
    ensures var t := TargetOf(d, c, env.parseProposal(c.proposal).value);
            Names(env, c, d, t.description, PayloadOf(t, c)) && PayloadOf(t, c).action == t.name &&
              PayloadOf(t, c).params == t.payload
  {
    if d.edit.Some? {
      var e := d.edit.value;
      var v := TargetOf(d, c, env.parseProposal(c.proposal).value).payload;
      assert v.keys[0] == "action" && v.keys[1] == "description" && v.keys[2] == "params";
      assert |"action"| == 6 && |"description"| == 11 && "action"[0] != "params"[0];
      var fields := map["action" := DataClass.Str(e.name), "description" := DataClass.Str(e.description),
                        "params" := e.params];
      assert fields.Keys == {"action", "description", "params"} && |fields.Keys| == 3;
    }
  }

  /** What is decided about the call p on object o: what o has done, and the numbers
      that were stored with action c, where a text that is no number reads as 0. */
  function HeldFacts(env: Env, o: Object, c: Content, description: string, p: Payload): Facts {
    Facts(p.action, description, p.params, |o.executed| + |o.proposed|, |NotApproved(o.proposed)|,
          match env.parseReal(c.confidence) case Some(x) => x case None => 0.0,
          match env.parseReal(c.clusterHealth) case Some(x) => x case None => 0.0,
          if c.claimedHealth == "" then None else env.parseReal(c.claimedHealth))
  }

  /** What a held call ran: the object stored by its Executing commit carries a
      verified approve or edit of exactly this action, the call is the one that
      decision asks for, and of that call, under that object's spec, all six
      invariants hold and no pack denies it or fails. */
  ghost predicate RanSnapshot(env: Env, o: Object, c: HeldCall) {
    var h := c.h;
    && o.phase == PENDING_APPROVAL && o.pending.Some? && o.pending.value.content == h.content &&
       o.pending.value.state == Executing
    && VerifiedDecision(env, o.uid, o.ann, h.content, h.decision) && h.decision.verdict in {"approve", "edit"}
    && Names(env, h.content, h.decision, h.target.description, h.payload)
    && exists i, v ::
         NothingHard(env, o.spec, HeldFacts(env, o, h.content, h.target.description, h.payload), h.noise, i, v)
  }

  lemma {:induction false} VerdictIsKnown(env: Env, uid: string, ann: Approval.Annotations, c: Content,
                                          d: Approval.Decision)
    requires VerifiedDecision(env, uid, ann, c, d)
    ensures d.verdict in {"approve", "reject", "edit"} && (d.verdict == "edit" <==> d.edit.Some?)
  {
    hide ApprovalMeaning.StampVerifies, ApprovalMeaning.ApproverText, ApprovalMeaning.EditText;
  }

  lemma {:induction false} NothingHardInCall(env: Env, o: Object, h: Handled)
    requires PayloadOf(h.target, h.content) == h.payload
    requires !BlockedBy(env, o.spec, HistoryOf(o.executed, o.proposed), h.target, h.content, h.noise)
    ensures exists i, v ::
              NothingHard(env, o.spec, HeldFacts(env, o, h.content, h.target.description, h.payload), h.noise, i, v)
  {
    var past, claims := HistoryOf(o.executed, o.proposed), ClaimsOf(env, h.content);
    DeniedCounts(o.proposed);
    assert FactsOf(o.spec, past, h.target, claims) ==
           HeldFacts(env, o, h.content, h.target.description, h.payload);
    HumanPassesIff(env, o.spec, past, h.target, claims, h.noise);
    hide Evaluate, NothingHard, HeldFacts, FactsOf, ClaimsOf;
  }

  lemma {:induction false} HeldCallRanSnapshot(env: Env, s: Sys, c: HeldCall)
    requires HeldCallOk(env, s, c)
    ensures RanSnapshot(env, s.hist[c.base], c)
  {
    var o := s.hist[c.base];
    hide VerifiedDecision, Approval.Read, Evaluate, TargetOf, PayloadOf, Consumed, HumanRow, Witnessed, RefOf,
         NothingHard, HeldFacts, Names, BlockedBy, HistoryOf;
    HoldingMeans(env, o, c.h, Executing);
    NothingHardInCall(env, o, c.h);
  }

  lemma {:induction false} SnapshotExecution(env: Env, o: Object, labels: seq<Label>, i: nat)
    requires Governance.Lawful(env) && Fresh(env, o) && i < |Run(env, o, labels).held|
    ensures var s := Run(env, o, labels);
            s.held[i].base < |s.hist| && RanSnapshot(env, s.hist[s.held[i].base], s.held[i])
  {
    hide Run, VersionsOk, BooksOk, CurrentOk, ProcsOk, Fresh, Governance.Lawful, RanSnapshot, Holding, Passes, HumanRow,
         Witnessed;
    RunInvariant(env, o, labels);
    HeldCallRanSnapshot(env, Run(env, o, labels), Run(env, o, labels).held[i]);
  }

  // ----------------------------------------------------------------- freeze

  lemma {:induction false} HeldCallFrozen(env: Env, uid: string, s: Sys, c: HeldCall)
    requires VersionsOk(env, uid, s.born, s.hist) && HeldCallOk(env, s, c)
    ensures var id := c.h.content.id;
            id in s.born && s.born[id].content == c.h.content && FrozenOf(s.hist[c.base].spec) == s.born[id].frozen
  {
    hide Handles, FrozenOf, ApprovalProofs.StampOk, Consumed, Known, Passes, HumanRow, Witnessed;
    assert VersionOk(env, uid, s.born, s.hist[c.base]);
  }

  /** Whenever a held action executes, declared intent, policy packs, policy mode,
      decision model, approval capture and endpoint are those under which that
      pending action was stored. */
  lemma {:induction false} FreezeOverRuns(env: Env, o: Object, labels: seq<Label>, i: nat)
    requires Governance.Lawful(env) && Fresh(env, o) && i < |Run(env, o, labels).held|
    ensures var s := Run(env, o, labels);
            var c := s.held[i];
            && c.base < |s.hist| && c.h.content.id in s.born && s.born[c.h.content.id].content == c.h.content
            && FrozenOf(s.hist[c.base].spec) == s.born[c.h.content.id].frozen
  {
    hide Run, VersionsOk, BooksOk, CurrentOk, ProcsOk, Fresh, Governance.Lawful, Holding, Passes, HumanRow, Witnessed,
         FrozenOf;
    RunInvariant(env, o, labels);
    HeldCallFrozen(env, o.uid, Run(env, o, labels), Run(env, o, labels).held[i]);
  }

  // ---------------------------------------------------- write-ahead receipts

  /** With receipts enabled and required, every call on either path comes after a
      row of the receipt log that binds the same payload: approved or edited on
      the human path, allow on the direct path. */
  lemma {:induction false} WriteAheadReceipts(env: Env, o: Object, labels: seq<Label>)
    requires Governance.Lawful(env) && Fresh(env, o) && env.receiptsEnabled && env.receiptsRequired
    ensures var s := Run(env, o, labels);
            && (forall i | 0 <= i < |s.held| :: HeldRowBefore(s, s.held[i]))
            && (forall i | 0 <= i < |s.direct| :: DirectRowBefore(s, s.direct[i]))
  {
    RunInvariant(env, o, labels);
    var s := Run(env, o, labels);
    hide Run, VersionsOk, BooksOk, CurrentOk, ProcsOk, Fresh, Governance.Lawful, HeldCallOk, DirectCallOk,
         HeldRowBefore, DirectRowBefore;
    forall i | 0 <= i < |s.held|
      ensures HeldRowBefore(s, s.held[i])
    {
      HeldCallWitnessed(env, s, s.held[i]);
    }
    forall i | 0 <= i < |s.direct|
      ensures DirectRowBefore(s, s.direct[i])
    {
      DirectCallWitnessed(env, s, s.direct[i]);
    }
  }

  /** How a receipt reports a verdict. */
  predicate Reports(verdict: string, outcome: string) {
    || (verdict == "approve" && outcome == "approved") || (verdict == "edit" && outcome == "edited")
    || (verdict == "reject" && outcome == "rejected")
  }

  predicate HeldRowBefore(s: Sys, c: HeldCall) {
    c.at <= |s.receipts| && exists j | 0 <= j < c.at ::
      s.receipts[j].HumanEntry? && Reports(c.h.decision.verdict, s.receipts[j].outcome) &&
      s.receipts[j].id == c.h.content.id && s.receipts[j].payload == c.h.payload
  }

  predicate DirectRowBefore(s: Sys, c: DirectCall) {
    c.at <= |s.receipts| && exists j | 0 <= j < c.at ::
      s.receipts[j] == DecisionEntry(Decision.Allow, Payload(c.d.proposal.action, c.d.proposal.params,
                                                            c.d.proposal.confidenceText))
  }

  lemma {:induction false} HeldCallWitnessed(env: Env, s: Sys, c: HeldCall)
    requires HeldCallOk(env, s, c) && env.receiptsEnabled && env.receiptsRequired
    ensures HeldRowBefore(s, c)
  {
    hide Holding, VerifiedDecision, Names, HumanOutcome, Reports;
    HoldingMeans(env, s.hist[c.base], c.h, Executing);
    OutcomeIsPaired(c.h.decision.verdict);
    var rows := s.receipts[..c.at];
    assert HumanRow(c.h) in rows;
    var j :| 0 <= j < |rows| && rows[j] == HumanRow(c.h);
    assert s.receipts[j] == HumanRow(c.h);
  }

  lemma {:induction false} DirectCallWitnessed(env: Env, s: Sys, c: DirectCall)
    requires DirectCallOk(env, s, c) && env.receiptsEnabled && env.receiptsRequired
    ensures DirectRowBefore(s, c)
  {
    hide JudgedOn;
    var rows := s.receipts[..c.at];
    assert AllowRow(c.d) in rows;
    var j :| 0 <= j < |rows| && rows[j] == AllowRow(c.d);
    assert s.receipts[j] == AllowRow(c.d);
  }

  // ------------------------------------------------------------- the dataset

  /** What an example of the dataset labels: on the version it was read from, the
      pending action carries a verified decision of exactly this verdict and edit,
      and the receipt with its number is the human row for that id, that verdict
      and that payload. */
  ghost predicate LabelsDecision(env: Env, o: Object, receipts: seq<Entry>, e: Labelled) {
    var h := e.h;
    && o.pending.Some? && o.pending.value.content == h.content
    && VerifiedDecision(env, o.uid, o.ann, h.content, h.decision)
    && Names(env, h.content, h.decision, h.target.description, h.payload)
    && RowReports(receipts, e.receiptSeq, h)
  }

  /** Row number n of the log is the human receipt of this decision. */
  predicate RowReports(receipts: seq<Entry>, n: nat, h: Handled) {
    && 0 < n <= |receipts| && receipts[n - 1].HumanEntry?
    && Reports(h.decision.verdict, receipts[n - 1].outcome)
    && receipts[n - 1].id == h.content.id && receipts[n - 1].payload == h.payload
  }

  lemma {:induction false} RowIsReported(receipts: seq<Entry>, n: nat, h: Handled)
    requires RowAt(receipts, n, HumanRow(h)) && h.decision.verdict in {"approve", "reject", "edit"}
    ensures RowReports(receipts, n, h)
  {
    OutcomeIsPaired(h.decision.verdict);
    hide HumanOutcome, Reports;
  }

  lemma {:induction false} ExampleLabels(env: Env, hist: seq<Object>, receipts: seq<Entry>, e: Labelled)
    requires ExampleOk(env, hist, receipts, e)
    ensures LabelsDecision(env, hist[e.base], receipts, e)
  {
    hide Holding, VerifiedDecision, Names, HumanRow, RowReports;
    HoldingMeans(env, hist[e.base], e.h, Recording);
    RowIsReported(receipts, e.receiptSeq, e.h);
  }

  /** What a reconciler that holds an action has read and named. */
  lemma {:induction false} HoldingMeans(env: Env, o: Object, h: Handled, state: Progress)
    requires Holding(env, o, h, state)
    ensures o.pending.Some? && o.pending.value.content == h.content
    ensures VerifiedDecision(env, o.uid, o.ann, h.content, h.decision)
    ensures h.decision.verdict in {"approve", "reject", "edit"}
    ensures Names(env, h.content, h.decision, h.target.description, h.payload)
  {
    hide VerifiedDecision, Approval.Read, BlockedBy, TargetOf, PayloadOf, Consumed, RefOf, Names;
    ReadMeansVerified(env, o.uid, o.ann, h.content, h.decision);
    VerdictIsKnown(env, o.uid, o.ann, h.content, h.decision);
    TargetIsNamed(env, h.content, h.decision);
  }

  lemma {:induction false} OutcomeIsPaired(verdict: string)
    requires verdict in {"approve", "reject", "edit"}
    ensures Reports(verdict, HumanOutcome(verdict))
  {
    assert |"approve"| == 7 && |"reject"| == 6 && |"edit"| == 4;
  }

  /** Every example in the dataset labels a verified human decision and points at
      the receipt row of that decision, in every run, also for rejected and
      blocked ones. */
  lemma {:induction false} ExamplesAreBound(env: Env, o: Object, labels: seq<Label>, i: nat)
    requires Governance.Lawful(env) && Fresh(env, o) && i < |Run(env, o, labels).examples|
    ensures var s := Run(env, o, labels);
            s.examples[i].base < |s.hist| && LabelsDecision(env, s.hist[s.examples[i].base], s.receipts, s.examples[i])
  {
    hide Run, VersionsOk, BooksOk, CurrentOk, ProcsOk, Fresh, Governance.Lawful, LabelsDecision, Holding, HumanRow;
    RunInvariant(env, o, labels);
    var s := Run(env, o, labels);
    assert ExampleOk(env, s.hist, s.receipts, s.examples[i]);
    ExampleLabels(env, s.hist, s.receipts, s.examples[i]);
  }

  // ----------------------------------------------- no stale direct execution

  /** What is decided about proposal p on object o. */
  function ProposalFacts(o: Object, p: Proposal): Facts {
    Facts(p.action, p.description, p.params, |o.executed| + |o.proposed|, |NotApproved(o.proposed)|, p.confidence,
          p.clusterHealth, p.claimedHealth)
  }

  /** Proposal d was judged on this object: the decision is the one the layers and
      the model give. */
  lemma {:induction false} JudgedMeans(env: Env, o: Object, d: Draft)
    requires JudgedOn(env, o, d)
    ensures forall outcome ::
              DecidedAs(env, o.spec, ProposalFacts(o, d.proposal), d.noise, outcome) <==> d.judged.outcome == outcome
  {
    var past, t, claims := HistoryOf(o.executed, o.proposed), DraftTarget(d.proposal), DraftClaims(d.proposal);
    DeniedCounts(o.proposed);
    assert FactsOf(o.spec, past, t, claims) == ProposalFacts(o, d.proposal);
    JudgedIff(env, o.spec, past, t, claims, d.noise);
    hide Evaluate, Judge, DecidedAs, FactsOf, ProposalFacts;
  }

  /** A direct call ran on exactly the object on which nothing at all stood against
      it: its version is that object with a reservation. */
  ghost predicate RanDirectly(env: Env, hist: seq<Object>, c: DirectCall) {
    && c.base < |hist| && c.d.seen <= c.base <= c.d.seen + 1
    && hist[c.base] == hist[c.d.seen].(other := hist[c.base].other)
    && var o := hist[c.d.seen];
       exists i, v :: Unopposed(env, o.spec, ProposalFacts(o, c.d.proposal), c.d.noise, i, v)
  }

  lemma {:induction false} DirectCallRan(env: Env, s: Sys, c: DirectCall)
    requires DirectCallOk(env, s, c)
    ensures RanDirectly(env, s.hist, c)
  {
    var o := s.hist[c.d.seen];
    hide JudgedOn, Unopposed, ProposalFacts, AllowRow;
    JudgedMeans(env, o, c.d);
    assert DecidedAs(env, o.spec, ProposalFacts(o, c.d.proposal), c.d.noise, Decision.Allow);
  }

  /** No invariant, pack, threshold or model stood against a direct action, on
      exactly the object that its reservation was stored over: the reserved version
      is that object with a reservation, and no other write came between. */
  lemma {:induction false} NoStaleDirectExecution(env: Env, o: Object, labels: seq<Label>, i: nat)
    requires Governance.Lawful(env) && Fresh(env, o) && i < |Run(env, o, labels).direct|
    ensures RanDirectly(env, Run(env, o, labels).hist, Run(env, o, labels).direct[i])
  {
    RunInvariant(env, o, labels);
    var s := Run(env, o, labels);
    hide Run, VersionsOk, BooksOk, CurrentOk, ProcsOk, Fresh, Governance.Lawful, JudgedOn, HeldCallOk, AllowRow,
         RanDirectly;
    assert DirectCallOk(env, s, s.direct[i]);
    DirectCallRan(env, s, s.direct[i]);
  }

  // ---------------------------------------------------------- replay window

  /** The stored window is always the latest 32 finished ids in order, no id is
      finished twice, and a stored action whose id was ever finished reads as
      consumed. */
  lemma {:induction false} ReplayWindow(env: Env, o: Object, labels: seq<Label>)
    requires Governance.Lawful(env) && Fresh(env, o)
    ensures var s := Run(env, o, labels);
            && s.hist != [] && Current(s).consumed == Latest(s.finished, MAX_CONSUMED) && Distinct(s.finished)
            && (Current(s).pending.Some? && Current(s).pending.value.content.id in s.finished ==>
                  !Undecided(Current(s), Current(s).pending.value.content.id))
  {
    RunInvariant(env, o, labels);
    hide Run, VersionOk, ProcsOk, CallsOk, Fresh, Governance.Lawful, CalledIds, Replies, Latest, Distinct, Consumed;
  }

  /** After an action is finished no later commit is made for it, so a call for
      its id can only come from a commit made before. */
  lemma {:induction false} FinishedIsNeverCommitted(env: Env, o: Object, labels: seq<Label>, more: seq<Label>, i: nat)
    requires Governance.Lawful(env) && Fresh(env, o) && i < |Run(env, o, labels + more).held|
    requires Run(env, o, labels + more).held[i].h.content.id in Run(env, o, labels).finished
    ensures var c := Run(env, o, labels + more).held[i];
            var s := Run(env, o, labels);
            c.h.content.id in s.commits && s.commits[c.h.content.id] == c.base
  {
    RunInvariant(env, o, labels + more);
    NothingIsUndone(env, o, labels, more);
    var t := Run(env, o, labels + more);
    hide Run, VersionsOk, BooksOk, CurrentOk, ProcsOk, Fresh, Governance.Lawful, Holding, Passes, HumanRow, Witnessed,
         DirectCallOk;
    assert HeldCallOk(env, t, t.held[i]);
  }

  // -------------------------------------------------- outcomes are true

  lemma {:induction false} EndingIsTrue(s: Sys, id: string)
    requires BooksOk(s) && id in s.ends
    ensures id in s.finished && EndOk(s.commits, Replies(s.held), id, s.ends[id])
  {
    hide EndOk, CalledIds, Replies, Distinct;
  }

  lemma {:induction false} LastTells(s: Sys)
    requires s.hist != [] && CurrentOk(s) && Current(s).last.Some?
    ensures Tells(s.ends, Current(s).last.value, Current(s).last.value.id)
  {
    hide HeldStateOk, Latest, Tells;
  }

  /** A call has one result: it is in the log with ok or without, not both. */
  lemma {:induction false} OneReply(s: Sys, id: string, ok: bool)
    requires BooksOk(s) && (id, ok) in Replies(s.held)
    ensures (id, !ok) !in Replies(s.held) && id in CalledIds(s.held)
  {
    var ids, replies := CalledIds(s.held), Replies(s.held);
    assert forall i | 0 <= i < |s.held| :: replies[i].0 == ids[i];
    hide CalledIds, Replies, EndOk;
  }

  /** What status reports about a decided action is what happened: executed after
      its one call, which succeeded; failed after its one call, which did not;
      rejected and denied without an Executing commit; unknown after one; each with
      its phase; and the stored last outcome repeats it. */
  lemma {:induction false} OutcomesAreTrue(env: Env, o: Object, labels: seq<Label>)
    requires Governance.Lawful(env) && Fresh(env, o)
    ensures var s := Run(env, o, labels);
            && (forall id | id in s.ends :: id in s.finished && EndOk(s.commits, Replies(s.held), id, s.ends[id]))
            && (forall r | r in Replies(s.held) :: (r.0, !r.1) !in Replies(s.held))
            && s.hist != [] && (Current(s).last.Some? ==>
                                Tells(s.ends, Current(s).last.value, Current(s).last.value.id))
  {
    hide Run, VersionOk, BooksOk, CurrentOk, ProcsOk, CallsOk, Fresh, Governance.Lawful, EndOk, CalledIds, Replies,
         Tells;
    RunInvariant(env, o, labels);
    var s := Run(env, o, labels);
    forall id | id in s.ends
      ensures id in s.finished && EndOk(s.commits, Replies(s.held), id, s.ends[id])
    {
      EndingIsTrue(s, id);
    }
    forall r | r in Replies(s.held)
      ensures (r.0, !r.1) !in Replies(s.held)
    {
      OneReply(s, r.0, r.1);
    }
    if Current(s).last.Some? {
      LastTells(s);
    }
  }

  lemma {:induction false} UncommittedIsNotCalled(s: Sys, t: Sys, id: string)
    requires BooksOk(t) && Later(s, t) && id in s.finished && id !in s.commits
    ensures id !in CalledIds(t.held)
  {
    hide CalledIds, Replies, EndOk, Distinct;
  }

  lemma {:induction false} RejectedMeansUncommitted(commits: map<string, nat>, replies: seq<(string, bool)>, id: string,
                                                    e: Ending)
    requires EndOk(commits, replies, id, e) && e.outcome in {"rejected", "denied"}
    ensures id !in commits
  {
  }

  /** An action that was finished as rejected or denied is never executed, then or
      later, in any continuation of the run. */
  lemma {:induction false} RejectedNeverExecutes(env: Env, o: Object, labels: seq<Label>, more: seq<Label>, id: string)
    requires Governance.Lawful(env) && Fresh(env, o)
    requires id in Run(env, o, labels).ends && Run(env, o, labels).ends[id].outcome in {"rejected", "denied"}
    ensures id !in CalledIds(Run(env, o, labels + more).held)
  {
    var s, t := Run(env, o, labels), Run(env, o, labels + more);
    hide Run, VersionsOk, BooksOk, CurrentOk, ProcsOk, CallsOk, Fresh, Governance.Lawful, EndOk, CalledIds, Replies,
         Later;
    RunInvariant(env, o, labels);
    RunInvariant(env, o, labels + more);
    NothingIsUndone(env, o, labels, more);
    EndingIsTrue(s, id);
    RejectedMeansUncommitted(s.commits, Replies(s.held), id, s.ends[id]);
    UncommittedIsNotCalled(s, t, id);
  }

  // ------------------------------------------------ what reconcilers can read

  lemma {:induction false} VersionReads(env: Env, uid: string, born: map<string, Birth>, o: Object)
    requires VersionOk(env, uid, born, o) && o.pending.Some? && BirthsNamed(born)
    ensures Approval.Read(env.codec, env.hashes, o.ann, RefOf(env.hashes, uid, o.pending.value.content), env.key).Ok?
  {
    hide Approval.Read, Consumed, Approval.PendingSha, ApprovalProofs.StampOk, ApprovalProofs.StampedFor;
    var c := o.pending.value.content;
    var p := RefOf(env.hashes, uid, c);
    assert Known(env, uid, born)[c.id] == p;
    ApprovalProofs.ReadNeverRefuses(env.codec, env.hashes, env.key, o.ann, Known(env, uid, born), p);
  }

  predicate BirthsNamed(born: map<string, Birth>) {
    forall id | id in born :: born[id].content.id == id
  }

  /** On no stored version does reading the decision for its pending action fail:
      a missing or wrong stamp cannot be found by any reconciler. */
  lemma {:induction false} ReadNeverFails(env: Env, o: Object, labels: seq<Label>, v: nat)
    requires Governance.Lawful(env) && Fresh(env, o)
    requires v < |Run(env, o, labels).hist| && Run(env, o, labels).hist[v].pending.Some?
    ensures var w := Run(env, o, labels).hist[v];
            Approval.Read(env.codec, env.hashes, w.ann, RefOf(env.hashes, w.uid, w.pending.value.content), env.key).Ok?
  {
    RunInvariant(env, o, labels);
    var s := Run(env, o, labels);
    hide Run, ProcsOk, CallsOk, CurrentOk, Fresh, Governance.Lawful, CalledIds, Replies, Distinct, Approval.Read,
         PendingOk, ApprovalProofs.StampOk, RefOf;
    assert VersionOk(env, o.uid, s.born, s.hist[v]);
    assert BirthsNamed(s.born);
    hide BooksOk, VersionsOk;
    VersionReads(env, o.uid, s.born, s.hist[v]);
  }

  // ---------------------------------------------------- credentials stay out

  /** Nothing that is executed, on either path, carries a credential in any leaf. */
  lemma {:induction false} NoCredentialExecutes(env: Env, o: Object, labels: seq<Label>)
    requires Governance.Lawful(env) && Fresh(env, o)
    ensures var s := Run(env, o, labels);
            && (forall i | 0 <= i < |s.held| :: !CarriesCredential(env, s.held[i].h.payload.params))
            && (forall i | 0 <= i < |s.direct| :: !CarriesCredential(env, DraftPayload(s.direct[i].d.proposal).params))
  {
    RunInvariant(env, o, labels);
    var s := Run(env, o, labels);
    hide Run, VersionsOk, BooksOk, CurrentOk, ProcsOk, Fresh, Governance.Lawful, HeldCallOk, DirectCallOk,
         CarriesCredential;
    forall i | 0 <= i < |s.held|
      ensures !CarriesCredential(env, s.held[i].h.payload.params)
    {
      HeldCallIsClean(env, s, s.held[i]);
    }
    forall i | 0 <= i < |s.direct|
      ensures !CarriesCredential(env, DraftPayload(s.direct[i].d.proposal).params)
    {
      DirectCallIsClean(env, s, s.direct[i]);
    }
  }

  lemma {:induction false} HeldCallIsClean(env: Env, s: Sys, c: HeldCall)
    requires Governance.Lawful(env) && HeldCallOk(env, s, c)
    ensures !CarriesCredential(env, c.h.payload.params)
  {
    hide Governance.Lawful, CarriesCredential, Evaluate, Approval.Read, Consumed, HumanRow, Witnessed, ClaimsOf,
         TargetOf, RefOf;
    var o := s.hist[c.base];
    OnlyCleanActionsPass(env, o.spec, HistoryOf(o.executed, o.proposed), c.h.target, ClaimsOf(env, c.h.content),
                         c.h.noise);
  }

  lemma {:induction false} DirectCallIsClean(env: Env, s: Sys, c: DirectCall)
    requires Governance.Lawful(env) && DirectCallOk(env, s, c)
    ensures !CarriesCredential(env, DraftPayload(c.d.proposal).params)
  {
    hide Governance.Lawful, CarriesCredential, Evaluate, Judge, AllowRow, Witnessed;
    var o := s.hist[c.d.seen];
    OnlyCleanActionsPass(env, o.spec, HistoryOf(o.executed, o.proposed), DraftTarget(c.d.proposal),
                         DraftClaims(c.d.proposal), c.d.noise);
  }

  // ------------------------------------------------- decisions are append-once

  /** The annotations of o' are those of o, or what the webhook made of a request
      while o was stored. */
  ghost predicate AnnotationStep(env: Env, o: Object, o': Object) {
    o'.ann == o.ann || exists r: Webhook.Request :: AdmittedAs(env, o, r, o'.ann)
  }

  ghost predicate AdmittedAs(env: Env, o: Object, r: Webhook.Request, ann: Approval.Annotations) {
    Approval.Admitted(env.codec, env.hashes, o.ann, r.ann, Webhook.AdmissionRef(env.hashes, o), r.username, r.groups,
                      env.key) == Ok(ann)
  }

  predicate OneMore(s: Sys, t: Sys) {
    s.hist != [] && (t.hist == s.hist || (|t.hist| == |s.hist| + 1 && s.hist <= t.hist))
  }

  lemma {:induction false} MoveHistory(s: Sys, pid: nat, pc: Pc)
    ensures Move(s, pid, pc).hist == s.hist
  {
  }

  lemma {:induction false} BookedHistory(s: Sys, pid: nat, o: Object, k: Kind, w: nat)
    ensures Booked(s, pid, o, k, w).hist == s.hist
  {
  }

  lemma {:induction false} OutKeepsAnnotations(o: Object, k: Kind)
    ensures Out(o, k).ann == o.ann
  {
    hide Latest;
  }

  lemma {:induction false} WriteAnnotations(env: Env, s: Sys, pid: nat, pc: Pc, reply: Reply)
    requires s.hist != [] && pc.Writing? && Local(s, pc.base, pc.o) && reply.WriteReply?
    ensures var t := WriteStep(env, s, pid, pc, reply);
            OneMore(s, t) && (|t.hist| > |s.hist| ==> Current(t).ann == Current(s).ann)
  {
    hide Resume, Out, Booked, Move;
    OutKeepsAnnotations(pc.o, pc.kind);
    if reply.applied && CanWrite(s, pc, reply.bumped) {
      var hist := Store(s.hist, Out(pc.o, pc.kind), reply.bumped);
      var s1 := s.(hist := hist);
      BookedHistory(s1, pid, pc.o, pc.kind, |hist| - 1);
      MoveHistory(Booked(s1, pid, pc.o, pc.kind, |hist| - 1), pid,
                  Resume(env, pc, if reply.seen then Written(|hist| - 1) else Refused));
    } else {
      MoveHistory(s, pid, Resume(env, pc, Refused));
    }
  }

  lemma {:induction false} OtherRepliesKeepHistory(env: Env, s: Sys, pid: nat, pc: Pc, reply: Reply)
    requires !(reply.WriteReply? && pc.Writing?)
    ensures ProcStep(env, s, pid, pc, reply).hist == s.hist
  {
    hide Resume, EntryOf;
  }

  lemma {:induction false} ProcAnnotations(env: Env, uid: string, s: Sys, pid: nat, reply: Reply)
    requires Inv(env, uid, s) && pid in s.procs
    ensures var t := ProcStep(env, s, pid, s.procs[pid], reply);
            OneMore(s, t) && (|t.hist| > |s.hist| ==> Current(t).ann == Current(s).ann)
  {
    var pc := s.procs[pid];
    assert PcOk(env, s, pid, pc) && s.hist != [];
    hide Inv, WriteOk, Resume, WriteStep;
    if reply.WriteReply? && pc.Writing? {
      WriteAnnotations(env, s, pid, pc, reply);
    } else {
      hide PcOk, ProcStep;
      OtherRepliesKeepHistory(env, s, pid, pc, reply);
    }
  }

  lemma {:induction false} SomethingIsStored(env: Env, uid: string, s: Sys)
    requires Inv(env, uid, s)
    ensures s.hist != []
  {
    hide VersionOk, BooksOk, CurrentOk, ProcsOk, CallsOk;
  }

  lemma {:induction false} StepAnnotations(env: Env, uid: string, s: Sys, a: Label)
    requires Inv(env, uid, s)
    ensures var t := Apply(env, s, a);
            OneMore(s, t) && (|t.hist| > |s.hist| ==> AnnotationStep(env, Current(s), Current(t)))
  {
    hide Inv, ProcStep, Consumed, Approval.Admitted, Webhook.AdmissionRef, Webhook.ValidateUpdate;
    SomethingIsStored(env, uid, s);
    match a
    case Step(pid, reply) =>
      if pid in s.procs {
        ProcAnnotations(env, uid, s, pid, reply);
      }
    case Client(r) =>
      ClientAnnotations(env, s, r);
    case _ =>
      hide Webhook.Admitted;
  }

  lemma {:induction false} ClientAnnotations(env: Env, s: Sys, r: Webhook.Request)
    requires s.hist != []
    ensures var t := Apply(env, s, Client(r));
            OneMore(s, t) && (|t.hist| > |s.hist| ==> AnnotationStep(env, Current(s), Current(t)))
  {
    hide Approval.Admitted, Webhook.AdmissionRef, Webhook.ValidateUpdate, Webhook.DefaultSpec;
    var out := Webhook.Admitted(env.codec, env.hashes, env.key, env.validSpec, Current(s), r);
    if out.Some? {
      assert AdmittedAs(env, Current(s), r, out.value.ann);
    }
  }

  /** From version n on, the action id stays in the pending phase. */
  predicate HeldSince(hist: seq<Object>, n: nat, id: string) {
    forall v | n <= v < |hist| :: hist[v].phase == PENDING_APPROVAL && hist[v].pending.Some? &&
      hist[v].pending.value.content.id == id
  }

  /** From version n on, the six protocol annotations stay as they are. */
  predicate SameSince(hist: seq<Object>, n: nat)
    requires n < |hist|
  {
    forall v | n <= v < |hist| :: Approval.SameProtocol(hist[n].ann, hist[v].ann)
  }

  lemma {:induction false} SameProtocolTransitive(a: Approval.Annotations, b: Approval.Annotations,
                                                  c: Approval.Annotations)
    requires Approval.SameProtocol(a, b) && Approval.SameProtocol(b, c)
    ensures Approval.SameProtocol(a, c)
  {
    forall i | 0 <= i < |Approval.PROTOCOL_KEYS|
      ensures Approval.SameKey(a, c, Approval.PROTOCOL_KEYS[i])
    {
      assert Approval.SameKey(a, b, Approval.PROTOCOL_KEYS[i]) && Approval.SameKey(b, c, Approval.PROTOCOL_KEYS[i]);
    }
  }

  lemma {:induction false} StampedStepKeeps(env: Env, o: Object, first: Approval.Annotations, o': Object)
    requires o.phase == PENDING_APPROVAL && o.pending.Some?
    requires ApprovalProofs.StampedFor(env.codec, env.hashes, env.key, first,
                                       RefOf(env.hashes, o.uid, o.pending.value.content))
    requires Approval.SameProtocol(first, o.ann) && AnnotationStep(env, o, o')
    ensures Approval.SameProtocol(first, o'.ann)
  {
    var p := RefOf(env.hashes, o.uid, o.pending.value.content);
    hide Approval.SameProtocol, Approval.Admitted, ApprovalProofs.StampedFor, RefOf;
    if o'.ann != o.ann {
      var r: Webhook.Request :| AdmittedAs(env, o, r, o'.ann);
      assert Webhook.AdmissionRef(env.hashes, o) == p;
      ApprovalProofs.OnlyProtocolKeysMatter(env.codec, env.hashes, env.key, first, o.ann, p);
      ApprovalProofs.AppendOnce(env.codec, env.hashes, o.ann, r.ann, p, r.username, r.groups, env.key);
      SameProtocolTransitive(first, o.ann, o'.ann);
    }
  }

  lemma {:induction false} SameContent(env: Env, uid: string, s: Sys, n: nat, v: nat)
    requires VersionsOk(env, uid, s.born, s.hist) && n < |s.hist| && v < |s.hist|
    requires s.hist[n].pending.Some? && s.hist[v].pending.Some?
    requires s.hist[n].pending.value.content.id == s.hist[v].pending.value.content.id
    ensures s.hist[n].pending.value.content == s.hist[v].pending.value.content && s.hist[n].uid == s.hist[v].uid
  {
    hide ApprovalProofs.StampOk, Consumed, Known, FrozenOf;
    assert VersionOk(env, uid, s.born, s.hist[n]) && VersionOk(env, uid, s.born, s.hist[v]);
  }

  lemma {:induction false} SameSinceOneMore(a: seq<Object>, b: seq<Object>, n: nat)
    requires n < |a| && SameSince(a, n) && a <= b && |b| <= |a| + 1
    requires |b| > |a| ==> Approval.SameProtocol(a[n].ann, b[|a|].ann)
    ensures SameSince(b, n)
  {
    hide Approval.SameProtocol;
    assert forall v | 0 <= v < |a| :: a[v] == b[v];
  }

  /** One more step of a span in which a stamped action stays pending. */
  lemma {:induction false} SpanStep(env: Env, uid: string, s: Sys, t: Sys, a: Label, n: nat, id: string)
    requires Inv(env, uid, s) && t == Apply(env, s, a) && n < |s.hist|
    requires HeldSince(s.hist, n, id) && SameSince(s.hist, n) && s.hist[n].pending.Some?
    requires ApprovalProofs.StampedFor(env.codec, env.hashes, env.key, s.hist[n].ann,
                                       RefOf(env.hashes, s.hist[n].uid, s.hist[n].pending.value.content))
    ensures n < |t.hist| && SameSince(t.hist, n)
  {
    hide Apply, BooksOk, CurrentOk, ProcsOk, CallsOk, VersionsOk, AnnotationStep, ApprovalProofs.StampedFor,
         Approval.SameProtocol, RefOf;
    StepAnnotations(env, uid, s, a);
    var last := |s.hist| - 1;
    SameContent(env, uid, s, n, last);
    if |t.hist| > |s.hist| {
      StampedStepKeeps(env, s.hist[last], s.hist[n].ann, t.hist[last + 1]);
    }
    SameSinceOneMore(s.hist, t.hist, n);
  }

  /** From the moment a decision is stamped for the pending action until that
      action leaves the pending phase, no update changes any of the six protocol
      annotations, in any run: every reconcile reads the same decision. */
  lemma {:induction false} DecisionsAreAppendOnce(env: Env, o: Object, labels: seq<Label>, more: seq<Label>, id: string)
    requires Governance.Lawful(env) && Fresh(env, o)
    requires var s := Run(env, o, labels);
             && s.hist != [] && Current(s).pending.Some?
             && ApprovalProofs.StampedFor(env.codec, env.hashes, env.key, Current(s).ann,
                                          RefOf(env.hashes, Current(s).uid, Current(s).pending.value.content))
             && HeldSince(Run(env, o, labels + more).hist, |s.hist| - 1, id)
    ensures var n := |Run(env, o, labels).hist| - 1;
            n < |Run(env, o, labels + more).hist| && SameSince(Run(env, o, labels + more).hist, n)
  {
    var s := Run(env, o, labels);
    var n := |s.hist| - 1;
    hide Run, Inv, Fresh, Governance.Lawful, HeldSince, SameSince, ApprovalProofs.StampedFor, RefOf, Apply;
    if more == [] {
      assert labels + more == labels;
      SameSinceLast(s.hist);
    } else {
      var init, a := more[..|more| - 1], more[|more| - 1];
      assert more == init + [a];
      RunMore(env, o, labels, init, a);
      var m, t := Run(env, o, labels + init), Run(env, o, labels + more);
      RunInvariant(env, o, labels + init);
      NothingIsUndone(env, o, labels, init);
      StepLater(env, o.uid, m, a);
      HeldSincePrefix(m.hist, t.hist, n, id);
      DecisionsAreAppendOnce(env, o, labels, init, id);
      SpanStep(env, o.uid, m, t, a, n, id);
    }
  }

  lemma {:induction false} SameSinceLast(hist: seq<Object>)
    requires hist != []
    ensures SameSince(hist, |hist| - 1)
  {
  }

  lemma {:induction false} HeldSincePrefix(a: seq<Object>, b: seq<Object>, n: nat, id: string)
    requires a <= b && HeldSince(b, n, id)
    ensures HeldSince(a, n, id)
  {
    assert forall v | 0 <= v < |a| :: a[v] == b[v];
  }
}
