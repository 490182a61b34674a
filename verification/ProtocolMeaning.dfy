/** What the stored status means, over every run: which actions were really done,
    which proposals became pending actions and why, and where direct calls come
    from; and what becomes of a proposal, by what stands against it.
  */
module ProtocolMeaning {
  import opened Text
  import opened Workload
  import opened Governance
  import opened Protocol
  import opened ProtocolInvariant
  import opened ProtocolTheorems
  import opened ProtocolSchedules
  import opened ProtocolHistory
  import ProtocolLimits
  import Approval
  import ApprovalMeaning
  import ApprovalProofs
  import Decision
  import Invariants
  import Webhook

  // ----------------------------------------------------- what the lists tell

  predicate HeldDid(held: seq<HeldCall>, k: nat, a: Action) {
    && k < |held| && held[k].ok
    && a == Action(held[k].h.payload.action, held[k].h.target.description, held[k].h.payload.confidence, true)
  }

  predicate DirectDid(direct: seq<DirectCall>, k: nat, a: Action) {
    k < |direct| && direct[k].ok &&
      var p := direct[k].d.proposal;
      a == Action(p.action, p.description, p.confidenceText, true)
  }

  /** Some call did action a, and succeeded. */
  ghost predicate WasDone(held: seq<HeldCall>, direct: seq<DirectCall>, a: Action) {
    (exists k: nat :: HeldDid(held, k, a)) || exists k: nat :: DirectDid(direct, k, a)
  }

  /** What is listed as executed was done; what is listed as proposed is not
      reported as approved. */
  ghost predicate ListsTrue(held: seq<HeldCall>, direct: seq<DirectCall>, executed: seq<Action>, proposed: seq<Action>)
  {
    && (forall i | 0 <= i < |executed| :: WasDone(held, direct, executed[i]))
    && (forall i | 0 <= i < |proposed| :: !proposed[i].approved)
  }

  lemma {:induction false} WasDoneGrows(held: seq<HeldCall>, direct: seq<DirectCall>, held': seq<HeldCall>,
                                        direct': seq<DirectCall>, a: Action)
    requires WasDone(held, direct, a) && held <= held' && direct <= direct'
    ensures WasDone(held', direct', a)
  {
    if k: nat :| HeldDid(held, k, a) {
      assert HeldDid(held', k, a);
    } else {
      var k: nat :| DirectDid(direct, k, a);
      assert DirectDid(direct', k, a);
    }
  }

  lemma {:induction false} ListsGrow(held: seq<HeldCall>, direct: seq<DirectCall>, held': seq<HeldCall>,
                                     direct': seq<DirectCall>, executed: seq<Action>, proposed: seq<Action>)
    requires ListsTrue(held, direct, executed, proposed) && held <= held' && direct <= direct'
    ensures ListsTrue(held', direct', executed, proposed)
  {
    hide WasDone;
    forall i | 0 <= i < |executed|
      ensures WasDone(held', direct', executed[i])
    {
      WasDoneGrows(held, direct, held', direct', executed[i]);
    }
  }

  lemma {:induction false} OneMoreDone(held: seq<HeldCall>, direct: seq<DirectCall>, executed: seq<Action>,
                                       proposed: seq<Action>, a: Action, n: nat)
    requires ListsTrue(held, direct, executed, proposed) && WasDone(held, direct, a)
    ensures ListsTrue(held, direct, Latest(executed + [a], n), proposed)
  {
    hide WasDone;
  }

  lemma {:induction false} OneMoreProposed(held: seq<HeldCall>, direct: seq<DirectCall>, executed: seq<Action>,
                                           proposed: seq<Action>, a: Action, n: nat)
    requires ListsTrue(held, direct, executed, proposed) && !a.approved
    ensures ListsTrue(held, direct, executed, Latest(proposed + [a], n))
  {
    hide WasDone;
  }

  // --------------------------------------------------------------- the births

  /** Version v got proposal p with no action waiting, it was decided so, and b is
      what is stored of it: every field of it, the spec it was decided under, and
      the number of the receipt of that decision. Under the strict mode only what
      needs an approval is stored, and never without a required receipt; and what
      was allowed is stored only when its required receipt was not written. */
  ghost predicate BornFrom(env: Env, hist: seq<Object>, receipts: seq<Entry>, v: nat, p: Proposal, noise: Noise,
                           outcome: Decision.Outcome, b: Birth)
  {
    && v < |hist| && FreeToAsk(hist[v])
    && var s := hist[v].spec;
    && b.frozen == Frozen(s.intent, s.packs, s.opaPolicy, s.model, s.capture, s.endpoint)
    && p.text.Some?
    && b.content == Content(b.content.id, p.action, p.description, p.confidenceText, p.clusterHealthText,
                            p.claimedHealthText, p.text.value, p.record, b.content.receiptSeq)
    && DecidedAs(env, s, ProposalFacts(hist[v], p), noise, outcome)
    && (b.content.receiptSeq > 0 ==>
          RowAt(receipts, b.content.receiptSeq,
                DecisionEntry(outcome, Payload(p.action, p.params, p.confidenceText))))
    && (s.opaPolicy == Some("strict") ==>
          outcome == Decision.RequireApproval &&
          (env.receiptsEnabled && env.receiptsRequired ==> b.content.receiptSeq > 0))
    && (outcome == Decision.Allow ==> env.receiptsEnabled && env.receiptsRequired && b.content.receiptSeq == 0)
  }

  ghost predicate HasBirth(env: Env, hist: seq<Object>, receipts: seq<Entry>, b: Birth) {
    exists v: nat, p, noise, outcome :: BornFrom(env, hist, receipts, v, p, noise, outcome, b)
  }

  lemma {:induction false} BirthStays(env: Env, hist: seq<Object>, receipts: seq<Entry>, hist': seq<Object>,
                                      receipts': seq<Entry>, b: Birth)
    requires HasBirth(env, hist, receipts, b) && hist <= hist' && receipts <= receipts'
    ensures HasBirth(env, hist', receipts', b)
  {
    var v: nat, p, noise, outcome :| BornFrom(env, hist, receipts, v, p, noise, outcome, b);
    assert hist'[v] == hist[v];
    hide DecidedAs, ProposalFacts, FreeToAsk;
    assert BornFrom(env, hist', receipts', v, p, noise, outcome, b);
  }

  // ------------------------------------------------- outcomes and conditions

  /** Outcome r ends the action that version w held, as decision h of it was read
      there: it names that decision, who took it, and its receipt if it has one. */
  ghost predicate OutcomeOf(env: Env, hist: seq<Object>, receipts: seq<Entry>, w: nat, h: Handled, r: ApprovalOutcome)
  {
    && w < |hist| && hist[w].pending.Some? && hist[w].pending.value.content == h.content && r.id == h.content.id
    && VerifiedDecision(env, hist[w].uid, hist[w].ann, h.content, h.decision) && r.decision == h.decision.verdict
    && Names(env, h.content, h.decision, h.target.description, h.payload)
    && r.approverSha == Hex(env.hashes.sha256(h.decision.approverRaw))
    && (r.receiptSeq > 0 ==> RowReports(receipts, r.receiptSeq, h))
    && (env.receiptsEnabled && env.receiptsRequired ==> r.receiptSeq > 0)
  }

  /** Version w held the action of r as Executing. */
  predicate UnknownOf(hist: seq<Object>, w: nat, r: ApprovalOutcome) {
    && w < |hist| && hist[w].pending.Some? && hist[w].pending.value.content.id == r.id
    && hist[w].pending.value.state == Executing && r.decision == hist[w].pending.value.decision
    && r.approverSha == "" && r.receiptSeq == 0
  }

  ghost predicate OutcomeTrue(env: Env, hist: seq<Object>, receipts: seq<Entry>, r: ApprovalOutcome) {
    if r.outcome == "unknown" then exists w: nat :: UnknownOf(hist, w, r)
    else exists w: nat, h :: OutcomeOf(env, hist, receipts, w, h, r)
  }

  predicate DecidedIn(hist: seq<Object>, w: nat, id: string) {
    w < |hist| && ((hist[w].last.Some? && hist[w].last.value.id == id) || id in hist[w].consumed)
  }

  /** What the condition says: each ending under its own reason, and a replay only
      of an action that was decided. That a stamp is missing or wrong is never
      reported, because no stored version has such a stamp. */
  ghost predicate NoteTrue(hist: seq<Object>, note: Note) {
    match note.message
    case AlreadyDecided(id) => note.reason == "ApprovalReplay" && exists w: nat :: DecidedIn(hist, w, id)
    case NotActing(_) => false
    case UnreadableProposal => note.reason == "PendingActionUnreadable"
    case ReceiptNotWritten => note.reason == "ReceiptFailed"
    case Ended(text) => Ends(text, note.reason)
  }

  predicate Ends(outcome: string, reason: string) {
    || (outcome == "executed" && reason == "Executed") || (outcome == "failed" && reason == "ExecutionFailed")
    || (outcome == "rejected" && reason == "Rejected") || (outcome == "denied" && reason == "HumanDecisionBlocked")
    || (outcome == "unknown" && reason == "ExecutionOutcomeUnknown")
  }

  /** Decision d was read for this action on version w, and is the one recorded. */
  ghost predicate ReadOn(env: Env, hist: seq<Object>, w: nat, d: Approval.Decision, p: PendingApproval) {
    && w < |hist| && hist[w].pending.Some? && hist[w].pending.value.content == p.content
    && VerifiedDecision(env, hist[w].uid, hist[w].ann, p.content, d) && p.decision == d.verdict
  }

  /** An undecided action that is being acted on carries the verdict that was read
      for it. */
  ghost predicate StateTrue(env: Env, hist: seq<Object>, o: Object) {
    o.pending.Some? && o.pending.value.state != Idle && !DecidedBefore(o, o.pending.value.content.id) ==>
      exists w: nat, d :: ReadOn(env, hist, w, d, o.pending.value)
  }

  lemma {:induction false} StateGrows(env: Env, hist: seq<Object>, hist': seq<Object>, o: Object)
    requires StateTrue(env, hist, o) && hist <= hist'
    ensures StateTrue(env, hist', o)
  {
    hide VerifiedDecision, DecidedBefore;
    if o.pending.Some? && o.pending.value.state != Idle && !DecidedBefore(o, o.pending.value.content.id) {
      var w: nat, d :| ReadOn(env, hist, w, d, o.pending.value);
      assert hist'[w] == hist[w];
      assert ReadOn(env, hist', w, d, o.pending.value);
    }
  }

  lemma {:induction false} OutcomeGrows(env: Env, hist: seq<Object>, receipts: seq<Entry>, hist': seq<Object>,
                                        receipts': seq<Entry>, r: ApprovalOutcome)
    requires OutcomeTrue(env, hist, receipts, r) && hist <= hist' && receipts <= receipts'
    ensures OutcomeTrue(env, hist', receipts', r)
  {
    hide VerifiedDecision, Names, Reports;
    if r.outcome == "unknown" {
      var w: nat :| UnknownOf(hist, w, r);
      assert UnknownOf(hist', w, r);
    } else {
      var w: nat, h :| OutcomeOf(env, hist, receipts, w, h, r);
      assert hist'[w] == hist[w];
      assert OutcomeOf(env, hist', receipts', w, h, r);
    }
  }

  lemma {:induction false} NoteGrows(hist: seq<Object>, hist': seq<Object>, note: Note)
    requires NoteTrue(hist, note) && hist <= hist'
    ensures NoteTrue(hist', note)
  {
    if note.message.AlreadyDecided? {
      var w: nat :| DecidedIn(hist, w, note.message.id);
      assert hist'[w] == hist[w];
      assert DecidedIn(hist', w, note.message.id);
    }
  }

  // -------------------------------------------------------- over all versions

  predicate DirectFree(hist: seq<Object>, c: DirectCall) {
    c.base < |hist| && FreeToAsk(hist[c.base])
  }

  /** Its receipt, if it has one; a required one it has. */
  predicate Noted(env: Env, receipts: seq<Entry>, n: nat, h: Handled) {
    (n > 0 ==> RowReports(receipts, n, h)) && (env.receiptsEnabled && env.receiptsRequired ==> n > 0)
  }

  /** The status of one version. */
  ghost predicate StatusTrue(env: Env, s: Sys, o: Object) {
    && ListsTrue(s.held, s.direct, o.executed, o.proposed)
    && (o.last.Some? ==> OutcomeTrue(env, s.hist, s.receipts, o.last.value))
    && (o.note.Some? ==> NoteTrue(s.hist, o.note.value))
    && StateTrue(env, s.hist, o)
  }

  /** What a reconciler is about to write is true. */
  ghost predicate Honest(env: Env, s: Sys, pc: Pc) {
    match pc
    case Writing(_, _, Record(verdict), ToReceipt(h)) => verdict == h.decision.verdict
    case Writing(_, _, Hold(note), _) => NoteTrue(s.hist, note)
    case Writing(_, _, Release(note), _) => NoteTrue(s.hist, note)
    case Writing(_, _, Execute(_), ToCall(h, n)) => Noted(env, s.receipts, n, h)
    case Writing(_, _, Finish(outcome, _, executed, proposed, note, _), _) =>
      && ListsTrue(s.held, s.direct, executed, proposed)
      && OutcomeTrue(env, s.hist, s.receipts, outcome) && NoteTrue(s.hist, note)
    case Writing(_, o, Final(_, pending, executed, proposed), _) =>
      && ListsTrue(s.held, s.direct, executed, proposed)
      && (pending.Some? ==> HasBirth(env, s.hist, s.receipts, Birth(pending.value.content, FrozenOf(o.spec))))
    case DenyReceipt(_, _, h, n, _) => Noted(env, s.receipts, n, h)
    case Calling(_, _, h, n) => Noted(env, s.receipts, n, h)
    case DecisionReceipt(_, _, _) => env.receiptsEnabled
    case _ => true
  }

  ghost predicate VersionsTrue(env: Env, s: Sys) {
    forall v | 0 <= v < |s.hist| :: StatusTrue(env, s, s.hist[v])
  }

  ghost predicate ProcsHonest(env: Env, s: Sys) {
    forall pid | pid in s.procs :: Honest(env, s, s.procs[pid])
  }

  ghost predicate BirthsTrue(env: Env, s: Sys) {
    forall id | id in s.born :: HasBirth(env, s.hist, s.receipts, s.born[id])
  }

  predicate DirectsFree(s: Sys) {
    forall i | 0 <= i < |s.direct| :: DirectFree(s.hist, s.direct[i])
  }

  ghost predicate AllTrue(env: Env, s: Sys) {
    VersionsTrue(env, s) && ProcsHonest(env, s) && BirthsTrue(env, s) && DirectsFree(s)
  }

  predicate Longer(s: Sys, t: Sys) {
    s.hist <= t.hist && s.receipts <= t.receipts && s.held <= t.held && s.direct <= t.direct
  }

  lemma {:induction false} NotedGrows(env: Env, receipts: seq<Entry>, receipts': seq<Entry>, n: nat, h: Handled)
    requires Noted(env, receipts, n, h) && receipts <= receipts'
    ensures Noted(env, receipts', n, h)
  {
    hide Reports;
  }

  lemma {:induction false} StatusGrows(env: Env, s: Sys, t: Sys, o: Object)
    requires StatusTrue(env, s, o) && Longer(s, t)
    ensures StatusTrue(env, t, o)
  {
    hide ListsTrue, OutcomeTrue, NoteTrue, StateTrue;
    StateGrows(env, s.hist, t.hist, o);
    ListsGrow(s.held, s.direct, t.held, t.direct, o.executed, o.proposed);
    if o.last.Some? {
      OutcomeGrows(env, s.hist, s.receipts, t.hist, t.receipts, o.last.value);
    }
    if o.note.Some? {
      NoteGrows(s.hist, t.hist, o.note.value);
    }
  }

  lemma {:induction false} HonestWriteGrows(env: Env, s: Sys, t: Sys, pc: Pc)
    requires pc.Writing? && Honest(env, s, pc) && Longer(s, t)
    ensures Honest(env, t, pc)
  {
    hide ListsTrue, HasBirth, FrozenOf, OutcomeTrue, NoteTrue, Noted;
    match pc.kind
    case Hold(note) => NoteGrows(s.hist, t.hist, note);
    case Release(note) => NoteGrows(s.hist, t.hist, note);
    case Execute(_) =>
      if pc.next.ToCall? {
        NotedGrows(env, s.receipts, t.receipts, pc.next.receiptSeq, pc.next.h);
      }
    case Finish(outcome, _, executed, proposed, note, _) =>
      ListsGrow(s.held, s.direct, t.held, t.direct, executed, proposed);
      OutcomeGrows(env, s.hist, s.receipts, t.hist, t.receipts, outcome);
      NoteGrows(s.hist, t.hist, note);
    case Final(_, pending, executed, proposed) =>
      ListsGrow(s.held, s.direct, t.held, t.direct, executed, proposed);
      if pending.Some? {
        BirthStays(env, s.hist, s.receipts, t.hist, t.receipts, Birth(pending.value.content, FrozenOf(pc.o.spec)));
      }
    case _ =>
  }

  lemma {:induction false} HonestGrows(env: Env, s: Sys, t: Sys, pc: Pc)
    requires Honest(env, s, pc) && Longer(s, t)
    ensures Honest(env, t, pc)
  {
    hide ListsTrue, HasBirth, FrozenOf, OutcomeTrue, NoteTrue, Noted;
    match pc
    case Writing(_, _, _, _) =>
      hide Honest, Longer;
      HonestWriteGrows(env, s, t, pc);
    case DenyReceipt(_, _, h, n, _) => NotedGrows(env, s.receipts, t.receipts, n, h);
    case Calling(_, _, h, n) => NotedGrows(env, s.receipts, t.receipts, n, h);
    case _ =>
  }

  /** Longer logs, with new versions, births and direct calls that are in order. */
  lemma {:induction false} TrueGrows(env: Env, s: Sys, t: Sys)
    requires AllTrue(env, s) && Longer(s, t) && t.procs == s.procs
    requires forall v | |s.hist| <= v < |t.hist| :: StatusTrue(env, t, t.hist[v])
    requires forall id | id in t.born && !(id in s.born && t.born[id] == s.born[id]) ::
               HasBirth(env, t.hist, t.receipts, t.born[id])
    requires forall i | |s.direct| <= i < |t.direct| :: DirectFree(t.hist, t.direct[i])
    ensures AllTrue(env, t)
  {
    hide StatusTrue, HasBirth, Honest, FreeToAsk;
    forall v | 0 <= v < |t.hist|
      ensures StatusTrue(env, t, t.hist[v])
    {
      if v < |s.hist| {
        StatusGrows(env, s, t, s.hist[v]);
      }
    }
    forall pid | pid in t.procs
      ensures Honest(env, t, t.procs[pid])
    {
      HonestGrows(env, s, t, s.procs[pid]);
    }
    forall id | id in t.born
      ensures HasBirth(env, t.hist, t.receipts, t.born[id])
    {
      if id in s.born && t.born[id] == s.born[id] {
        BirthStays(env, s.hist, s.receipts, t.hist, t.receipts, s.born[id]);
      }
    }
  }

  lemma {:induction false} MovedTrue(env: Env, t: Sys, pid: nat, pc: Pc)
    requires AllTrue(env, t) && Honest(env, t, pc)
    ensures AllTrue(env, Move(t, pid, pc))
  {
    hide ListsTrue, HasBirth, FreeToAsk;
  }

  // ------------------------------------------------------- where answers lead

  /** A decision that was read on a stored version, and how it ended. */
  lemma {:induction false} OutcomeIsTrue(env: Env, s: Sys, base: nat, o: Object, h: Handled, state: Progress,
                                         r: ApprovalOutcome)
    requires Local(s, base, o) && Holding(env, o, h, state) && Noted(env, s.receipts, r.receiptSeq, h)
    requires r.id == h.content.id && r.decision == h.decision.verdict && r.approverSha == ApproverSha(env, h)
    requires r.outcome != "unknown"
    ensures OutcomeTrue(env, s.hist, s.receipts, r)
  {
    HoldingMeans(env, o, h, state);
    hide Holding, VerifiedDecision, Names, RowReports;
    assert OutcomeOf(env, s.hist, s.receipts, base, h, r);
  }

  lemma {:induction false} EndingNames()
    ensures "rejected" != "unknown" && "denied" != "unknown" && "executed" != "unknown" && "failed" != "unknown"
  {
    assert "rejected"[0] == 'r' && "denied"[0] == 'd' && "executed"[0] == 'e' && "failed"[0] == 'f';
  }

  lemma {:induction false} RejectedHonest(env: Env, s: Sys, base: nat, o: Object, h: Handled, receiptSeq: nat,
                                          other: string)
    requires StatusTrue(env, s, o) && Local(s, base, o) && Holding(env, o, h, Recording)
    requires Noted(env, s.receipts, receiptSeq, h)
    ensures Honest(env, s, Writing(base, o, RejectedFinish(env, o, h, receiptSeq, other), Stop))
    ensures Honest(env, s, Writing(base, o, DeniedFinish(env, o, h, receiptSeq, other), Stop))
  {
    hide Holding, ListsTrue, Noted, OutcomeTrue, ApproverSha, StateTrue;
    EndingNames();
    OutcomeIsTrue(env, s, base, o, h, Recording,
                  ApprovalOutcome(h.content.id, h.decision.verdict, "rejected", ApproverSha(env, h), receiptSeq));
    OutcomeIsTrue(env, s, base, o, h, Recording,
                  ApprovalOutcome(h.content.id, h.decision.verdict, "denied", ApproverSha(env, h), receiptSeq));
  }

  lemma {:induction false} AfterReceiptHonest(env: Env, s: Sys, base: nat, o: Object, h: Handled, receiptSeq: nat,
                                              other: string)
    requires StatusTrue(env, s, o) && Local(s, base, o) && Holding(env, o, h, Recording)
    requires Noted(env, s.receipts, receiptSeq, h)
    ensures Honest(env, s, AfterHumanReceipt(env, base, o, h, receiptSeq, other))
  {
    hide StatusTrue, ListsTrue, Noted, Holding, OutcomeTrue, NoteTrue, RejectedFinish, DeniedFinish;
    RejectedHonest(env, s, base, o, h, receiptSeq, other);
  }

  lemma {:induction false} UnknownIsTrue(env: Env, s: Sys, base: nat, o: Object)
    requires StatusTrue(env, s, o) && Local(s, base, o) && o.pending.Some? && o.pending.value.state == Executing
    ensures Honest(env, s, Writing(base, o, UnknownFinish(o, o.pending.value), Stop))
  {
    hide ListsTrue, StateTrue;
    var p := o.pending.value;
    assert UnknownOf(s.hist, base, ApprovalOutcome(p.content.id, p.decision, "unknown", "", 0));
  }

  /** A reconciler holds an action because it was decided before or because its
      proposal does not parse, and for no other reason. */
  lemma {:induction false} HoldingNoteIsTrue(env: Env, s: Sys, base: nat, o: Object, noise: Noise)
    requires Local(s, base, o) && o.pending.Some?
    requires Approval.Read(env.codec, env.hashes, o.ann, RefOf(env.hashes, o.uid, o.pending.value.content), env.key).Ok?
    ensures var plan := PlanFor(env, o, o.pending.value, noise);
            && (plan.HoldBecause? ==> NoteTrue(s.hist, plan.note))
            && (plan.GiveUp? ==> o.pending.value.state == Executing)
  {
    hide Approval.Read, RefOf, BlockedBy, TargetOf, PayloadOf, HistoryOf;
    var id := o.pending.value.content.id;
    assert Consumed(o.last, o.consumed, id) ==> DecidedIn(s.hist, base, id);
    hide Consumed, DecidedIn;
  }

  lemma {:induction false} AfterGateHonest(env: Env, s: Sys, base: nat, o: Object, noise: Noise)
    requires StatusTrue(env, s, o) && Local(s, base, o)
    requires o.pending.Some? ==>
               Approval.Read(env.codec, env.hashes, o.ann, RefOf(env.hashes, o.uid, o.pending.value.content),
                             env.key).Ok?
    ensures Honest(env, s, AfterGate(env, base, o, noise))
  {
    hide StatusTrue, PlanFor, Approval.Read, RefOf, NoteTrue, OutcomeTrue, ListsTrue, UnknownFinish;
    if o.phase == PENDING_APPROVAL && o.pending.Some? {
      HoldingNoteIsTrue(env, s, base, o, noise);
      if PlanFor(env, o, o.pending.value, noise).GiveUp? {
        UnknownIsTrue(env, s, base, o);
      }
    }
  }

  /** The one call of an action, just made: how it ended and what is listed. */
  lemma {:induction false} CalledTrue(env: Env, s: Sys, base: nat, o: Object, h: Handled, receiptSeq: nat, ok: bool)
    requires StatusTrue(env, s, o) && Noted(env, s.receipts, receiptSeq, h)
    requires Local(s, base, o) && Holding(env, o, h, Executing) && h.payload == PayloadOf(h.target, h.content)
    requires s.held != [] && s.held[|s.held| - 1].h == h && s.held[|s.held| - 1].ok == ok
    ensures var a := Action(h.target.name, h.target.description, h.content.confidence, ok);
            if ok then ListsTrue(s.held, s.direct, Latest(o.executed + [a], MAX_ACTIONS), o.proposed)
            else ListsTrue(s.held, s.direct, o.executed, Latest(o.proposed + [a], MAX_ACTIONS))
    ensures OutcomeTrue(env, s.hist, s.receipts,
                        ApprovalOutcome(h.content.id, h.decision.verdict, if ok then "executed" else "failed",
                                        ApproverSha(env, h), receiptSeq))
  {
    var a := Action(h.target.name, h.target.description, h.content.confidence, ok);
    assert ok ==> HeldDid(s.held, |s.held| - 1, a);
    hide ListsTrue, HeldDid, Latest, ApproverSha, Holding, OutcomeTrue, NoteTrue, Noted, PayloadOf, StateTrue;
    EndingNames();
    OutcomeIsTrue(env, s, base, o, h, Executing,
                  ApprovalOutcome(h.content.id, h.decision.verdict, if ok then "executed" else "failed",
                                  ApproverSha(env, h), receiptSeq));
    if ok {
      OneMoreDone(s.held, s.direct, o.executed, o.proposed, a, MAX_ACTIONS);
    } else {
      OneMoreProposed(s.held, s.direct, o.executed, o.proposed, a, MAX_ACTIONS);
    }
  }

  lemma {:induction false} CalledHonest(env: Env, s: Sys, pc: Pc, ok: bool)
    requires pc.Calling? && StatusTrue(env, s, pc.o) && Honest(env, s, pc)
    requires Local(s, pc.base, pc.o) && Holding(env, pc.o, pc.h, Executing)
    requires pc.h.payload == PayloadOf(pc.h.target, pc.h.content)
    requires s.held != [] && s.held[|s.held| - 1].h == pc.h && s.held[|s.held| - 1].ok == ok
    ensures Honest(env, s, Resume(env, pc, Returned(ok)))
  {
    hide StatusTrue, ListsTrue, Latest, ApproverSha, Holding, OutcomeTrue, Noted, PayloadOf, Local;
    CalledTrue(env, s, pc.base, pc.o, pc.h, pc.receiptSeq, ok);
  }

  lemma {:induction false} DirectCalledHonest(env: Env, s: Sys, pc: Pc, ok: bool)
    requires pc.DirectCalling? && StatusTrue(env, s, pc.o)
    requires s.direct != [] && s.direct[|s.direct| - 1].d == pc.d && s.direct[|s.direct| - 1].ok == ok
    ensures Honest(env, s, Resume(env, pc, Returned(ok)))
  {
    var p := pc.d.proposal;
    var a := Action(p.action, p.description, p.confidenceText, ok);
    assert ok ==> DirectDid(s.direct, |s.direct| - 1, a);
    hide ListsTrue, DirectDid, Latest, OutcomeTrue, NoteTrue, StateTrue;
    if ok {
      OneMoreDone(s.held, s.direct, pc.o.executed, pc.o.proposed, a, MAX_ACTIONS);
    } else {
      OneMoreProposed(s.held, s.direct, pc.o.executed, pc.o.proposed, a, MAX_ACTIONS);
    }
  }

  /** What is known of a draft when it is decided about. */
  ghost predicate Recorded(env: Env, receipts: seq<Entry>, d: Draft, appended: bool, receiptSeq: nat) {
    if appended then env.receiptsEnabled && RowAt(receipts, receiptSeq, DecisionEntry(d.judged.outcome,
                                                                                    DraftPayload(d.proposal)))
    else receiptSeq == 0
  }

  lemma {:induction false} BirthOfDraft(env: Env, s: Sys, base: nat, o: Object, d: Draft, appended: bool,
                                        receiptSeq: nat)
    requires Local(s, base, o) && d.seen == base && JudgedOn(env, o, d) && FreeToAsk(o)
    requires Recorded(env, s.receipts, d, appended, receiptSeq) && ContentOf(d, receiptSeq).Some?
    requires var r := Decision.AfterReceipt(env.receiptsEnabled, env.receiptsRequired, appended,
                                            env.findingText(Invariants.Receipts), d.layers, d.judged);
             r.outcome == Decision.RequireApproval || (r.outcome == Decision.Deny && o.spec.opaPolicy != Some(STRICT))
    ensures HasBirth(env, s.hist, s.receipts, Birth(ContentOf(d, receiptSeq).value, FrozenOf(o.spec)))
  {
    Decision.ReceiptOnlyTightens(env.receiptsEnabled, env.receiptsRequired, appended,
                                 env.findingText(Invariants.Receipts), d.layers, d.judged);
    JudgedMeans(env, o, d);
    hide JudgedOn, DecidedAs, Decision.AfterReceipt, ProposalFacts, FreeToAsk;
    assert BornFrom(env, s.hist, s.receipts, base, d.proposal, d.noise, d.judged.outcome,
                    Birth(ContentOf(d, receiptSeq).value, FrozenOf(o.spec)));
  }

  lemma {:induction false} AfterDecisionHonest(env: Env, s: Sys, base: nat, o: Object, d: Draft, appended: bool,
                                               receiptSeq: nat)
    requires Local(s, base, o) && d.seen == base && JudgedOn(env, o, d) && FreeToAsk(o)
    requires ListsTrue(s.held, s.direct, o.executed, o.proposed)
    requires Recorded(env, s.receipts, d, appended, receiptSeq)
    ensures Honest(env, s, AfterDecision(env, base, o, d, appended, receiptSeq))
  {
    hide JudgedOn, Decision.AfterReceipt, ListsTrue, HasBirth, ContentOf, Latest, FrozenOf, Recorded, FreeToAsk;
    var a := Action(d.proposal.action, d.proposal.description, d.proposal.confidenceText, false);
    OneMoreProposed(s.held, s.direct, o.executed, o.proposed, a, MAX_ACTIONS);
    var pc := AfterDecision(env, base, o, d, appended, receiptSeq);
    if pc.Writing? && pc.kind.Final? && pc.kind.pending.Some? {
      BirthOfDraft(env, s, base, o, d, appended, receiptSeq);
    }
  }

  /** A reconciler's own copy is a stored version. */
  lemma {:induction false} CopyIsTrue(env: Env, s: Sys, base: nat, o: Object)
    requires AllTrue(env, s) && Local(s, base, o)
    ensures StatusTrue(env, s, o) && ListsTrue(s.held, s.direct, o.executed, o.proposed)
  {
    hide ProcsHonest, BirthsTrue, DirectsFree, ListsTrue, OutcomeTrue, NoteTrue, StateTrue;
  }

  lemma {:induction false} CopyReads(env: Env, uid: string, s: Sys, base: nat, o: Object)
    requires Inv(env, uid, s) && Local(s, base, o)
    ensures o.pending.Some? ==>
              Approval.Read(env.codec, env.hashes, o.ann, RefOf(env.hashes, o.uid, o.pending.value.content),
                            env.key).Ok?
  {
    hide ProcsOk, CallsOk, CurrentOk, CalledIds, Replies, Distinct, EndOk, Approval.Read, PendingOk, RefOf,
         ApprovalProofs.StampOk;
    assert VersionOk(env, uid, s.born, s.hist[base]);
    assert BirthsNamed(s.born);
    hide BooksOk, VersionsOk;
    if o.pending.Some? {
      VersionReads(env, uid, s.born, o);
    }
  }

  // --------------------------------------------------------------- every step

  lemma {:induction false} GateHonest(env: Env, uid: string, s: Sys, pid: nat, pc: Pc, gate: Gate)
    requires Inv(env, uid, s) && AllTrue(env, s) && PcOk(env, s, pid, pc) && pc.Fetched?
    ensures AllTrue(env, Move(s, pid, Resume(env, pc, Opened(gate))))
  {
    hide Inv, StatusTrue, ListsTrue, AllTrue, AfterGate, Approval.Read, Consumed, RefOf;
    CopyIsTrue(env, s, pc.base, pc.o);
    CopyReads(env, uid, s, pc.base, pc.o);
    if gate.Pass? {
      AfterGateHonest(env, s, pc.base, pc.o, gate.noise);
    }
    assert Honest(env, s, Resume(env, pc, Opened(gate)));
    hide Honest, Resume;
    MovedTrue(env, s, pid, Resume(env, pc, Opened(gate)));
  }

  lemma {:induction false} AskHonest(env: Env, s: Sys, t: Sys, pid: nat, pc: Pc, answer: Answer)
    requires AllTrue(env, s) && PcOk(env, s, pid, pc) && Placed(pc) && pc.Asking?
    requires t == s.(minted := t.minted)
    ensures AllTrue(env, Move(t, pid, Resume(env, pc, Answered(answer))))
  {
    CopyIsTrue(env, s, pc.base, pc.o);
    hide ListsTrue, StatusTrue, VersionsTrue, ProcsHonest, BirthsTrue, DirectsFree, HasBirth, AfterDecision, DraftOf,
         FreeToAsk;
    var o := pc.o;
    if answer.Proposed? {
      var d := DraftOf(env, pc.base, o.spec, HistoryOf(o.executed, o.proposed), answer.proposal, answer.id, pc.noise);
      DraftIsJudged(env, pc.base, o, answer.proposal, answer.id, pc.noise);
      AfterDecisionHonest(env, s, pc.base, o, d, false, 0);
    }
    assert Honest(env, s, Resume(env, pc, Answered(answer)));
    hide Honest, AllTrue, Resume;
    HonestGrows(env, s, t, Resume(env, pc, Answered(answer)));
    MintedTrue(env, s, t);
    MovedTrue(env, t, pid, Resume(env, pc, Answered(answer)));
  }

  lemma {:induction false} DraftIsJudged(env: Env, seen: nat, o: Object, p: Proposal, id: string, noise: Noise)
    ensures var d := DraftOf(env, seen, o.spec, HistoryOf(o.executed, o.proposed), p, id, noise);
            JudgedOn(env, o, d) && d.seen == seen && d.proposal == p && d.id == id
  {
    hide Evaluate, Judge;
  }

  lemma {:induction false} MintedTrue(env: Env, s: Sys, t: Sys)
    requires AllTrue(env, s) && t == s.(minted := t.minted)
    ensures AllTrue(env, t)
  {
    hide StatusTrue, HasBirth, FreeToAsk, Honest;
    TrueGrows(env, s, t);
  }

  /** A longer receipt log. */
  lemma {:induction false} ReceiptsTrue(env: Env, s: Sys, receipts: seq<Entry>)
    requires AllTrue(env, s) && s.receipts <= receipts
    ensures AllTrue(env, s.(receipts := receipts))
  {
    hide StatusTrue, HasBirth, FreeToAsk, Honest;
    TrueGrows(env, s, s.(receipts := receipts));
  }

  lemma {:induction false} AfterAppendHonest(env: Env, t: Sys, pid: nat, pc: Pc, r: Response)
    requires pc.HumanReceipt? || pc.DenyReceipt? || pc.DecisionReceipt?
    requires PcOk(env, t, pid, pc) && Placed(pc) && StatusTrue(env, t, pc.o) && Honest(env, t, pc)
    requires (r.Stored? || r.NotStored?) && (r.Stored? ==> RowAt(t.receipts, r.seqNo, EntryOf(pc)))
    ensures Honest(env, t, Resume(env, pc, r))
  {
    hide StatusTrue, ListsTrue, HasBirth, Holding, AfterHumanReceipt, AfterDecision, JudgedOn, FreeToAsk, HoldFrom,
    Noted, DeniedFinish;
    match pc
    case HumanReceipt(base, o, h) =>
      if r.Stored? || !env.receiptsRequired {
        AfterHumanRowHonest(env, t, base, o, h, if r.Stored? then r.seqNo else 0);
      }
      HoldFromHonest(env, t, base, o);
    case DenyReceipt(base, o, h, receiptSeq, other) =>
      RejectedHonest(env, t, base, o, h, receiptSeq, other);
    case DecisionReceipt(base, o, d) =>
      CopyLists(env, t, o);
      AfterDecisionHonest(env, t, base, o, d, r.Stored?, if r.Stored? then r.seqNo else 0);
  }

  lemma {:induction false} CopyLists(env: Env, s: Sys, o: Object)
    requires StatusTrue(env, s, o)
    ensures ListsTrue(s.held, s.direct, o.executed, o.proposed)
  {
    hide ListsTrue, OutcomeTrue, NoteTrue, StateTrue;
  }

  lemma {:induction false} AfterHumanRowHonest(env: Env, s: Sys, base: nat, o: Object, h: Handled, receiptSeq: nat)
    requires StatusTrue(env, s, o) && Local(s, base, o) && Holding(env, o, h, Recording)
    requires receiptSeq > 0 ==> RowAt(s.receipts, receiptSeq, HumanRow(h))
    requires env.receiptsEnabled && env.receiptsRequired ==> receiptSeq > 0
    ensures Honest(env, s, AfterHumanReceipt(env, base, o, h, receiptSeq, o.other))
  {
    hide StatusTrue, Holding, AfterHumanReceipt, VerifiedDecision, Names, HumanRow, RowReports;
    HoldingMeans(env, o, h, Recording);
    if receiptSeq > 0 {
      RowIsReported(s.receipts, receiptSeq, h);
    }
    AfterReceiptHonest(env, s, base, o, h, receiptSeq, o.other);
  }

  lemma {:induction false} HoldFromHonest(env: Env, s: Sys, base: nat, o: Object)
    ensures Honest(env, s, HoldFrom(base, o, Release(RECEIPT_FAILED)))
  {
  }

  lemma {:induction false} AppendTrue(env: Env, s: Sys, pid: nat, pc: Pc, reply: Reply)
    requires AllTrue(env, s) && PcOk(env, s, pid, pc) && Placed(pc) && reply.AppendReply?
    requires pc.HumanReceipt? || pc.DenyReceipt? || pc.DecisionReceipt?
    requires Honest(env, s, pc)
    ensures AllTrue(env, AppendStep(env, s, pid, pc, reply))
  {
    hide StatusTrue, AllTrue, Honest, Resume, EntryOf, PcOk;
    var receipts := if reply.stored then s.receipts + [EntryOf(pc)] else s.receipts;
    var t := s.(receipts := receipts);
    var r := if reply.stored && reply.seen then Stored(|receipts|) else NotStored;
    StaysOk(env, s, t, pid, pc);
    ReceiptsTrue(env, s, receipts);
    assert Local(t, pc.base, pc.o) by { ReceiverIsLocal(env, t, pid, pc); }
    CopyIsTrue(env, t, pc.base, pc.o);
    HonestGrows(env, s, t, pc);
    AfterAppendHonest(env, t, pid, pc, r);
    MovedTrue(env, t, pid, Resume(env, pc, r));
  }

  lemma {:induction false} ReceiverIsLocal(env: Env, s: Sys, pid: nat, pc: Pc)
    requires PcOk(env, s, pid, pc)
    requires pc.HumanReceipt? || pc.DenyReceipt? || pc.DecisionReceipt? || pc.StoringExample?
    ensures Local(s, pc.base, pc.o)
  {
    hide Holding, JudgedOn, HumanRow, Local;
  }

  lemma {:induction false} StaysOk(env: Env, s: Sys, t: Sys, pid: nat, pc: Pc)
    requires PcOk(env, s, pid, pc) && s.receipts <= t.receipts && t == s.(receipts := t.receipts)
    ensures PcOk(env, t, pid, pc)
  {
    hide PcOk, CalledIds, Replies;
    assert Grows(s, t, {});
    hide Grows;
    PcOkGrows(env, s, t, {}, pid, pc);
  }

  lemma {:induction false} ExampleTrue(env: Env, s: Sys, pid: nat, pc: Pc, reply: Reply)
    requires AllTrue(env, s) && PcOk(env, s, pid, pc) && pc.StoringExample? && reply.ExampleReply?
    ensures AllTrue(env, ExampleStep(env, s, pid, pc, reply))
  {
    hide StatusTrue, AllTrue, Holding, HumanRow, AfterHumanReceipt, AfterExample;
    var r := if reply.stored && reply.seen then Kept else NotKept;
    StoredHonest(env, s, pid, pc, AfterExample(pc.o.other, r.Kept?));
    assert Honest(env, s, Resume(env, pc, r));
    var t := if reply.stored then s.(examples := s.examples + [Labelled(pc.h, pc.base, pc.receiptSeq)]) else s;
    hide Honest, Resume, PcOk;
    ExamplesTrue(env, s, t);
    HonestGrows(env, s, t, Resume(env, pc, r));
    MovedTrue(env, t, pid, Resume(env, pc, r));
  }

  lemma {:induction false} StoredHonest(env: Env, s: Sys, pid: nat, pc: Pc, other: string)
    requires AllTrue(env, s) && PcOk(env, s, pid, pc) && pc.StoringExample?
    ensures Honest(env, s, AfterHumanReceipt(env, pc.base, pc.o, pc.h, pc.receiptSeq, other))
  {
    hide StatusTrue, AllTrue, Holding, HumanRow, AfterHumanReceipt, RowReports, VerifiedDecision, Names;
    CopyIsTrue(env, s, pc.base, pc.o);
    HoldingMeans(env, pc.o, pc.h, Recording);
    RowIsReported(s.receipts, pc.receiptSeq, pc.h);
    AfterReceiptHonest(env, s, pc.base, pc.o, pc.h, pc.receiptSeq, other);
  }

  lemma {:induction false} ExamplesTrue(env: Env, s: Sys, t: Sys)
    requires AllTrue(env, s) && t == s.(examples := t.examples)
    ensures AllTrue(env, t)
  {
    hide StatusTrue, HasBirth, FreeToAsk, Honest;
    TrueGrows(env, s, t);
  }

  lemma {:induction false} CallTrue(env: Env, s: Sys, pid: nat, pc: Pc, ok: bool)
    requires AllTrue(env, s) && PcOk(env, s, pid, pc) && pc.Calling? && Honest(env, s, pc)
    ensures AllTrue(env, CallStep(env, s, pid, pc, ok))
  {
    hide StatusTrue, Honest, Resume, AllTrue, PcOk, PayloadOf, Holding;
    var t := s.(held := s.held + [HeldCall(pc.h, pc.base, |s.receipts|, ok)]);
    CallerPays(env, s, pid, pc);
    LongerTrue(env, s, t);
    CopyIsTrue(env, t, pc.base, pc.o);
    HonestGrows(env, s, t, pc);
    CalledHonest(env, t, pc, ok);
    MovedTrue(env, t, pid, Resume(env, pc, Returned(ok)));
  }

  lemma {:induction false} LongerTrue(env: Env, s: Sys, t: Sys)
    requires AllTrue(env, s) && Longer(s, t) && t == s.(held := t.held, direct := t.direct)
    requires forall i | |s.direct| <= i < |t.direct| :: DirectFree(t.hist, t.direct[i])
    ensures AllTrue(env, t)
  {
    hide StatusTrue, HasBirth, FreeToAsk, Honest;
    TrueGrows(env, s, t);
  }

  lemma {:induction false} DirectCallTrue(env: Env, s: Sys, pid: nat, pc: Pc, ok: bool)
    requires AllTrue(env, s) && PcOk(env, s, pid, pc) && Placed(pc) && pc.DirectCalling?
    ensures AllTrue(env, CallStep(env, s, pid, pc, ok))
  {
    var t := s.(direct := s.direct + [DirectCall(pc.d, pc.base, |s.receipts|, ok)]);
    assert Local(s, pc.base, pc.o) && FreeToAsk(pc.o) by { hide ReservedOn; }
    hide StatusTrue, Honest, Resume, FreeToAsk, AllTrue, PcOk, Placed;
    LongerTrue(env, s, t);
    CopyIsTrue(env, t, pc.base, pc.o);
    DirectCalledHonest(env, t, pc, ok);
    MovedTrue(env, t, pid, Resume(env, pc, Returned(ok)));
  }

  lemma {:induction false} CallerPays(env: Env, s: Sys, pid: nat, pc: Pc)
    requires pc.Calling? && PcOk(env, s, pid, pc)
    ensures pc.h.payload == PayloadOf(pc.h.target, pc.h.content) && Local(s, pc.base, pc.o)
    ensures Holding(env, pc.o, pc.h, Executing)
  {
    hide Consumed, BlockedBy, Approval.Read, TargetOf, PayloadOf, CommittedBy, Witnessed;
  }

  /** What a write stores, and what is booked with it. */
  lemma {:induction false} OutIsTrue(env: Env, s: Sys, pid: nat, pc: Pc)
    requires pc.Writing? && Honest(env, s, pc) && StatusTrue(env, s, pc.o) && Local(s, pc.base, pc.o)
    requires WriteOk(env, s, pid, pc.base, pc.o, pc.kind, pc.next)
    ensures StatusTrue(env, s, Out(pc.o, pc.kind))
  {
    hide WriteOk, StateTrue, Honest, Out;
    OutStateTrue(env, s, pid, pc);
    OutTold(env, s, pc);
    hide ListsTrue, OutcomeTrue, NoteTrue;
  }

  lemma {:induction false} OutTold(env: Env, s: Sys, pc: Pc)
    requires pc.Writing? && Honest(env, s, pc) && StatusTrue(env, s, pc.o)
    ensures var o := Out(pc.o, pc.kind);
            && ListsTrue(s.held, s.direct, o.executed, o.proposed)
            && (o.last.Some? ==> OutcomeTrue(env, s.hist, s.receipts, o.last.value))
            && (o.note.Some? ==> NoteTrue(s.hist, o.note.value))
  {
    hide StateTrue, ListsTrue, HasBirth, Latest, OutcomeTrue, NoteTrue, Noted;
  }

  lemma {:induction false} OutStateTrue(env: Env, s: Sys, pid: nat, pc: Pc)
    requires pc.Writing? && Honest(env, s, pc) && StateTrue(env, s.hist, pc.o) && Local(s, pc.base, pc.o)
    requires WriteOk(env, s, pid, pc.base, pc.o, pc.kind, pc.next)
    ensures StateTrue(env, s.hist, Out(pc.o, pc.kind))
  {
    hide Holding, VerifiedDecision, Names, ListsTrue, HasBirth, Latest, OutcomeTrue, NoteTrue, Noted, JudgedOn,
    AllowRow, HumanRow, Witnessed, Passes, Ends, Replies;
    match pc.kind
    case Record(verdict) =>
      var h := pc.next.h;
      HoldingMeans(env, pc.o, h, if Holding(env, pc.o, h, Idle) then Idle else Recording);
      assert ReadOn(env, s.hist, pc.base, h.decision, Out(pc.o, pc.kind).pending.value);
    case Execute(_) =>
      HoldingState(env, pc.o, pc.next.h, Recording);
      SameState(env, s.hist, pc.o, Out(pc.o, pc.kind));
    case Finish(_, _, _, _, _, _) =>
    case Final(_, _, _, _) =>
    case Release(_) =>
    case _ =>
      SameState(env, s.hist, pc.o, Out(pc.o, pc.kind));
  }

  lemma {:induction false} SameState(env: Env, hist: seq<Object>, o: Object, o': Object)
    requires StateTrue(env, hist, o) && o'.last == o.last && o'.consumed == o.consumed
    requires o.pending.Some? <==> o'.pending.Some?
    requires o.pending.Some? ==>
               && o'.pending.value.content == o.pending.value.content
               && o'.pending.value.decision == o.pending.value.decision
               && (o'.pending.value.state != Idle ==> o.pending.value.state != Idle)
    ensures StateTrue(env, hist, o')
  {
    hide VerifiedDecision;
    if o'.pending.Some? && o'.pending.value.state != Idle && !DecidedBefore(o', o'.pending.value.content.id) {
      var w: nat, d :| ReadOn(env, hist, w, d, o.pending.value);
      assert ReadOn(env, hist, w, d, o'.pending.value);
    }
  }

  lemma {:induction false} HoldingState(env: Env, o: Object, h: Handled, state: Progress)
    requires Holding(env, o, h, state)
    ensures o.pending.Some? && o.pending.value.state == state
  {
    hide Handles, Consumed;
  }

  lemma {:induction false} BookedFrame(s: Sys, pid: nat, o: Object, k: Kind, w: nat)
    ensures var t := Booked(s, pid, o, k, w);
            t == s.(commits := t.commits, owner := t.owner, finished := t.finished, ends := t.ends, born := t.born)
  {
  }

  lemma {:induction false} BookedBirths(env: Env, s: Sys, pid: nat, pc: Pc, w: nat)
    requires pc.Writing? && Honest(env, s, pc)
    ensures var born := Booked(s, pid, pc.o, pc.kind, w).born;
            forall id | id in born && !(id in s.born && born[id] == s.born[id]) ::
              HasBirth(env, s.hist, s.receipts, born[id])
  {
    hide ListsTrue, HasBirth, FrozenOf, OutcomeTrue, NoteTrue, Noted;
    BirthIsBooked(s, pid, pc.o, pc.kind, w);
    hide Booked;
  }

  lemma {:induction false} BirthIsBooked(s: Sys, pid: nat, o: Object, k: Kind, w: nat)
    ensures Booked(s, pid, o, k, w).born ==
            if k.Final? && k.pending.Some? then
              s.born[k.pending.value.content.id := Birth(k.pending.value.content, FrozenOf(o.spec))]
            else s.born
  {
    hide FrozenOf;
  }

  lemma {:induction false} WrittenTrue(env: Env, s: Sys, pid: nat, pc: Pc, hist: seq<Object>, w: nat)
    requires AllTrue(env, s) && pc.Writing? && Honest(env, s, pc) && Local(s, pc.base, pc.o)
    requires WriteOk(env, s, pid, pc.base, pc.o, pc.kind, pc.next) && Extends(s.hist, hist, Out(pc.o, pc.kind))
    ensures AllTrue(env, Booked(s.(hist := hist), pid, pc.o, pc.kind, w))
  {
    hide StatusTrue, HasBirth, FreeToAsk, Honest, Out, Booked, AllTrue, WriteOk;
    var s1 := s.(hist := hist);
    var t := Booked(s1, pid, pc.o, pc.kind, w);
    CopyIsTrue(env, s, pc.base, pc.o);
    OutIsTrue(env, s, pid, pc);
    HonestGrows(env, s, s1, pc);
    BookedBirths(env, s1, pid, pc, w);
    BookedFrame(s1, pid, pc.o, pc.kind, w);
    StatusGrows(env, s, t, Out(pc.o, pc.kind));
    TrueGrows(env, s, t);
  }

  lemma {:induction false} AfterWriteHonest(env: Env, s: Sys, t: Sys, pid: nat, pc: Pc, w: nat)
    requires pc.Writing? && WriteOk(env, s, pid, pc.base, pc.o, pc.kind, pc.next) && Honest(env, t, pc)
    requires Local(t, w, Out(pc.o, pc.kind)) && StatusTrue(env, t, Out(pc.o, pc.kind))
    ensures Honest(env, t, AfterWrite(env, w, Out(pc.o, pc.kind), pc.next))
  {
    hide StatusTrue, AfterHumanReceipt, Handles, Consumed, JudgedOn, HumanRow, AllowRow, Latest, Passes, Noted,
    NoteTrue, RowReports;
    if pc.next.ToReceipt? && !env.receiptsEnabled {
      var h := pc.next.h;
      HoldingKept(env, pc.o, h, if Holding(env, pc.o, h, Idle) then Idle else Recording, Recording, pc.kind.verdict);
      NotedNone(env, t.receipts, h);
      AfterReceiptHonest(env, t, w, Out(pc.o, pc.kind), h, 0, Out(pc.o, pc.kind).other);
    }
  }

  lemma {:induction false} NotedNone(env: Env, receipts: seq<Entry>, h: Handled)
    requires !env.receiptsEnabled
    ensures Noted(env, receipts, 0, h)
  {
  }

  lemma {:induction false} AppliedTrue(env: Env, s: Sys, pid: nat, pc: Pc, hist: seq<Object>, r: Response)
    requires AllTrue(env, s) && pc.Writing? && Honest(env, s, pc) && Local(s, pc.base, pc.o)
    requires WriteOk(env, s, pid, pc.base, pc.o, pc.kind, pc.next)
    requires Extends(s.hist, hist, Out(pc.o, pc.kind)) && |hist| > 0
    requires r == Written(|hist| - 1) || r == Refused
    ensures AllTrue(env, Move(Booked(s.(hist := hist), pid, pc.o, pc.kind, |hist| - 1), pid, Resume(env, pc, r)))
  {
    hide Honest, Out, Booked, Move, AfterWrite, Extends, AllTrue, Local, WriteOk, StatusTrue;
    ExtendsEnds(s.hist, hist, Out(pc.o, pc.kind));
    var w := |hist| - 1;
    var t := Booked(s.(hist := hist), pid, pc.o, pc.kind, w);
    WrittenTrue(env, s, pid, pc, hist, w);
    BookedFrame(s.(hist := hist), pid, pc.o, pc.kind, w);
    LocalMeans(t, w);
    CopyIsTrue(env, t, w, Out(pc.o, pc.kind));
    assert Longer(s, t) by { ExtendsLonger(s.hist, hist, Out(pc.o, pc.kind)); }
    HonestGrows(env, s, t, pc);
    AfterWriteHonest(env, s, t, pid, pc, w);
    DoneIsHonest(env, t);
    MovedTrue(env, t, pid, Resume(env, pc, r));
  }

  lemma {:induction false} ExtendsLonger(past: seq<Object>, hist: seq<Object>, out: Object)
    requires Extends(past, hist, out)
    ensures past <= hist
  {
  }

  lemma {:induction false} LocalMeans(s: Sys, base: nat)
    requires base < |s.hist|
    ensures Local(s, base, s.hist[base])
  {
  }

  lemma {:induction false} WriteTrue(env: Env, uid: string, s: Sys, pid: nat, pc: Pc, reply: Reply)
    requires Inv(env, uid, s) && AllTrue(env, s) && PcOk(env, s, pid, pc) && pc.Writing? && reply.WriteReply?
    requires Honest(env, s, pc)
    ensures AllTrue(env, WriteStep(env, s, pid, pc, reply))
  {
    assert WriteOk(env, s, pid, pc.base, pc.o, pc.kind, pc.next) by { hide Inv, AllTrue, Honest, WriteOk; }
    hide Inv, Honest, Out, Booked, Move, Resume, CanWrite, Store, Extends, AllTrue, PcOk, Local, WriteOk;
    WriterIsLocal(env, uid, s, pid, pc);
    if reply.applied && CanWrite(s, pc, reply.bumped) {
      StoreEndsWith(s, pc, reply.bumped);
      StoreIsNotEmpty(s, pc, reply.bumped);
      var hist := Store(s.hist, Out(pc.o, pc.kind), reply.bumped);
      AppliedTrue(env, s, pid, pc, hist, if reply.seen then Written(|hist| - 1) else Refused);
    } else {
      RefusedTrue(env, s, pid, pc);
    }
  }

  lemma {:induction false} RefusedTrue(env: Env, s: Sys, pid: nat, pc: Pc)
    requires AllTrue(env, s) && pc.Writing?
    ensures AllTrue(env, Move(s, pid, Resume(env, pc, Refused)))
  {
    hide AllTrue, Move, Honest;
    DoneIsHonest(env, s);
    MovedTrue(env, s, pid, Done);
  }

  lemma {:induction false} DoneIsHonest(env: Env, s: Sys)
    ensures Honest(env, s, Done)
  {
  }

  lemma {:induction false} ExtendsEnds(past: seq<Object>, hist: seq<Object>, out: Object)
    requires Extends(past, hist, out)
    ensures hist != [] && hist[|hist| - 1] == out
  {
  }

  lemma {:induction false} AnswerTrue(env: Env, s: Sys, pid: nat, pc: Pc, answer: Answer)
    requires AllTrue(env, s) && PcOk(env, s, pid, pc) && Placed(pc) && pc.Asking?
    ensures AllTrue(env, ProcStep(env, s, pid, pc, AskReply(answer)))
  {
    hide AllTrue, PcOk, Placed, Resume, Move;
    AskHonest(env, s, s, pid, pc, answer);
    if answer.Proposed? {
      AskHonest(env, s, s.(minted := s.minted[answer.id := pid]), pid, pc, answer);
    }
  }

  lemma {:induction false} ProcIsTrue(env: Env, uid: string, s: Sys, pid: nat)
    requires Inv(env, uid, s) && AllPlaced(s) && AllTrue(env, s) && pid in s.procs
    ensures PcOk(env, s, pid, s.procs[pid]) && Placed(s.procs[pid]) && Honest(env, s, s.procs[pid])
  {
    hide PcOk, Placed, Honest, VersionsOk, BooksOk, CurrentOk, CallsOk, VersionsTrue, BirthsTrue, DirectsFree;
  }

  lemma {:induction false} ProcStepTrue(env: Env, uid: string, s: Sys, pid: nat, reply: Reply)
    requires Inv(env, uid, s) && AllPlaced(s) && AllTrue(env, s) && pid in s.procs
    ensures AllTrue(env, ProcStep(env, s, pid, s.procs[pid], reply))
  {
    var pc := s.procs[pid];
    ProcIsTrue(env, uid, s, pid);
    hide Inv, PcOk, Placed, Honest, AllPlaced, AllTrue, Resume, WriteStep, AppendStep, ExampleStep, CallStep, Move;
    match reply
    case GateReply(gate) =>
      if pc.Fetched? {
        GateHonest(env, uid, s, pid, pc, gate);
      }
    case WriteReply(_, _, _) =>
      if pc.Writing? {
        WriteTrue(env, uid, s, pid, pc, reply);
      }
    case AppendReply(_, _) =>
      if pc.HumanReceipt? || pc.DenyReceipt? || pc.DecisionReceipt? {
        AppendTrue(env, s, pid, pc, reply);
      }
    case ExampleReply(_, _) =>
      if pc.StoringExample? {
        ExampleTrue(env, s, pid, pc, reply);
      }
    case CallReply(ok) =>
      if pc.Calling? {
        CallTrue(env, s, pid, pc, ok);
      } else if pc.DirectCalling? {
        DirectCallTrue(env, s, pid, pc, ok);
      }
    case AskReply(answer) =>
      if pc.Asking? {
        AnswerTrue(env, s, pid, pc, answer);
      }
  }

  /** A version made outside the controller keeps lists, outcome and condition. */
  lemma {:induction false} OutsideTrue(env: Env, s: Sys, o: Object)
    requires AllTrue(env, s) && s.hist != []
    requires o.executed == Current(s).executed && o.proposed == Current(s).proposed
    requires o.last == Current(s).last && o.consumed == Current(s).consumed && o.note == Current(s).note
    requires o.pending == Current(s).pending ||
             (o.pending.Some? && DecidedBefore(Current(s), o.pending.value.content.id))
    ensures AllTrue(env, s.(hist := s.hist + [o]))
  {
    hide StatusTrue, HasBirth, FreeToAsk, Honest, AllTrue;
    CopyIsTrue(env, s, |s.hist| - 1, Current(s));
    SameStatus(env, s, Current(s), o);
    StatusGrows(env, s, s.(hist := s.hist + [o]), o);
    TrueGrows(env, s, s.(hist := s.hist + [o]));
  }

  lemma {:induction false} SameStatus(env: Env, s: Sys, o: Object, o': Object)
    requires StatusTrue(env, s, o)
    requires o'.executed == o.executed && o'.proposed == o.proposed && o'.last == o.last && o'.note == o.note
    requires o'.consumed == o.consumed
    requires o'.pending == o.pending || (o'.pending.Some? && DecidedBefore(o, o'.pending.value.content.id))
    ensures StatusTrue(env, s, o')
  {
    hide ListsTrue, OutcomeTrue, NoteTrue;
  }

  lemma {:induction false} FewerTrue(env: Env, s: Sys, t: Sys)
    requires AllTrue(env, s) && t == s.(procs := t.procs)
    requires forall pid | pid in t.procs :: Honest(env, s, t.procs[pid])
    ensures AllTrue(env, t)
  {
    hide ListsTrue, HasBirth, FreeToAsk;
  }

  lemma {:induction false} ClientTrue(env: Env, s: Sys, r: Webhook.Request)
    requires AllTrue(env, s) && s.hist != []
    ensures AllTrue(env, Apply(env, s, Client(r)))
  {
    hide AllTrue, Approval.Admitted, Webhook.ValidateUpdate;
    var out := Webhook.Admitted(env.codec, env.hashes, env.key, env.validSpec, Current(s), r);
    if out.Some? {
      OutsideTrue(env, s, out.value);
    }
  }

  lemma {:induction false} CrashTrue(env: Env, s: Sys, pid: nat)
    requires AllTrue(env, s)
    ensures AllTrue(env, s.(procs := s.procs - {pid}))
  {
    hide Honest, VersionsTrue, BirthsTrue, DirectsFree;
    assert forall k | k in s.procs - {pid} :: s.procs[k] == (s.procs - {pid})[k];
    FewerTrue(env, s, s.(procs := s.procs - {pid}));
  }

  lemma {:induction false} FetchTrue(env: Env, s: Sys, pid: nat, base: nat, o: Object)
    requires AllTrue(env, s)
    ensures AllTrue(env, Move(s, pid, Fetched(base, o)))
  {
    assert Honest(env, s, Fetched(base, o));
    hide AllTrue, Honest;
    MovedTrue(env, s, pid, Fetched(base, o));
  }

  lemma {:induction false} RestoreTrue(env: Env, s: Sys, id: string, state: Progress, decision: string, phase: string)
    requires AllTrue(env, s) && s.hist != [] && (id in s.born ==> s.born[id].content.id == id)
    ensures AllTrue(env, Apply(env, s, Restore(id, state, decision, phase)))
  {
    hide AllTrue;
    if id in s.born && Consumed(Current(s).last, Current(s).consumed, id) {
      assert DecidedBefore(Current(s), s.born[id].content.id);
      var pending := PendingApproval(s.born[id].content, state, decision);
      OutsideTrue(env, s, Current(s).(pending := Some(pending), phase := phase));
    }
  }

  lemma {:induction false} StepTrue(env: Env, uid: string, s: Sys, a: Label)
    requires Inv(env, uid, s) && AllPlaced(s) && AllTrue(env, s)
    ensures AllTrue(env, Apply(env, s, a))
  {
    hide Inv, AllPlaced, AllTrue, ProcStep, Webhook.Admitted, Restored, Consumed, Move;
    SomethingIsStored(env, uid, s);
    match a
    case Start(pid, version) =>
      if version < |s.hist| {
        FetchTrue(env, s, pid, version, s.hist[version]);
      }
    case Crash(pid) => CrashTrue(env, s, pid);
    case Client(r) => ClientTrue(env, s, r);
    case Restore(id, state, decision, phase) =>
      if id in s.born {
        ProtocolLimits.BornNamed(env, uid, s, id);
      }
      RestoreTrue(env, s, id, state, decision, phase);
    case Step(pid, reply) =>
      if pid in s.procs {
        ProcStepTrue(env, uid, s, pid, reply);
      }
  }

  lemma {:induction false} RunTrue(env: Env, o: Object, labels: seq<Label>)
    requires Governance.Lawful(env) && Fresh(env, o)
    ensures AllTrue(env, Run(env, o, labels))
  {
    hide Apply, Inv, AllPlaced, Governance.Lawful;
    if labels != [] {
      var init, a := labels[..|labels| - 1], labels[|labels| - 1];
      RunTrue(env, o, init);
      hide AllTrue, Fresh;
      RunInvariant(env, o, init);
      RunPlaced(env, o, init);
      StepTrue(env, o.uid, Run(env, o, init), a);
    }
  }

  /** In every version of every run, each action listed as executed was called, with
      that name, description and confidence, and succeeded; and nothing in the list
      of proposed actions is marked as approved, so that all of it counts as denied
      in the history that policies see. */
  lemma {:induction false} ListsAreTrue(env: Env, o: Object, labels: seq<Label>, v: nat)
    requires Governance.Lawful(env) && Fresh(env, o) && v < |Run(env, o, labels).hist|
    ensures var s := Run(env, o, labels);
            && ListsTrue(s.held, s.direct, s.hist[v].executed, s.hist[v].proposed)
            && |NotApproved(s.hist[v].proposed)| == |s.hist[v].proposed|
  {
    hide Run, Fresh, Governance.Lawful, WasDone, ProcsHonest, BirthsTrue, DirectsFree, OutcomeTrue, NoteTrue;
    RunTrue(env, o, labels);
    var proposed := Run(env, o, labels).hist[v].proposed;
    AllNotApproved(proposed);
  }

  lemma {:induction false} AllNotApproved(proposed: seq<Action>)
    requires forall i | 0 <= i < |proposed| :: !proposed[i].approved
    ensures |NotApproved(proposed)| == |proposed|
  {
    if proposed != [] {
      var init, n := proposed[..|proposed| - 1], |proposed| - 1;
      AllNotApproved(init);
      assert NotApproved(proposed) == NotApproved(init) + {n};
    }
  }

  /** In every version of every run, the last outcome names the decision that was
      read for that action, who took it and its receipt, unless it is unknown, and the
      condition tells what happened; no run ever reports a missing or wrong stamp. */
  lemma {:induction false} StatusIsTrue(env: Env, o: Object, labels: seq<Label>, v: nat)
    requires Governance.Lawful(env) && Fresh(env, o) && v < |Run(env, o, labels).hist|
    ensures var s := Run(env, o, labels);
            && (s.hist[v].last.Some? ==> OutcomeTrue(env, s.hist, s.receipts, s.hist[v].last.value))
            && (s.hist[v].note.Some? ==> NoteTrue(s.hist, s.hist[v].note.value))
            && StateTrue(env, s.hist, s.hist[v])
  {
    hide Run, Fresh, Governance.Lawful, ListsTrue, ProcsHonest, BirthsTrue, DirectsFree, OutcomeTrue, NoteTrue,
    StateTrue;
    RunTrue(env, o, labels);
  }

  /** Every pending action that was ever stored, in any run, is a proposal that was
      decided on a stored version without a waiting action, with everything stored of
      it, and under the strict mode one that needed an approval: what the layers
      deny is never held there. */
  lemma {:induction false} BirthsAreDecided(env: Env, o: Object, labels: seq<Label>, id: string)
    requires Governance.Lawful(env) && Fresh(env, o) && id in Run(env, o, labels).born
    ensures var s := Run(env, o, labels);
            s.born[id].content.id == id && HasBirth(env, s.hist, s.receipts, s.born[id])
  {
    hide Run, Fresh, Governance.Lawful, HasBirth, ProcsHonest, VersionsTrue, DirectsFree, VersionsOk, CurrentOk,
         ProcsOk, CallsOk, CalledIds, Replies, EndOk, Distinct;
    RunTrue(env, o, labels);
    RunInvariant(env, o, labels);
  }

  /** No direct call is made for an object whose action was rejected or waits for a
      human. */
  lemma {:induction false} DirectCallsAreFree(env: Env, o: Object, labels: seq<Label>, i: nat)
    requires Governance.Lawful(env) && Fresh(env, o) && i < |Run(env, o, labels).direct|
    ensures var s := Run(env, o, labels);
            var base := s.direct[i].base;
            && base < |s.hist| && s.hist[base].phase != "Rejected"
            && (s.hist[base].phase == "PendingApproval" ==> s.hist[base].pending.None?)
  {
    hide Run, Fresh, Governance.Lawful, ProcsHonest, VersionsTrue, BirthsTrue;
    RunTrue(env, o, labels);
    assert DirectFree(Run(env, o, labels).hist, Run(env, o, labels).direct[i]);
  }

  // ----------------------------------------------- what becomes of a proposal

  /** The proposal as it is listed. */
  function Listed(p: Proposal, approved: bool): Action {
    Action(p.action, p.description, p.confidenceText, approved)
  }

  /** The receipt of this decision, when receipts are enabled. */
  function Row(env: Env, outcome: Decision.Outcome, p: Proposal): seq<Entry> {
    if env.receiptsEnabled then [DecisionEntry(outcome, Payload(p.action, p.params, p.confidenceText))] else []
  }

  /** A reconciler can take up proposal p here, under this id. */
  predicate MayPropose(s: Sys, pid: nat, id: string) {
    s.hist != [] && FreeToAsk(Current(s)) && pid !in s.procs && id !in s.minted
  }

  /** How the layers and the model decide p on the current object. */
  ghost predicate DecidedNow(env: Env, s: Sys, p: Proposal, noise: Noise, outcome: Decision.Outcome)
    requires s.hist != []
  {
    DecidedAs(env, Current(s).spec, ProposalFacts(Current(s), p), noise, outcome)
  }

  lemma {:induction false} DraftDecided(env: Env, s: Sys, p: Proposal, id: string, noise: Noise,
                                        outcome: Decision.Outcome)
    returns (d: Draft)
    requires s.hist != [] && DecidedNow(env, s, p, noise, outcome)
    ensures d == DraftOf(env, |s.hist| - 1, Current(s).spec, HistoryOf(Current(s).executed, Current(s).proposed), p, id,
                         noise)
    ensures d.proposal == p && d.id == id && d.judged.outcome == outcome && d.noise == noise
  {
    var o := Current(s);
    d := DraftOf(env, |s.hist| - 1, o.spec, HistoryOf(o.executed, o.proposed), p, id, noise);
    DraftIsJudged(env, |s.hist| - 1, o, p, id, noise);
    assert d.noise == noise by { hide Evaluate, Judge; }
    hide DraftOf, JudgedOn, DecidedAs, ProposalFacts;
    JudgedMeans(env, o, d);
  }

  /** A proposal that needs an approval is held; so is, outside the strict mode, one
      that is denied. A reconciler left alone stores it as the pending action of its
      fresh id, undecided, with every field, and nothing else changes but the list
      of proposed actions and the receipt log: no tool is called. */
  lemma {:induction false} NeedingApprovalIsHeld(env: Env, s: Sys, pid: nat, noise: Noise, p: Proposal, id: string,
                                                 outcome: Decision.Outcome)
    returns (receiptSeq: nat, t: Sys)
    requires MayPropose(s, pid, id) && p.text.Some? && DecidedNow(env, s, p, noise, outcome)
    requires outcome == Decision.RequireApproval ||
             (outcome == Decision.Deny && Current(s).spec.opaPolicy != Some("strict"))
    ensures Reaches(env, s, t) && receiptSeq == if env.receiptsEnabled then |t.receipts| else 0
    ensures var o := Current(s);
            var c := Content(id, p.action, p.description, p.confidenceText, p.clusterHealthText, p.claimedHealthText,
                             p.text.value, p.record, receiptSeq);
            t == s.(hist := s.hist + [o.(phase := "PendingApproval", pending := Some(PendingApproval(c, Idle, "")),
                                         proposed := Latest(o.proposed + [Listed(p, false)], 100))],
                    receipts := s.receipts + Row(env, outcome, p), minted := s.minted[id := pid],
                    born := s.born[id := Birth(c, FrozenOf(o.spec))])
  {
    hide Reaches, DraftOf, DecidedNow, Latest, FrozenOf;
    var d := DraftDecided(env, s, p, id, noise, outcome);
    receiptSeq, t := ProposalIsHeld(env, s, pid, noise, p, d);
  }

  /** What the layers allow and the model escalates is held, not called. */
  lemma {:induction false} EscalatedIsHeld(env: Env, s: Sys, pid: nat, noise: Noise, p: Proposal, id: string,
                                           i: Invariants.Input, v: PackVerdict)
    returns (receiptSeq: nat, t: Sys)
    requires MayPropose(s, pid, id) && p.text.Some?
    requires var spec, f := Current(s).spec, ProposalFacts(Current(s), p);
             && NothingHard(env, spec, f, noise, i, v) && v.approval == [] && ThresholdPasses(env, spec, f)
             && ModelEscalates(env, spec, f, i)
    ensures Reaches(env, s, t) && t.hist != [] && t.direct == s.direct && t.held == s.held
    ensures Current(t).phase == "PendingApproval" && Current(t).pending.Some? &&
            Current(t).pending.value.content.id == id && Current(t).pending.value.state == Idle
  {
    hide Reaches, NothingHard, ModelEscalates, ThresholdPasses, Latest, Row;
    var o := Current(s);
    var f := ProposalFacts(o, p);
    forall j, w | Unopposed(env, o.spec, f, noise, j, w)
      ensures i == j
    {
      HardOnce(env, o.spec, f, noise, i, v, j, w);
    }
    assert DecidedNow(env, s, p, noise, Decision.RequireApproval);
    hide DecidedNow;
    receiptSeq, t := NeedingApprovalIsHeld(env, s, pid, noise, p, id, Decision.RequireApproval);
  }

  lemma {:induction false} HardOnce(env: Env, spec: Spec, f: Facts, noise: Noise, i: Invariants.Input, v: PackVerdict,
                                    j: Invariants.Input, w: PackVerdict)
    requires NothingHard(env, spec, f, noise, i, v) && NothingHard(env, spec, f, noise, j, w)
    ensures i == j
  {
    hide Observes;
    ObservedOnce(env, spec, f.payload, i);
    ObservedOnce(env, spec, f.payload, j);
  }

  /** A proposal that nothing at all stands against runs at once: a reconciler left
      alone reserves it, calls the tool once for it, and lists it as executed. */
  lemma {:induction false} UnopposedRuns(env: Env, s: Sys, pid: nat, noise: Noise, p: Proposal, id: string)
    returns (call: DirectCall, t: Sys)
    requires MayPropose(s, pid, id) && DecidedNow(env, s, p, noise, Decision.Allow)
    ensures Reaches(env, s, t) && call.ok && call.d.proposal == p
    ensures var o := Current(s);
            t == s.(hist := s.hist + [o.(other := "reserved " + id),
                                      o.(other := "reserved " + id, phase := "Completed", pending := None,
                                         executed := Latest(o.executed + [Listed(p, true)], 100))],
                    receipts := s.receipts + Row(env, Decision.Allow, p), minted := s.minted[id := pid],
                    direct := s.direct + [call])
  {
    hide Reaches, DraftOf, DecidedNow, Latest;
    var d := DraftDecided(env, s, p, id, noise, Decision.Allow);
    var base, at;
    base, at, t := AllowedProposalRuns(env, s, pid, noise, p, d, true);
    call := DirectCall(d, base, at, true);
  }

  /** And when that call fails it is listed as not approved, in phase Failed. */
  lemma {:induction false} UnopposedMayFail(env: Env, s: Sys, pid: nat, noise: Noise, p: Proposal, id: string)
    returns (call: DirectCall, t: Sys)
    requires MayPropose(s, pid, id) && DecidedNow(env, s, p, noise, Decision.Allow)
    ensures Reaches(env, s, t) && !call.ok && call.d.proposal == p
    ensures var o := Current(s);
            t == s.(hist := s.hist + [o.(other := "reserved " + id),
                                      o.(other := "reserved " + id, phase := "Failed", pending := None,
                                         proposed := Latest(o.proposed + [Listed(p, false)], 100))],
                    receipts := s.receipts + Row(env, Decision.Allow, p), minted := s.minted[id := pid],
                    direct := s.direct + [call])
  {
    hide Reaches, DraftOf, DecidedNow, Latest;
    var d := DraftDecided(env, s, p, id, noise, Decision.Allow);
    var base, at;
    base, at, t := AllowedProposalRuns(env, s, pid, noise, p, d, false);
    call := DirectCall(d, base, at, false);
  }

  /** What is denied under the strict mode is listed and no more: no action is held,
      nothing is born, and no tool is called. */
  lemma {:induction false} DeniedIsNotHeld(env: Env, s: Sys, pid: nat, noise: Noise, p: Proposal, id: string)
    returns (t: Sys)
    requires MayPropose(s, pid, id) && DecidedNow(env, s, p, noise, Decision.Deny)
    requires Current(s).spec.opaPolicy == Some("strict")
    ensures Reaches(env, s, t)
    ensures var o := Current(s);
            t == s.(hist := s.hist + [o.(phase := "PolicyDenied", pending := None,
                                         proposed := Latest(o.proposed + [Listed(p, false)], 100))],
                    receipts := s.receipts + Row(env, Decision.Deny, p), minted := s.minted[id := pid])
  {
    hide Reaches, DraftOf, DecidedNow, Latest;
    var d := DraftDecided(env, s, p, id, noise, Decision.Deny);
    t := ProposalIsDenied(env, s, pid, noise, p, d);
  }

  // ------------------------------------------ what becomes of a held action

  /** The annotations of o carry decision d for content c. */
  ghost predicate Answers(env: Env, o: Object, c: Content, d: Approval.Decision) {
    ApprovalMeaning.Carries(env.codec, env.hashes, env.key, o.uid, c.id, c.proposal, o.ann, d)
  }

  /** Why a held action is not acted on, as its condition reports it: it was decided
      before, its decision has no stamp, there is no key, the stamp does not verify,
      the decision is malformed, or the proposal does not parse. */
  ghost predicate Explains(env: Env, o: Object, c: Content, reason: string) {
    if DecidedBefore(o, c.id) then reason == "ApprovalReplay"
    else if Get(o.ann, Approval.BY) == "" then reason == "MissingApprovalStamp"
    else if env.key == "" then reason == "ApprovalStampKeyMissing"
    else if !ApprovalMeaning.StampVerifies(env.hashes, env.key, o.uid, c.id, c.proposal, o.ann) then
      reason == "ApprovalStampInvalid"
    else if exists d :: Answers(env, o, c, d) then reason == "PendingActionUnreadable"
    else reason == "InvalidDecision"
  }

  predicate DecidedBefore(o: Object, id: string) {
    (o.last.Some? && o.last.value.id == id) || id in o.consumed
  }

  /** What a reconciler does with a held action: it gives up on one that was
      executing, waits without a decision for it, acts on a verified decision whose
      proposal parses, and in every other case says why it does not. */
  lemma {:induction false} PlanIff(env: Env, o: Object, p: PendingApproval, noise: Noise)
    ensures var plan, c := PlanFor(env, o, p, noise), p.content;
            var open := !DecidedBefore(o, c.id) && p.state != Executing;
            && (plan.GiveUp? <==> !DecidedBefore(o, c.id) && p.state == Executing)
            && (plan.Wait? <==>
                open && (Get(o.ann, Approval.DECISION) == "" || c.id == "" ||
                         (Get(o.ann, Approval.BY) != "" && Get(o.ann, Approval.FOR) != c.id)))
            && (plan.Act? <==>
                open && env.parseProposal(c.proposal).Some? && exists d :: Answers(env, o, c, d))
            && (plan.Act? ==> plan.h.content == c && Answers(env, o, c, plan.h.decision) && plan.h.noise == noise)
            && (plan.HoldBecause? ==> Explains(env, o, c, plan.note.reason))
  {
    hide Approval.Read, Answers, ApprovalMeaning.StampVerifies, BlockedBy, TargetOf, PayloadOf, HistoryOf, RefOf;
    ReadCases(env, o, p.content);
  }

  predicate IsStamped(env: Env, o: Object, c: Content) {
    Get(o.ann, Approval.BY) != "" && env.key != "" &&
      ApprovalMeaning.StampVerifies(env.hashes, env.key, o.uid, c.id, c.proposal, o.ann)
  }

  lemma {:induction false} AnswerIsStamped(env: Env, o: Object, c: Content, d: Approval.Decision)
    requires Answers(env, o, c, d)
    ensures IsStamped(env, o, c)
  {
  }

  /** The result of reading, without quantifying over decisions. */
  lemma {:induction false} ReadCases(env: Env, o: Object, c: Content)
    ensures var r := Approval.Read(env.codec, env.hashes, o.ann, RefOf(env.hashes, o.uid, c), env.key);
            && (r.Ok? && r.value.Some? ==> Answers(env, o, c, r.value.value) && IsStamped(env, o, c))
            && (r.Ok? && r.value.Some? <==> exists d :: Answers(env, o, c, d))
            && (r == Ok(None) <==>
                Get(o.ann, Approval.DECISION) == "" || c.id == "" ||
                (Get(o.ann, Approval.BY) != "" && Get(o.ann, Approval.FOR) != c.id))
            && (r.Err? && r.error == Approval.Unstamped <==> r.Err? && Get(o.ann, Approval.BY) == "")
            && (r.Err? && Get(o.ann, Approval.BY) != "" ==>
                  && (r.error == Approval.NoKey <==> env.key == "")
                  && (r.error == Approval.BadMac <==>
                      env.key != "" &&
                      !ApprovalMeaning.StampVerifies(env.hashes, env.key, o.uid, c.id, c.proposal, o.ann)))
  {
    var r := Approval.Read(env.codec, env.hashes, o.ann, RefOf(env.hashes, o.uid, c), env.key);
    ApprovalMeaning.ReadRefusesIff(env.codec, env.hashes, env.key, o.uid, c.id, c.proposal, o.ann);
    forall d
      ensures r == Ok(Some(d)) <==> Answers(env, o, c, d)
      ensures r == Ok(None) <==>
              Get(o.ann, Approval.DECISION) == "" || c.id == "" ||
              (Get(o.ann, Approval.BY) != "" && Get(o.ann, Approval.FOR) != c.id)
    {
      ApprovalMeaning.ReadIff(env.codec, env.hashes, env.key, o.uid, c.id, c.proposal, o.ann, d);
    }
    assert Answers(env, o, c, NO_DECISION) ==> r == Ok(Some(NO_DECISION));
    hide Approval.Read, Answers, IsStamped, ApprovalMeaning.StampVerifies, Approval.PendingSha;
    if r.Ok? && r.value.Some? {
      AnswerIsStamped(env, o, c, r.value.value);
    }
  }

  const NO_DECISION := Approval.Decision("", "", None, Approval.Approver("", ""), "", "")
}
