/** The approval and execution protocol as a state machine: one stored object,
    any number of reconcilers, the receipt log and the dataset, clients behind the
    webhook, crashes, lost replies and restores.

    A reconciler is a small automaton. `Resume` says where it goes when the API
    server, the receipt writer or the MCP server has answered it; module
    Controller shows that the imperative reconcile code follows it.
  */
module Protocol {
  import opened Text
  import opened Workload
  import opened Governance
  import Approval
  import Crypto
  import DataClass
  import Decision
  import Invariants
  import Webhook

  // ------------------------------------------------------- held actions

  /** A human decision on a held action, and what would run. */
  datatype Handled = Handled(
    content: Content, decision: Approval.Decision, target: Target, payload: Payload, noise: Noise, blocked: bool)

  function ClaimsOf(env: Env, c: Content): Claims {
    Claims(OrZero(env.parseReal(c.confidence)), OrZero(env.parseReal(c.clusterHealth)),
           if c.claimedHealth == "" then None else env.parseReal(c.claimedHealth))
  }

  function OrZero(r: Option<real>): real {
    if r.Some? then r.value else 0.0
  }

  /** The stored proposal, or the action a human put in its place. */
  function TargetOf(d: Approval.Decision, c: Content, proposal: DataClass.Value): Target {
    match d.edit
    case None => Target(c.action, c.description, proposal)
    case Some(e) =>
      Target(e.name, e.description,
             DataClass.Object(false, ["action", "description", "params"],
                              [DataClass.Str(e.name), DataClass.Str(e.description), e.params]))
  }

  function PayloadOf(t: Target, c: Content): Payload {
    Payload(t.name, t.payload, c.confidence)
  }

  /** Whether the layers, run on this target under this spec, stop a human. */
  predicate BlockedBy(env: Env, s: Spec, past: History, t: Target, c: Content, noise: Noise) {
    Decision.HumanBlocked(Evaluate(env, s, past, t, ClaimsOf(env, c), noise))
  }

  /** What a reconciler does with a held action it has read. */
  datatype Plan = Wait | HoldBecause(note: Note) | GiveUp | Act(h: Handled)

  function ReadReason(e: Approval.Error): string {
    match e
    case Unstamped => "MissingApprovalStamp"
    case NoKey => "ApprovalStampKeyMissing"
    case BadMac => "ApprovalStampInvalid"
    case _ => "InvalidDecision"
  }

  /** reconcileApproval up to its first write. */
  function PlanFor(env: Env, o: Object, p: PendingApproval, noise: Noise): Plan {
    var c := p.content;
    if Consumed(o.last, o.consumed, c.id) then HoldBecause(Note("ApprovalReplay", AlreadyDecided(c.id)))
    else if p.state == Executing then GiveUp
    else
      match Approval.Read(env.codec, env.hashes, o.ann, RefOf(env.hashes, o.uid, c), env.key)
      case Err(e) => HoldBecause(Note(ReadReason(e), NotActing(e)))
      case Ok(None) => Wait
      case Ok(Some(d)) =>
        match env.parseProposal(c.proposal)
        case None => HoldBecause(Note("PendingActionUnreadable", UnreadableProposal))
        case Some(proposal) =>
          var t := TargetOf(d, c, proposal);
          var past := HistoryOf(o.executed, o.proposed);
          Act(Handled(c, d, t, PayloadOf(t, c), noise,
                      d.verdict != Approval.REJECT && BlockedBy(env, o.spec, past, t, c, noise)))
  }

  // ----------------------------------------------------- proposed actions

  /** What the MCP server proposed. `text` is its JSON, when it marshals. */
  datatype Proposal = Proposal(
    action: string, description: string, confidence: real, confidenceText: string, params: DataClass.Value,
    text: Option<string>, clusterHealth: real, clusterHealthText: string, claimedHealth: Option<real>,
    claimedHealthText: string, record: string)

  /** A proposal that was judged on version `seen` of the object. */
  datatype Draft = Draft(seen: nat, proposal: Proposal, id: string, noise: Noise, layers: Decision.Layers,
                         judged: Decision.Result)

  function DraftTarget(p: Proposal): Target {
    Target(p.action, p.description, p.params)
  }

  function DraftPayload(p: Proposal): Payload {
    Payload(p.action, p.params, p.confidenceText)
  }

  function DraftClaims(p: Proposal): Claims {
    Claims(p.confidence, p.clusterHealth, p.claimedHealth)
  }

  /** The direct path up to the receipt. */
  function DraftOf(env: Env, seen: nat, s: Spec, past: History, p: Proposal, id: string, noise: Noise): Draft {
    var l := Evaluate(env, s, past, DraftTarget(p), DraftClaims(p), noise);
    Draft(seen, p, id, noise, l, Judge(env, s, past, DraftTarget(p), DraftClaims(p), l))
  }

  /** newPendingApproval. */
  function ContentOf(d: Draft, receiptSeq: nat): Option<Content> {
    match d.proposal.text
    case None => None
    case Some(text) =>
      var p := d.proposal;
      Some(Content(d.id, p.action, p.description, p.confidenceText, p.clusterHealthText, p.claimedHealthText, text,
                   p.record, receiptSeq))
  }

  // ---------------------------------------------------------- status writes

  /** Every status write of the controller, by what it changes. */
  datatype Kind =
    | Block(phase: string, other: string)
    | Touch(other: string)
    | Record(verdict: string)
    | Hold(note: Note)
    | Release(note: Note)
    | Execute(other: string)
    | Finish(outcome: ApprovalOutcome, phase: string, executed: seq<Action>, proposed: seq<Action>, note: Note,
             other: string)
    | Reserve(other: string)
    | Final(phase: string, pending: Option<PendingApproval>, executed: seq<Action>, proposed: seq<Action>)

  function SetState(o: Object, state: Progress, decision: string): Object {
    match o.pending
    case None => o
    case Some(p) => o.(pending := Some(p.(state := state, decision := decision)))
  }

  /** The object a write stores over o. */
  function Out(o: Object, k: Kind): Object {
    match k
    case Block(phase, other) => o.(phase := phase, other := other)
    case Touch(other) => o.(other := other)
    case Record(verdict) => SetState(o, Recording, verdict)
    case Hold(note) => o.(note := Some(note))
    case Release(note) => SetState(o, Idle, "").(note := Some(note))
    case Execute(other) =>
      SetState(o, Executing, if o.pending.Some? then o.pending.value.decision else "").(other := other)
    case Finish(outcome, phase, executed, proposed, note, other) =>
      o.(last := Some(outcome), consumed := Latest(o.consumed + [outcome.id], MAX_CONSUMED), pending := None,
         phase := phase, executed := executed, proposed := proposed, note := Some(note), other := other)
    case Reserve(other) => o.(other := other)
    case Final(phase, pending, executed, proposed) =>
      o.(phase := phase, pending := pending, executed := executed, proposed := proposed)
  }

  // ------------------------------------------------------------ reconcilers

  /** What follows a write that was seen to succeed. */
  datatype Next = Stop | Again | ToReceipt(h: Handled) | ToCall(h: Handled, receiptSeq: nat) | ToDirectCall(d: Draft)

  /** Where a reconciler stands, with its local copy o of version base. `other` is
      what the copy says there once the dataset was offered the example. */
  datatype Pc =
    | Fetched(base: nat, o: Object)
    | Writing(base: nat, o: Object, kind: Kind, next: Next)
    | HumanReceipt(base: nat, o: Object, h: Handled)
    | StoringExample(base: nat, o: Object, h: Handled, receiptSeq: nat)
    | DenyReceipt(base: nat, o: Object, h: Handled, receiptSeq: nat, other: string)
    | Calling(base: nat, o: Object, h: Handled, receiptSeq: nat)
    | Asking(base: nat, o: Object, noise: Noise)
    | DecisionReceipt(base: nat, o: Object, d: Draft)
    | DirectCalling(base: nat, o: Object, d: Draft)
    | Done

  /** What the checks before the action path say: pass, set a phase (licence,
      quota, pack, routing and runtime outcomes), or write something else first. */
  datatype Gate = Pass(noise: Noise) | Blocked(phase: string, other: string) | Touched(other: string)

  datatype Answer = NoAnswer | Proposed(proposal: Proposal, id: string)

  datatype Response =
    | Opened(gate: Gate)
    | Written(version: nat)
    | Refused
    | Stored(seqNo: nat)
    | NotStored
    | Kept
    | NotKept
    | Returned(ok: bool)
    | Answered(answer: Answer)

  function HumanOutcome(verdict: string): string {
    if verdict == Approval.REJECT then "rejected" else if verdict == Approval.EDITED then "edited" else "approved"
  }

  /** finishApproval. */
  function FinishWith(id: string, verdict: string, outcome: string, sha: string, receiptSeq: nat, phase: string,
                      executed: seq<Action>, proposed: seq<Action>, reason: string, other: string): Kind
  {
    Finish(ApprovalOutcome(id, verdict, outcome, sha, receiptSeq), phase, executed, proposed,
           Note(reason, Ended(outcome)), other)
  }

  /** The "unknown" ending of an action that was found Executing. */
  function UnknownFinish(o: Object, p: PendingApproval): Kind {
    FinishWith(p.content.id, p.decision, "unknown", "", 0, FAILED, o.executed, o.proposed, "ExecutionOutcomeUnknown",
               o.other)
  }

  /** holdApproval: nothing is written when the object already says so. */
  function HoldFrom(base: nat, o: Object, k: Kind): Pc
    requires k.Hold? || k.Release?
  {
    var state := if k.Release? then Idle else if o.pending.Some? then o.pending.value.state else Idle;
    if o.note == Some(k.note) && state == Idle then Done else Writing(base, o, k, Stop)
  }

  function AfterGate(env: Env, base: nat, o: Object, noise: Noise): Pc {
    if o.phase == REJECTED then Done
    else if o.phase == PENDING_APPROVAL && o.pending.Some? then
      var p := o.pending.value;
      match PlanFor(env, o, p, noise)
      case Wait => Done
      case HoldBecause(note) => HoldFrom(base, o, Hold(note))
      case GiveUp => Writing(base, o, UnknownFinish(o, p), Stop)
      case Act(h) => Writing(base, o, Record(h.decision.verdict), ToReceipt(h))
    else Asking(base, o, noise)
  }

  function ApproverSha(env: Env, h: Handled): string {
    Crypto.Sha256Hex(env.hashes, h.decision.approverRaw)
  }

  /** storeExample: a failure is only noted in a condition. */
  function AfterExample(other: string, kept: bool): string {
    if kept then other else other + "; example not stored"
  }

  function AfterHumanReceipt(env: Env, base: nat, o: Object, h: Handled, receiptSeq: nat, other: string): Pc {
    if h.decision.verdict == Approval.REJECT then Writing(base, o, RejectedFinish(env, o, h, receiptSeq, other), Stop)
    else if h.blocked then
      if env.receiptsEnabled then DenyReceipt(base, o, h, receiptSeq, other)
      else Writing(base, o, DeniedFinish(env, o, h, receiptSeq, other), Stop)
    else Writing(base, o, Execute(other), ToCall(h, receiptSeq))
  }

  function RejectedFinish(env: Env, o: Object, h: Handled, receiptSeq: nat, other: string): Kind {
    FinishWith(h.content.id, h.decision.verdict, "rejected", ApproverSha(env, h), receiptSeq, REJECTED, o.executed,
               o.proposed, "Rejected", other)
  }

  function DeniedFinish(env: Env, o: Object, h: Handled, receiptSeq: nat, other: string): Kind {
    FinishWith(h.content.id, h.decision.verdict, "denied", ApproverSha(env, h), receiptSeq, POLICY_DENIED, o.executed,
               o.proposed, "HumanDecisionBlocked", other)
  }

  function CalledFinish(env: Env, o: Object, h: Handled, receiptSeq: nat, ok: bool): Kind {
    var a := Action(h.target.name, h.target.description, h.content.confidence, ok);
    var (executed, proposed) :=
      if ok then (Latest(o.executed + [a], MAX_ACTIONS), o.proposed)
      else (o.executed, Latest(o.proposed + [a], MAX_ACTIONS));
    FinishWith(h.content.id, h.decision.verdict, if ok then "executed" else "failed", ApproverSha(env, h), receiptSeq,
               if ok then COMPLETED else FAILED, executed, proposed, if ok then "Executed" else "ExecutionFailed",
               o.other)
  }

  /** The direct path after its receipt: reserve, or hold, or deny. */
  function AfterDecision(env: Env, base: nat, o: Object, d: Draft, appended: bool, receiptSeq: nat): Pc {
    var r := Decision.AfterReceipt(env.receiptsEnabled, env.receiptsRequired, appended,
                                   env.findingText(Invariants.Receipts), d.layers, d.judged);
    var a := Action(d.proposal.action, d.proposal.description, d.proposal.confidenceText, false);
    var proposed := Latest(o.proposed + [a], MAX_ACTIONS);
    if r.outcome == Decision.Allow then Writing(base, o, Reserve("reserved " + d.id), ToDirectCall(d))
    else if r.outcome != Decision.RequireApproval && o.spec.opaPolicy == Some(STRICT) then
      Writing(base, o, Final(POLICY_DENIED, None, o.executed, proposed), Stop)
    else
      match ContentOf(d, receiptSeq)
      case None => Writing(base, o, Final(PENDING_APPROVAL, None, o.executed, proposed), Stop)
      case Some(c) => Writing(base, o,
                              Final(PENDING_APPROVAL, Some(PendingApproval(c, Idle, "")), o.executed, proposed), Stop)
  }

  function AfterDirectCall(o: Object, d: Draft, ok: bool): Kind {
    var a := Action(d.proposal.action, d.proposal.description, d.proposal.confidenceText, ok);
    if ok then Final(COMPLETED, None, Latest(o.executed + [a], MAX_ACTIONS), o.proposed)
    else Final(FAILED, None, o.executed, Latest(o.proposed + [a], MAX_ACTIONS))
  }

  function AfterWrite(env: Env, base: nat, o: Object, next: Next): Pc {
    match next
    case Stop => Done
    case Again => Fetched(base, o)
    case ToReceipt(h) =>
      if env.receiptsEnabled then HumanReceipt(base, o, h) else AfterHumanReceipt(env, base, o, h, 0, o.other)
    case ToCall(h, receiptSeq) => Calling(base, o, h, receiptSeq)
    case ToDirectCall(d) => DirectCalling(base, o, d)
  }

  const RECEIPT_FAILED := Note("ReceiptFailed", ReceiptNotWritten)

  /** Where a reconciler goes when it is answered. */
  function Resume(env: Env, pc: Pc, r: Response): Pc {
    match pc
    case Fetched(base, o) =>
      (match r
       case Opened(Pass(noise)) => AfterGate(env, base, o, noise)
       case Opened(Blocked(phase, other)) => Writing(base, o, Block(phase, other), Stop)
       case Opened(Touched(other)) => Writing(base, o, Touch(other), Again)
       case _ => Done)
    case Writing(base, o, k, next) =>
      if r.Written? then AfterWrite(env, r.version, Out(o, k), next) else Done
    case HumanReceipt(base, o, h) =>
      if r.Stored? then
        if env.capturing then StoringExample(base, o, h, r.seqNo)
        else AfterHumanReceipt(env, base, o, h, r.seqNo, o.other)
      else if env.receiptsRequired then HoldFrom(base, o, Release(RECEIPT_FAILED))
      else AfterHumanReceipt(env, base, o, h, 0, o.other)
    case StoringExample(base, o, h, receiptSeq) =>
      AfterHumanReceipt(env, base, o, h, receiptSeq, AfterExample(o.other, r.Kept?))
    case DenyReceipt(base, o, h, receiptSeq, other) =>
      Writing(base, o, DeniedFinish(env, o, h, receiptSeq, other), Stop)
    case Calling(base, o, h, receiptSeq) =>
      Writing(base, o, CalledFinish(env, o, h, receiptSeq, r.Returned? && r.ok), Stop)
    case Asking(base, o, noise) =>
      if r.Answered? && r.answer.Proposed? then
        var d := DraftOf(env, base, o.spec, HistoryOf(o.executed, o.proposed), r.answer.proposal, r.answer.id, noise);
        if env.receiptsEnabled then DecisionReceipt(base, o, d) else AfterDecision(env, base, o, d, false, 0)
      else Writing(base, o, Block(FAILED, o.other), Stop)
    case DecisionReceipt(base, o, d) => AfterDecision(env, base, o, d, r.Stored?, if r.Stored? then r.seqNo else 0)
    case DirectCalling(base, o, d) => Writing(base, o, AfterDirectCall(o, d, r.Returned? && r.ok), Stop)
    case Done => Done
  }

  // ------------------------------------------------------------- the system

  /** One row of the receipt log. */
  datatype Entry =
    | HumanEntry(outcome: string, id: string, payload: Payload)
    | DecisionEntry(decided: Decision.Outcome, payload: Payload)

  /** One execute_action call after a human decision: what ran, the version its
      Executing write stored, how long the receipt log was, and whether the call
      succeeded. */
  datatype HeldCall = HeldCall(h: Handled, base: nat, at: nat, ok: bool)

  /** One execute_action call of the direct path. */
  datatype DirectCall = DirectCall(d: Draft, base: nat, at: nat, ok: bool)

  /** One example in the dataset: the decision it labels, the version it was read
      from, and the number of its receipt. */
  datatype Labelled = Labelled(h: Handled, base: nat, receiptSeq: nat)

  /** What a pending action looked like when it was stored, and the spec then. */
  datatype Birth = Birth(content: Content, frozen: Frozen)

  /** How an action was finished, and the phase that was set with it. */
  datatype Ending = Ending(outcome: string, verdict: string, phase: string)

  /** The stored versions, the reconcilers in flight, the receipt log and the
      dataset; then what happened so far: calls, finished ids and how each ended,
      minted ids and their reconciler, births, Executing commits and the reconciler
      that made each. */
  datatype Sys = Sys(
    hist: seq<Object>, procs: map<nat, Pc>, receipts: seq<Entry>, examples: seq<Labelled>,
    held: seq<HeldCall>, direct: seq<DirectCall>, finished: seq<string>, ends: map<string, Ending>,
    minted: map<string, nat>, born: map<string, Birth>, commits: map<string, nat>, owner: map<string, nat>)

  datatype Reply =
    | GateReply(gate: Gate)
    | WriteReply(applied: bool, bumped: bool, seen: bool)
    | AppendReply(stored: bool, seen: bool)
    | ExampleReply(stored: bool, seen: bool)
    | CallReply(ok: bool)
    | AskReply(answer: Answer)

  datatype Label =
    | Start(pid: nat, version: nat)
    | Crash(pid: nat)
    | Client(request: Webhook.Request)
    | Restore(id: string, state: Progress, decision: string, phase: string)
    | Step(pid: nat, reply: Reply)

  function Current(s: Sys): Object
    requires s.hist != []
  {
    s.hist[|s.hist| - 1]
  }

  function Move(s: Sys, pid: nat, pc: Pc): Sys {
    s.(procs := if pc.Done? then s.procs - {pid} else s.procs[pid := pc])
  }

  /** The history after an applied write. A write that changes nothing need not
      make a new version. */
  function Store(hist: seq<Object>, out: Object, bumped: bool): seq<Object> {
    if bumped then hist + [out] else hist
  }

  /** The books kept when reconciler pid's write k over o became version w. */
  function Booked(s: Sys, pid: nat, o: Object, k: Kind, w: nat): Sys {
    match k
    case Execute(_) =>
      if o.pending.Some? then
        var id := o.pending.value.content.id;
        s.(commits := s.commits[id := w], owner := s.owner[id := pid])
      else s
    case Finish(outcome, phase, _, _, _, _) =>
      s.(finished := s.finished + [outcome.id],
         ends := s.ends[outcome.id := Ending(outcome.outcome, outcome.decision, phase)])
    case Final(_, Some(p), _, _) => s.(born := s.born[p.content.id := Birth(p.content, FrozenOf(o.spec))])
    case _ => s
  }

  /** A guarded write: it can be applied only over the version it was based on. */
  predicate CanWrite(s: Sys, pc: Pc, bumped: bool) {
    pc.Writing? && s.hist != [] && pc.base == |s.hist| - 1 && (bumped || Out(pc.o, pc.kind) == pc.o)
  }

  /** A write that is applied may still be reported as failed. */
  function WriteStep(env: Env, s: Sys, pid: nat, pc: Pc, reply: Reply): Sys
    requires pc.Writing? && reply.WriteReply?
  {
    if reply.applied && CanWrite(s, pc, reply.bumped) then
      var hist := Store(s.hist, Out(pc.o, pc.kind), reply.bumped);
      var w := |hist| - 1;
      var s1 := Booked(s.(hist := hist), pid, pc.o, pc.kind, w);
      Move(s1, pid, Resume(env, pc, if reply.seen then Written(w) else Refused))
    else Move(s, pid, Resume(env, pc, Refused))
  }

  function EntryOf(pc: Pc): Entry
    requires pc.HumanReceipt? || pc.DenyReceipt? || pc.DecisionReceipt?
  {
    match pc
    case HumanReceipt(_, _, h) => HumanEntry(HumanOutcome(h.decision.verdict), h.content.id, h.payload)
    case DenyReceipt(_, _, h, _, _) => DecisionEntry(Decision.Deny, h.payload)
    case DecisionReceipt(_, _, d) => DecisionEntry(d.judged.outcome, DraftPayload(d.proposal))
  }

  /** A receipt that is stored may still be reported as failed. */
  function AppendStep(env: Env, s: Sys, pid: nat, pc: Pc, reply: Reply): Sys
    requires pc.HumanReceipt? || pc.DenyReceipt? || pc.DecisionReceipt?
    requires reply.AppendReply?
  {
    var receipts := if reply.stored then s.receipts + [EntryOf(pc)] else s.receipts;
    Move(s.(receipts := receipts), pid,
         Resume(env, pc, if reply.stored && reply.seen then Stored(|receipts|) else NotStored))
  }

  /** So may an example. */
  function ExampleStep(env: Env, s: Sys, pid: nat, pc: Pc, reply: Reply): Sys
    requires pc.StoringExample? && reply.ExampleReply?
  {
    var examples := if reply.stored then s.examples + [Labelled(pc.h, pc.base, pc.receiptSeq)] else s.examples;
    Move(s.(examples := examples), pid, Resume(env, pc, if reply.stored && reply.seen then Kept else NotKept))
  }

  function CallStep(env: Env, s: Sys, pid: nat, pc: Pc, ok: bool): Sys
    requires pc.Calling? || pc.DirectCalling?
  {
    var t := if pc.Calling? then s.(held := s.held + [HeldCall(pc.h, pc.base, |s.receipts|, ok)])
             else s.(direct := s.direct + [DirectCall(pc.d, pc.base, |s.receipts|, ok)]);
    Move(t, pid, Resume(env, pc, Returned(ok)))
  }

  function ProcStep(env: Env, s: Sys, pid: nat, pc: Pc, reply: Reply): Sys {
    match reply
    case GateReply(gate) =>
      if pc.Fetched? && (gate.Blocked? ==> gate.phase != PENDING_APPROVAL) then
        Move(s, pid, Resume(env, pc, Opened(gate)))
      else s
    case WriteReply(_, _, _) => if pc.Writing? then WriteStep(env, s, pid, pc, reply) else s
    case AppendReply(_, _) =>
      if pc.HumanReceipt? || pc.DenyReceipt? || pc.DecisionReceipt? then AppendStep(env, s, pid, pc, reply) else s
    case ExampleReply(_, _) => if pc.StoringExample? then ExampleStep(env, s, pid, pc, reply) else s
    case CallReply(ok) => if pc.Calling? || pc.DirectCalling? then CallStep(env, s, pid, pc, ok) else s
    case AskReply(answer) =>
      if !pc.Asking? then s
      else if answer.NoAnswer? then Move(s, pid, Resume(env, pc, Answered(answer)))
      else if answer.id !in s.minted then
        Move(s.(minted := s.minted[answer.id := pid]), pid, Resume(env, pc, Answered(answer)))
      else s
  }

  /** The pending action id is put back, as it was born, in any state. */
  function Restored(s: Sys, id: string, state: Progress, decision: string, phase: string): Sys
    requires s.hist != [] && id in s.born
  {
    var pending := PendingApproval(s.born[id].content, state, decision);
    s.(hist := s.hist + [Current(s).(pending := Some(pending), phase := phase)])
  }

  /** One step. A label that does not apply changes nothing. */
  function Apply(env: Env, s: Sys, a: Label): Sys {
    if s.hist == [] then s
    else
    match a
    case Start(pid, version) =>
      if pid !in s.procs && version < |s.hist| then Move(s, pid, Fetched(version, s.hist[version])) else s
    case Crash(pid) => s.(procs := s.procs - {pid})
    case Client(request) =>
      (match Webhook.Admitted(env.codec, env.hashes, env.key, env.validSpec, Current(s), request)
       case None => s
       case Some(o) => s.(hist := s.hist + [o]))
    case Restore(id, state, decision, phase) =>
      if id in s.born && Consumed(Current(s).last, Current(s).consumed, id) then Restored(s, id, state, decision, phase)
      else s
    case Step(pid, reply) => if pid in s.procs then ProcStep(env, s, pid, s.procs[pid], reply) else s
  }

  /** A freshly created object: its annotations went through the webhook with no
      pending action, and its status is empty. */
  ghost predicate Fresh(env: Env, o: Object) {
    && (exists r: Webhook.Request ::
          Approval.Admitted(env.codec, env.hashes, map[], r.ann, Approval.Pending("", "", ""), r.username, r.groups,
                            env.key) == Ok(o.ann))
    && o.phase == "" && o.pending.None? && o.last.None? && o.consumed == [] && o.executed == [] && o.proposed == [] &&
       o.note.None?
  }

  function Init(o: Object): Sys {
    Sys([o], map[], [], [], [], [], [], map[], map[], map[], map[], map[])
  }

  /** The state after these labels, from a created object. */
  function Run(env: Env, o: Object, labels: seq<Label>): Sys {
    if labels == [] then Init(o) else Apply(env, Run(env, o, labels[..|labels| - 1]), labels[|labels| - 1])
  }
}
