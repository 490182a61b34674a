/** How the stored status evolves: which outcomes are recorded, which are lost, and
    that the human receipts of one action agree.
  */
module ProtocolHistory {
  import opened Text
  import opened Workload
  import opened Governance
  import opened Protocol
  import opened ProtocolInvariant
  import opened ProtocolTheorems
  import opened ProtocolSchedules
  import opened ProtocolLimits
  import Approval
  import ApprovalProofs
  import Decision
  import Webhook

  // ------------------------------------------------- where reconcilers can be

  /** No action of o waits for a human, and none was just rejected, so a new one may
      be proposed. */
  predicate FreeToAsk(o: Object) {
    o.phase != REJECTED && (o.phase == PENDING_APPROVAL ==> o.pending.None?)
  }

  /** A reconciler acts on a held action only in the pending phase, and proposes a
      new one only when none waits. */
  predicate Placed(pc: Pc) {
    match pc
    case Fetched(_, _) => true
    case Writing(_, o, k, n) =>
      && (k.Finish? || k.Execute? ==> o.phase == PENDING_APPROVAL)
      && (k.Final? ==> FreeToAsk(o))
      && (n.ToReceipt? || n.ToCall? ==> Out(o, k).phase == PENDING_APPROVAL)
      && (n.ToDirectCall? ==> FreeToAsk(Out(o, k)))
    case HumanReceipt(_, o, _) => o.phase == PENDING_APPROVAL
    case StoringExample(_, o, _, _) => o.phase == PENDING_APPROVAL
    case DenyReceipt(_, o, _, _, _) => o.phase == PENDING_APPROVAL
    case Calling(_, o, _, _) => o.phase == PENDING_APPROVAL
    case Asking(_, o, _) => FreeToAsk(o)
    case DecisionReceipt(_, o, _) => FreeToAsk(o)
    case DirectCalling(_, o, _) => FreeToAsk(o)
    case Done => true
  }

  lemma {:induction false} PlacedAfterReceipt(env: Env, base: nat, o: Object, h: Handled, receiptSeq: nat,
                                              other: string)
    requires o.phase == PENDING_APPROVAL
    ensures Placed(AfterHumanReceipt(env, base, o, h, receiptSeq, other))
  {
    hide ApproverSha, Latest;
  }

  lemma {:induction false} PlacedAfterGate(env: Env, base: nat, o: Object, noise: Noise)
    ensures Placed(AfterGate(env, base, o, noise))
  {
    hide PlanFor, Latest;
  }

  lemma {:induction false} PlacedAfterDecision(env: Env, base: nat, o: Object, d: Draft, appended: bool,
                                               receiptSeq: nat)
    requires FreeToAsk(o)
    ensures Placed(AfterDecision(env, base, o, d, appended, receiptSeq))
  {
    hide Decision.AfterReceipt, ContentOf, Latest;
  }

  /** Wherever the answers lead. */
  lemma {:induction false} PlacedStays(env: Env, pc: Pc, r: Response)
    requires Placed(pc)
    ensures Placed(Resume(env, pc, r))
  {
    hide Out, PlanFor, ApproverSha, Latest, DraftOf, AfterHumanReceipt, AfterGate, AfterDecision;
    match pc
    case Fetched(base, o) =>
      if r.Opened? && r.gate.Pass? {
        PlacedAfterGate(env, base, o, r.gate.noise);
      }
    case Writing(_, o, k, n) =>
      if r.Written? && n.ToReceipt? {
        PlacedAfterReceipt(env, r.version, Out(o, k), n.h, 0, Out(o, k).other);
      }
    case HumanReceipt(base, o, h) =>
      PlacedAfterReceipt(env, base, o, h, if r.Stored? then r.seqNo else 0, o.other);
    case StoringExample(base, o, h, receiptSeq) =>
      PlacedAfterReceipt(env, base, o, h, receiptSeq, AfterExample(o.other, r.Kept?));
    case Asking(base, o, noise) =>
      if r.Answered? && r.answer.Proposed? {
        var d := DraftOf(env, base, o.spec, HistoryOf(o.executed, o.proposed), r.answer.proposal, r.answer.id, noise);
        PlacedAfterDecision(env, base, o, d, false, 0);
      }
    case DecisionReceipt(base, o, d) =>
      PlacedAfterDecision(env, base, o, d, r.Stored?, if r.Stored? then r.seqNo else 0);
    case _ =>
  }

  ghost predicate AllPlaced(s: Sys) {
    forall pid | pid in s.procs :: Placed(s.procs[pid])
  }

  lemma {:induction false} MovedPlaced(s: Sys, t: Sys, pid: nat, pc: Pc)
    requires AllPlaced(s) && t.procs == s.procs && Placed(pc)
    ensures AllPlaced(Move(t, pid, pc))
  {
    hide Placed;
  }

  lemma {:induction false} BookedKeepsProcs(s: Sys, pid: nat, o: Object, k: Kind, w: nat)
    ensures var t := Booked(s, pid, o, k, w);
            t.procs == s.procs && t.hist == s.hist && t.receipts == s.receipts
  {
  }

  lemma {:induction false} WriteStepPlaced(env: Env, s: Sys, pid: nat, pc: Pc, reply: Reply)
    requires AllPlaced(s) && Placed(pc) && pc.Writing? && reply.WriteReply?
    ensures AllPlaced(WriteStep(env, s, pid, pc, reply))
  {
    hide Resume, Out, Booked, Placed, Move, AllPlaced;
    if reply.applied && CanWrite(s, pc, reply.bumped) {
      var hist := Store(s.hist, Out(pc.o, pc.kind), reply.bumped);
      assert |hist| > 0;
      hide CanWrite, Store;
      var w := |hist| - 1;
      BookedKeepsProcs(s.(hist := hist), pid, pc.o, pc.kind, w);
      PlacedStays(env, pc, if reply.seen then Written(w) else Refused);
      MovedPlaced(s, Booked(s.(hist := hist), pid, pc.o, pc.kind, w), pid,
                  Resume(env, pc, if reply.seen then Written(w) else Refused));
    } else {
      PlacedStays(env, pc, Refused);
      MovedPlaced(s, s, pid, Resume(env, pc, Refused));
    }
  }

  lemma {:induction false} AppendStepPlaced(env: Env, s: Sys, pid: nat, pc: Pc, reply: Reply)
    requires AllPlaced(s) && Placed(pc) && reply.AppendReply?
    requires pc.HumanReceipt? || pc.DenyReceipt? || pc.DecisionReceipt?
    ensures AllPlaced(AppendStep(env, s, pid, pc, reply))
  {
    hide Resume, EntryOf, Placed, Move, AllPlaced;
    var receipts := if reply.stored then s.receipts + [EntryOf(pc)] else s.receipts;
    var r := if reply.stored && reply.seen then Stored(|receipts|) else NotStored;
    PlacedStays(env, pc, r);
    MovedPlaced(s, s.(receipts := receipts), pid, Resume(env, pc, r));
  }

  lemma {:induction false} ExampleStepPlaced(env: Env, s: Sys, pid: nat, pc: Pc, reply: Reply)
    requires AllPlaced(s) && Placed(pc) && pc.StoringExample? && reply.ExampleReply?
    ensures AllPlaced(ExampleStep(env, s, pid, pc, reply))
  {
    hide Resume, Placed, Move, AllPlaced;
    var examples := if reply.stored then s.examples + [Labelled(pc.h, pc.base, pc.receiptSeq)] else s.examples;
    var r := if reply.stored && reply.seen then Kept else NotKept;
    PlacedStays(env, pc, r);
    MovedPlaced(s, s.(examples := examples), pid, Resume(env, pc, r));
  }

  lemma {:induction false} CallStepPlaced(env: Env, s: Sys, pid: nat, pc: Pc, ok: bool)
    requires AllPlaced(s) && Placed(pc) && (pc.Calling? || pc.DirectCalling?)
    ensures AllPlaced(CallStep(env, s, pid, pc, ok))
  {
    hide Resume, Placed, Move, AllPlaced;
    var t := if pc.Calling? then s.(held := s.held + [HeldCall(pc.h, pc.base, |s.receipts|, ok)])
             else s.(direct := s.direct + [DirectCall(pc.d, pc.base, |s.receipts|, ok)]);
    PlacedStays(env, pc, Returned(ok));
    MovedPlaced(s, t, pid, Resume(env, pc, Returned(ok)));
  }

  lemma {:induction false} PlainStepPlaced(env: Env, s: Sys, pid: nat, pc: Pc, reply: Reply)
    requires AllPlaced(s) && Placed(pc) && (reply.GateReply? || reply.AskReply?)
    ensures AllPlaced(ProcStep(env, s, pid, pc, reply))
  {
    hide Resume, Placed, Move, AllPlaced;
    var r := if reply.GateReply? then Opened(reply.gate) else Answered(reply.answer);
    PlacedStays(env, pc, r);
    MovedPlaced(s, s, pid, Resume(env, pc, r));
    if reply.AskReply? && reply.answer.Proposed? {
      MovedPlaced(s, s.(minted := s.minted[reply.answer.id := pid]), pid, Resume(env, pc, r));
    }
  }

  lemma {:induction false} ProcStepPlaced(env: Env, s: Sys, pid: nat, pc: Pc, reply: Reply)
    requires AllPlaced(s) && Placed(pc)
    ensures AllPlaced(ProcStep(env, s, pid, pc, reply))
  {
    hide Placed, AllPlaced, WriteStep, AppendStep, ExampleStep, CallStep, Move, Resume;
    match reply
    case WriteReply(_, _, _) =>
      if pc.Writing? {
        WriteStepPlaced(env, s, pid, pc, reply);
      }
    case AppendReply(_, _) =>
      if pc.HumanReceipt? || pc.DenyReceipt? || pc.DecisionReceipt? {
        AppendStepPlaced(env, s, pid, pc, reply);
      }
    case ExampleReply(_, _) =>
      if pc.StoringExample? {
        ExampleStepPlaced(env, s, pid, pc, reply);
      }
    case CallReply(ok) =>
      if pc.Calling? || pc.DirectCalling? {
        CallStepPlaced(env, s, pid, pc, ok);
      }
    case _ =>
      PlainStepPlaced(env, s, pid, pc, reply);
      hide ProcStep;
  }

  lemma {:induction false} StepPlaced(env: Env, s: Sys, a: Label)
    requires AllPlaced(s)
    ensures AllPlaced(Apply(env, s, a))
  {
    hide ProcStep, Placed, Webhook.Admitted, Consumed, Current;
    if a.Start? && s.hist != [] && a.version < |s.hist| {
      FetchedIsPlaced(a.version, s.hist[a.version]);
    }
    if a.Step? && a.pid in s.procs {
      ProcStepPlaced(env, s, a.pid, s.procs[a.pid], a.reply);
    }
  }

  lemma {:induction false} FetchedIsPlaced(base: nat, o: Object)
    ensures Placed(Fetched(base, o))
  {
  }

  lemma {:induction false} RunPlaced(env: Env, o: Object, labels: seq<Label>)
    ensures AllPlaced(Run(env, o, labels))
  {
    hide Apply, Placed;
    if labels != [] {
      RunPlaced(env, o, labels[..|labels| - 1]);
      StepPlaced(env, Run(env, o, labels[..|labels| - 1]), labels[|labels| - 1]);
    }
  }

  // -------------------------------------------------- how one version follows

  function Held(o: Object): Option<Content> {
    if o.pending.Some? then Some(o.pending.value.content) else None
  }

  predicate Holds(o: Object, id: string) {
    o.pending.Some? && o.pending.value.content.id == id
  }

  predicate SameWindow(o: Object, o': Object) {
    o'.last == o.last && o'.consumed == o.consumed
  }

  /** The held action stays, and a phase that changes is not the pending one. */
  predicate Stays(o: Object, o': Object) {
    SameWindow(o, o') && Held(o') == Held(o) && (o'.phase == o.phase || o'.phase != PENDING_APPROVAL)
  }

  /** The held action is decided. */
  predicate Finishes(o: Object, o': Object) {
    o.pending.Some? && o.phase == PENDING_APPROVAL && o'.pending.None?
  }

  /** No action waits, and what is held now was never held before. */
  predicate Replaces(born: map<string, Birth>, o: Object, o': Object) {
    SameWindow(o, o') && FreeToAsk(o) && (o'.pending.Some? ==> o'.pending.value.content.id !in born)
  }

  /** A restore of a consumed action. */
  predicate PutsBack(o: Object, o': Object) {
    SameWindow(o, o') && o'.pending.Some? && Consumed(o.last, o.consumed, o'.pending.value.content.id)
  }

  /** One more version, and the books that go with it. */
  predicate Follows(s: Sys, t: Sys, o: Object, o': Object) {
    || (Stays(o, o') && t.finished == s.finished && (forall id | id in t.commits :: id in s.commits || Holds(o', id)))
    || (Finishes(o, o') && t.finished == s.finished + [o.pending.value.content.id] && t.commits == s.commits)
    || ((Replaces(s.born, o, o') || PutsBack(o, o')) && t.finished == s.finished && t.commits == s.commits)
  }

  /** What a step does to the stored versions and to the books. */
  predicate Evolves(s: Sys, t: Sys) {
    && s.hist != [] && t.hist != []
    && ((t.hist == s.hist && t.finished == s.finished && t.commits == s.commits) ||
        (t.hist == s.hist + [Current(t)] && Follows(s, t, Current(s), Current(t))))
  }

  lemma {:induction false} FinalFollows(env: Env, s: Sys, pid: nat, pc: Pc, t: Sys)
    requires pc.Writing? && pc.kind.Final? && Placed(pc) && WriteOk(env, s, pid, pc.base, pc.o, pc.kind, pc.next)
    requires t.finished == s.finished && t.commits == s.commits
    ensures Follows(s, t, pc.o, Out(pc.o, pc.kind))
  {
    hide Consumed, JudgedOn, Latest;
  }

  lemma {:induction false} FinishFollows(env: Env, s: Sys, pid: nat, pc: Pc, t: Sys)
    requires pc.Writing? && pc.kind.Finish? && Placed(pc) && WriteOk(env, s, pid, pc.base, pc.o, pc.kind, pc.next)
    requires t.finished == s.finished + [pc.kind.outcome.id] && t.commits == s.commits
    ensures Follows(s, t, pc.o, Out(pc.o, pc.kind))
  {
    hide Consumed, Ends, Replies, Latest;
  }

  lemma {:induction false} OtherWriteFollows(env: Env, s: Sys, pid: nat, pc: Pc, t: Sys)
    requires pc.Writing? && !pc.kind.Final? && !pc.kind.Finish?
    requires WriteOk(env, s, pid, pc.base, pc.o, pc.kind, pc.next)
    requires t.finished == s.finished && (forall id | id in t.commits :: id in s.commits || Holds(pc.o, id))
    ensures Follows(s, t, pc.o, Out(pc.o, pc.kind))
  {
    hide Holding, Consumed, Passes, Witnessed, HumanRow, AllowRow, JudgedOn, Latest, Replaces, PutsBack, Finishes;
    assert Stays(pc.o, Out(pc.o, pc.kind));
    hide Stays;
  }

  /** What a write stores, and what is booked with it. */
  lemma {:induction false} WriteFollows(env: Env, s: Sys, pid: nat, pc: Pc, hist: seq<Object>, w: nat)
    requires pc.Writing? && Placed(pc) && WriteOk(env, s, pid, pc.base, pc.o, pc.kind, pc.next)
    ensures Follows(s, Booked(s.(hist := hist), pid, pc.o, pc.kind, w), pc.o, Out(pc.o, pc.kind))
  {
    hide WriteOk, Placed, Out, Follows;
    var t := Booked(s.(hist := hist), pid, pc.o, pc.kind, w);
    match pc.kind
    case Final(_, _, _, _) => FinalFollows(env, s, pid, pc, t);
    case Finish(_, _, _, _, _, _) => FinishFollows(env, s, pid, pc, t);
    case _ => OtherWriteFollows(env, s, pid, pc, t);
  }

  /** A write that changes nothing books nothing. */
  lemma {:induction false} NoChangeNoBooks(env: Env, uid: string, s: Sys, pid: nat, pc: Pc, w: nat)
    requires pc.Writing? && WriteOk(env, s, pid, pc.base, pc.o, pc.kind, pc.next) && VersionOk(env, uid, s.born, pc.o)
    requires Out(pc.o, pc.kind) == pc.o
    ensures Booked(s, pid, pc.o, pc.kind, w) == s
  {
    hide Handles, Consumed, Passes, Witnessed, HumanRow, AllowRow, JudgedOn, Ends, Replies, Latest,
         ApprovalProofs.StampOk, FrozenOf;
  }

  lemma {:induction false} AppliedEvolves(env: Env, s: Sys, t: Sys, pid: nat, pc: Pc, w: nat)
    requires pc.Writing? && Placed(pc) && WriteOk(env, s, pid, pc.base, pc.o, pc.kind, pc.next)
    requires s.hist != [] && pc.o == Current(s) && t.hist == s.hist + [Out(pc.o, pc.kind)]
    requires var b := Booked(s.(hist := t.hist), pid, pc.o, pc.kind, w);
             t.finished == b.finished && t.commits == b.commits
    ensures Evolves(s, t)
  {
    hide Placed, WriteOk, Out, Booked;
    WriteFollows(env, s, pid, pc, t.hist, w);
    FollowsMoved(s, Booked(s.(hist := t.hist), pid, pc.o, pc.kind, w), t, pc.o, Out(pc.o, pc.kind));
    hide Follows;
  }

  lemma {:induction false} WriterSeesCurrent(env: Env, uid: string, s: Sys, pid: nat, pc: Pc, bumped: bool)
    requires Inv(env, uid, s) && PcOk(env, s, pid, pc) && CanWrite(s, pc, bumped)
    ensures pc.o == Current(s) && VersionOk(env, uid, s.born, pc.o)
    ensures WriteOk(env, s, pid, pc.base, pc.o, pc.kind, pc.next)
  {
    hide BooksOk, CurrentOk, ProcsOk, CallsOk, WriteOk, VersionOk, Out;
  }

  lemma {:induction false} MovedEvolves(s: Sys, t: Sys, pid: nat, pc: Pc)
    requires Evolves(s, t)
    ensures Evolves(s, Move(t, pid, pc))
  {
    hide Stays, Finishes, Replaces, PutsBack;
  }

  /** The write itself, before its writer goes on. */
  lemma {:induction false} StoredEvolves(env: Env, uid: string, s: Sys, pid: nat, pc: Pc, hist: seq<Object>, w: nat)
    requires pc.Writing? && Placed(pc) && WriteOk(env, s, pid, pc.base, pc.o, pc.kind, pc.next)
    requires s.hist != [] && pc.o == Current(s) && VersionOk(env, uid, s.born, pc.o)
    requires Extends(s.hist, hist, Out(pc.o, pc.kind))
    ensures Evolves(s, Booked(s.(hist := hist), pid, pc.o, pc.kind, w))
  {
    hide WriteOk, Placed, Out, Booked, VersionOk, Evolves;
    BookedKeepsProcs(s.(hist := hist), pid, pc.o, pc.kind, w);
    if hist == s.hist + [Out(pc.o, pc.kind)] {
      AppliedEvolves(env, s, Booked(s.(hist := hist), pid, pc.o, pc.kind, w), pid, pc, w);
    } else {
      NoChangeNoBooks(env, uid, s, pid, pc, w);
      assert s.(hist := hist) == s;
      NothingEvolves(s, s);
    }
  }

  lemma {:induction false} WriteStepEvolves(env: Env, uid: string, s: Sys, pid: nat, pc: Pc, reply: Reply)
    requires Inv(env, uid, s) && PcOk(env, s, pid, pc) && Placed(pc) && pc.Writing? && reply.WriteReply?
    ensures Evolves(s, WriteStep(env, s, pid, pc, reply))
  {
    hide Inv, PcOk, WriteOk, Resume, Placed, Out, Booked, VersionOk, Evolves, Move, Local, CanWrite, Store, Extends;
    WriterIsLocal(env, uid, s, pid, pc);
    NothingEvolves(s, s);
    if reply.applied && CanWrite(s, pc, reply.bumped) {
      WriterSeesCurrent(env, uid, s, pid, pc, reply.bumped);
      StoreEndsWith(s, pc, reply.bumped);
      StoreIsNotEmpty(s, pc, reply.bumped);
      var hist := Store(s.hist, Out(pc.o, pc.kind), reply.bumped);
      StoredEvolves(env, uid, s, pid, pc, hist, |hist| - 1);
      MovedEvolves(s, Booked(s.(hist := hist), pid, pc.o, pc.kind, |hist| - 1), pid,
                   Resume(env, pc, if reply.seen then Written(|hist| - 1) else Refused));
    } else {
      MovedEvolves(s, s, pid, Resume(env, pc, Refused));
    }
  }

  lemma {:induction false} StoreIsNotEmpty(s: Sys, pc: Pc, bumped: bool)
    requires CanWrite(s, pc, bumped)
    ensures pc.Writing? && Store(s.hist, Out(pc.o, pc.kind), bumped) != []
  {
    hide Out;
  }

  lemma {:induction false} FollowsMoved(s: Sys, t: Sys, u: Sys, o: Object, o': Object)
    requires Follows(s, t, o, o') && u.finished == t.finished && u.commits == t.commits
    ensures Follows(s, u, o, o')
  {
  }

  lemma {:induction false} QuietMove(s: Sys, t: Sys, pid: nat, pc: Pc)
    requires s.hist != [] && t.hist == s.hist && t.finished == s.finished && t.commits == s.commits
    ensures Evolves(s, Move(t, pid, pc))
  {
    hide Follows;
  }

  lemma {:induction false} LogsEvolve(env: Env, s: Sys, pid: nat, pc: Pc, reply: Reply)
    requires s.hist != [] && (reply.AppendReply? || reply.ExampleReply? || reply.CallReply?)
    ensures Evolves(s, ProcStep(env, s, pid, pc, reply))
  {
    hide Resume, EntryOf, Evolves, Move;
    NothingEvolves(s, s);
    match reply
    case AppendReply(stored, seen) =>
      if pc.HumanReceipt? || pc.DenyReceipt? || pc.DecisionReceipt? {
        var receipts := if stored then s.receipts + [EntryOf(pc)] else s.receipts;
        var r := if stored && seen then Stored(|receipts|) else NotStored;
        QuietMove(s, s.(receipts := receipts), pid, Resume(env, pc, r));
      }
    case ExampleReply(stored, seen) =>
      if pc.StoringExample? {
        var examples := if stored then s.examples + [Labelled(pc.h, pc.base, pc.receiptSeq)] else s.examples;
        QuietMove(s, s.(examples := examples), pid, Resume(env, pc, if stored && seen then Kept else NotKept));
      }
    case CallReply(ok) =>
      if pc.Calling? {
        QuietMove(s, s.(held := s.held + [HeldCall(pc.h, pc.base, |s.receipts|, ok)]), pid,
                  Resume(env, pc, Returned(ok)));
      } else if pc.DirectCalling? {
        QuietMove(s, s.(direct := s.direct + [DirectCall(pc.d, pc.base, |s.receipts|, ok)]), pid,
                  Resume(env, pc, Returned(ok)));
      }
  }

  lemma {:induction false} OtherRepliesEvolve(env: Env, s: Sys, pid: nat, pc: Pc, reply: Reply)
    requires s.hist != [] && !(reply.WriteReply? && pc.Writing?)
    ensures Evolves(s, ProcStep(env, s, pid, pc, reply))
  {
    hide Resume, Evolves, Move, AppendStep, ExampleStep, CallStep;
    NothingEvolves(s, s);
    match reply
    case GateReply(gate) =>
      QuietMove(s, s, pid, Resume(env, pc, Opened(gate)));
    case WriteReply(_, _, _) =>
    case AskReply(answer) =>
      QuietMove(s, s, pid, Resume(env, pc, Answered(answer)));
      if answer.Proposed? {
        QuietMove(s, s.(minted := s.minted[answer.id := pid]), pid, Resume(env, pc, Answered(answer)));
      }
    case _ =>
      LogsEvolve(env, s, pid, pc, reply);
  }

  lemma {:induction false} ClientEvolves(env: Env, s: Sys, r: Webhook.Request)
    requires s.hist != []
    ensures Evolves(s, Apply(env, s, Client(r)))
  {
    hide Approval.Admitted, Webhook.AdmissionRef, Webhook.ValidateUpdate, Webhook.DefaultSpec;
    var out := Webhook.Admitted(env.codec, env.hashes, env.key, env.validSpec, Current(s), r);
    if out.Some? {
      assert Stays(Current(s), out.value);
    }
  }

  lemma {:induction false} ProcStepEvolves(env: Env, uid: string, s: Sys, pid: nat, reply: Reply)
    requires Inv(env, uid, s) && AllPlaced(s) && pid in s.procs
    ensures Evolves(s, ProcStep(env, s, pid, s.procs[pid], reply))
  {
    hide VersionsOk, BooksOk, CurrentOk, CallsOk, ProcStep, Placed, PcOk, Evolves;
    var pc := s.procs[pid];
    assert PcOk(env, s, pid, pc) && Placed(pc);
    hide ProcsOk, AllPlaced;
    if reply.WriteReply? && pc.Writing? {
      WriteStepEvolves(env, uid, s, pid, pc, reply);
      WriteReplyIsWrite(env, s, pid, pc, reply);
    } else {
      assert s.hist != [] by { SomethingIsStored(env, uid, s); }
      OtherRepliesEvolve(env, s, pid, pc, reply);
    }
  }

  lemma {:induction false} StepEvolves(env: Env, uid: string, s: Sys, a: Label)
    requires Inv(env, uid, s) && AllPlaced(s)
    ensures Evolves(s, Apply(env, s, a))
  {
    hide Inv, AllPlaced, ProcStep, Webhook.Admitted, Evolves, Restored, Consumed;
    SomethingIsStored(env, uid, s);
    match a
    case Client(r) =>
      ClientEvolves(env, s, r);
    case Step(pid, reply) =>
      if pid in s.procs {
        ProcStepEvolves(env, uid, s, pid, reply);
      } else {
        NothingEvolves(s, s);
      }
    case Restore(id, state, decision, phase) =>
      if id in s.born {
        BornNamed(env, uid, s, id);
      }
      RestoreEvolves(env, s, id, state, decision, phase);
    case _ =>
      NothingEvolves(s, Apply(env, s, a));
  }

  lemma {:induction false} WriteReplyIsWrite(env: Env, s: Sys, pid: nat, pc: Pc, reply: Reply)
    requires reply.WriteReply? && pc.Writing?
    ensures ProcStep(env, s, pid, pc, reply) == WriteStep(env, s, pid, pc, reply)
  {
    hide WriteStep;
  }

  lemma {:induction false} NothingEvolves(s: Sys, t: Sys)
    requires s.hist != [] && t.hist == s.hist && t.finished == s.finished && t.commits == s.commits
    ensures Evolves(s, t)
  {
    hide Follows;
  }

  lemma {:induction false} RestoreEvolves(env: Env, s: Sys, id: string, state: Progress, decision: string,
                                          phase: string)
    requires s.hist != [] && (id in s.born ==> s.born[id].content.id == id)
    ensures Evolves(s, Apply(env, s, Restore(id, state, decision, phase)))
  {
    hide Consumed;
  }

  // --------------------------------------------- whether an outcome will follow

  /** id is the stored action, and its phase is the one in which it is looked at. */
  predicate Reportable(s: Sys, id: string) {
    s.hist != [] && Holds(Current(s), id) && Current(s).phase == PENDING_APPROVAL
  }

  /** id was committed, has no outcome, and nobody looks at it any more. */
  predicate Dropped(s: Sys, id: string) {
    id in s.commits && id !in s.finished && !Reportable(s, id)
  }

  /** What is put back was finished before. */
  predicate BackIsFinished(s: Sys, t: Sys) {
    s.hist != [] && t.hist != [] && PutsBack(Current(s), Current(t)) ==>
      Current(t).pending.value.content.id in s.finished
  }

  lemma {:induction false} RestoresFinished(env: Env, uid: string, s: Sys, t: Sys)
    requires Inv(env, uid, s)
    ensures BackIsFinished(s, t)
  {
    hide Inv, Consumed;
    if s.hist != [] && t.hist != [] && PutsBack(Current(s), Current(t)) {
      ConsumedWasFinished(env, uid, s, Current(t).pending.value.content.id);
    }
  }

  lemma {:induction false} DroppedStays(s: Sys, t: Sys, id: string)
    requires Evolves(s, t) && BackIsFinished(s, t) && Dropped(s, id) && id in s.born && id in t.commits
    ensures Dropped(t, id)
  {
    hide SameWindow, Consumed;
  }

  lemma {:induction false} CommittedIsBorn(env: Env, uid: string, s: Sys, id: string)
    requires Inv(env, uid, s) && id in s.commits
    ensures id in s.born
  {
    hide VersionsOk, CurrentOk, ProcsOk, CallsOk, CalledIds, Replies, EndOk, Distinct;
  }

  lemma {:induction false} StepDropped(env: Env, uid: string, s: Sys, a: Label, id: string)
    requires Inv(env, uid, s) && AllPlaced(s) && Dropped(s, id)
    ensures Dropped(Apply(env, s, a), id)
  {
    hide Inv, AllPlaced, Apply, Evolves, BackIsFinished, Reportable;
    StepEvolves(env, uid, s, a);
    StepLater(env, uid, s, a);
    RestoresFinished(env, uid, s, Apply(env, s, a));
    CommittedIsBorn(env, uid, s, id);
    DroppedStays(s, Apply(env, s, a), id);
  }

  lemma {:induction false} DroppedRuns(env: Env, o: Object, labels: seq<Label>, more: seq<Label>, id: string)
    requires Governance.Lawful(env) && Fresh(env, o) && Dropped(Run(env, o, labels), id)
    ensures Dropped(Run(env, o, labels + more), id)
  {
    hide Run, Apply, Inv, AllPlaced, Fresh, Governance.Lawful, Dropped;
    if more == [] {
      assert labels + more == labels;
    } else {
      var init, a := more[..|more| - 1], more[|more| - 1];
      assert more == init + [a];
      DroppedRuns(env, o, labels, init, id);
      RunInvariant(env, o, labels + init);
      RunPlaced(env, o, labels + init);
      StepDropped(env, o.uid, Run(env, o, labels + init), a, id);
      RunMore(env, o, labels, init, a);
    }
  }

  /** Some continuation of the run records an outcome for id. */
  ghost predicate MayFinish(env: Env, o: Object, labels: seq<Label>, id: string) {
    exists more :: id in Run(env, o, labels + more).finished
  }

  /** An undecided committed action of the current version is Executing. */
  lemma {:induction false} ReportableIsExecuting(env: Env, uid: string, s: Sys, id: string)
    requires Inv(env, uid, s) && id in s.commits && id !in s.finished && Reportable(s, id)
    ensures Current(s).pending.value.state == Executing && !Consumed(Current(s).last, Current(s).consumed, id)
  {
    if Consumed(Current(s).last, Current(s).consumed, id) {
      ConsumedWasFinished(env, uid, s, id);
    }
    hide VersionsOk, BooksOk, ProcsOk, CallsOk, WindowOk, Consumed;
  }

  lemma {:induction false} ReportableFinishes(env: Env, o: Object, labels: seq<Label>, id: string)
    requires Governance.Lawful(env) && Fresh(env, o)
    requires var s := Run(env, o, labels);
             id in s.commits && id !in s.finished && Reportable(s, id)
    ensures MayFinish(env, o, labels, id)
  {
    hide Run, Fresh, Governance.Lawful, Inv, Consumed, Out, Apply;
    var s := Run(env, o, labels);
    RunInvariant(env, o, labels);
    ReportableIsExecuting(env, o.uid, s, id);
    var pid := FreePid(s.procs);
    var k, t := Overtaken(env, s, pid, Noise(true, 0), Current(s));
    var more :| t == ApplyAll(env, s, more);
    RunIsApplyAll(env, o, labels, more);
    assert t.finished[|s.finished|] == id;
  }

  /** Whether the end of a committed action is ever recorded. In every reachable
      state, and for every committed id without an outcome, some continuation
      records one exactly when the action is still stored in the pending phase. A
      failed check before the action path sets another phase, and from then on no
      outcome follows. */
  lemma {:induction false} OutcomeMayFollowIff(env: Env, o: Object, labels: seq<Label>, id: string)
    requires Governance.Lawful(env) && Fresh(env, o)
    requires id in Run(env, o, labels).commits && id !in Run(env, o, labels).finished
    ensures MayFinish(env, o, labels, id) <==> Reportable(Run(env, o, labels), id)
  {
    hide Run, Fresh, Governance.Lawful, Reportable;
    if Reportable(Run(env, o, labels), id) {
      ReportableFinishes(env, o, labels, id);
    } else {
      forall more
        ensures id !in Run(env, o, labels + more).finished
      {
        DroppedRuns(env, o, labels, more, id);
      }
    }
  }

  /** The next reconcile of an Executing action records "unknown" exactly when the
      checks before the action path let it through. */
  lemma {:induction false} NextReconcileReportsIff(env: Env, base: nat, o: Object, gate: Gate)
    requires o.phase == PENDING_APPROVAL && o.pending.Some? && o.pending.value.state == Executing
    requires !Consumed(o.last, o.consumed, o.pending.value.content.id)
    ensures Resume(env, Fetched(base, o), Opened(gate)) ==
            Writing(base, o, UnknownFinish(o, o.pending.value), Stop) <==>
            gate.Pass?
  {
    hide Consumed;
    if gate.Pass? {
      assert PlanFor(env, o, o.pending.value, gate.noise) == GiveUp;
    }
    hide PlanFor;
  }

  // ------------------------------------------------- where a lost outcome went

  /** Version v held id and the next one does not, and the phase of v was another
      one than the pending phase, or a restore put a decided action in its place. */
  predicate LeftAt(hist: seq<Object>, v: nat, id: string) {
    && v + 1 < |hist| && Holds(hist[v], id) && !Holds(hist[v + 1], id)
    && (hist[v].phase != PENDING_APPROVAL || PutsBack(hist[v], hist[v + 1]))
  }

  ghost predicate Left(hist: seq<Object>, id: string) {
    exists v :: LeftAt(hist, v, id)
  }

  /** id has an outcome, or is still stored, or was left behind. */
  ghost predicate Accounted(s: Sys, id: string) {
    id in s.finished || (s.hist != [] && Holds(Current(s), id)) || Left(s.hist, id)
  }

  lemma {:induction false} LeftGrows(a: seq<Object>, b: seq<Object>, id: string)
    requires a <= b && Left(a, id)
    ensures Left(b, id)
  {
    hide PutsBack;
    var v :| LeftAt(a, v, id);
    assert LeftAt(b, v, id);
  }

  lemma {:induction false} AccountedFollows(s: Sys, t: Sys, id: string)
    requires Evolves(s, t) && (id in s.commits ==> Accounted(s, id)) && id in t.commits
    ensures Accounted(t, id)
  {
    hide SameWindow, Consumed;
    if id in s.commits && id !in s.finished {
      if Left(s.hist, id) {
        LeftGrows(s.hist, t.hist, id);
      } else if t.hist != s.hist && !Holds(Current(t), id) && id !in t.finished {
        assert LeftAt(t.hist, |s.hist| - 1, id);
      }
    }
  }

  /** No committed action is lost without a trace: in every reachable state it has
      an outcome, or it is still the stored action, or the last version that held it
      was in another phase than the pending one, or a restore replaced it. */
  lemma {:induction false} CommittedIsAccounted(env: Env, o: Object, labels: seq<Label>, id: string)
    requires Governance.Lawful(env) && Fresh(env, o) && id in Run(env, o, labels).commits
    ensures Accounted(Run(env, o, labels), id)
  {
    hide Apply, Inv, AllPlaced, Fresh, Governance.Lawful, Accounted, Evolves;
    if labels != [] {
      var init, a := labels[..|labels| - 1], labels[|labels| - 1];
      var s := Run(env, o, init);
      if id in s.commits {
        CommittedIsAccounted(env, o, init, id);
      }
      RunInvariant(env, o, init);
      RunPlaced(env, o, init);
      StepEvolves(env, o.uid, s, a);
      AccountedFollows(s, Apply(env, s, a), id);
    }
  }

  // --------------------------------------------------- an action waits only once

  /** id waits for a decision, or for the end of what was decided. */
  predicate Active(o: Object, id: string) {
    o.phase == PENDING_APPROVAL && Holds(o, id) && !Consumed(o.last, o.consumed, id)
  }

  /** Between two versions in which id waits, it waits in every version. */
  predicate OneSpan(hist: seq<Object>, id: string) {
    forall i, j, k | 0 <= i <= j <= k < |hist| && Active(hist[i], id) && Active(hist[k], id) :: Active(hist[j], id)
  }

  lemma {:induction false} ActiveBefore(s: Sys, t: Sys, id: string)
    requires Evolves(s, t) && t.hist != s.hist && Active(Current(t), id)
    ensures Active(Current(s), id) || id !in s.born
  {
    hide Latest;
  }

  lemma {:induction false} UnbornIsNotHeld(env: Env, uid: string, born: map<string, Birth>, hist: seq<Object>,
                                           id: string)
    requires VersionsOk(env, uid, born, hist) && id !in born
    ensures forall v | 0 <= v < |hist| :: !Active(hist[v], id)
  {
    hide ApprovalProofs.StampOk, Known, Consumed, FrozenOf;
    forall v | 0 <= v < |hist|
      ensures !Active(hist[v], id)
    {
      assert VersionOk(env, uid, born, hist[v]);
    }
  }

  lemma {:induction false} SpanGrows(a: seq<Object>, o: Object, id: string)
    requires a != [] && OneSpan(a, id)
    requires Active(o, id) ==> Active(a[|a| - 1], id) || forall v | 0 <= v < |a| :: !Active(a[v], id)
    ensures OneSpan(a + [o], id)
  {
    hide Active;
    var b := a + [o];
    forall i, j, k | 0 <= i <= j <= k < |b| && Active(b[i], id) && Active(b[k], id)
      ensures Active(b[j], id)
    {
      if k == |a| && j < |a| {
        assert Active(a[|a| - 1], id) && Active(a[i], id);
      }
    }
  }

  lemma {:induction false} StepOneSpan(env: Env, uid: string, s: Sys, a: Label, id: string)
    requires Inv(env, uid, s) && AllPlaced(s) && OneSpan(s.hist, id)
    ensures OneSpan(Apply(env, s, a).hist, id)
  {
    hide AllPlaced, Apply, OneSpan, Active, VersionsOk, BooksOk, CurrentOk, ProcsOk, CallsOk, Follows;
    StepEvolves(env, uid, s, a);
    var t := Apply(env, s, a);
    if t.hist != s.hist {
      if Active(Current(t), id) {
        ActiveBefore(s, t, id);
        if id !in s.born {
          UnbornIsNotHeld(env, uid, s.born, s.hist, id);
        }
      }
      SpanGrows(s.hist, Current(t), id);
    }
  }

  /** An action that left the pending phase, or was decided, never waits again. */
  lemma {:induction false} WaitsOnce(env: Env, o: Object, labels: seq<Label>, id: string)
    requires Governance.Lawful(env) && Fresh(env, o)
    ensures OneSpan(Run(env, o, labels).hist, id)
  {
    hide Apply, Inv, AllPlaced, Fresh, Governance.Lawful, Active;
    if labels != [] {
      var init, a := labels[..|labels| - 1], labels[|labels| - 1];
      WaitsOnce(env, o, init, id);
      hide OneSpan;
      RunInvariant(env, o, init);
      RunPlaced(env, o, init);
      StepOneSpan(env, o.uid, Run(env, o, init), a, id);
    }
  }

  // ------------------------------------------------ one decision in all versions

  ghost predicate AnnotationStepAt(env: Env, hist: seq<Object>, v: nat) {
    v + 1 < |hist| ==> AnnotationStep(env, hist[v], hist[v + 1])
  }

  /** Every version has the annotations of the one before, or what the webhook made
      of a request on it. */
  ghost predicate AnnotationSteps(env: Env, hist: seq<Object>) {
    forall v | 0 <= v < |hist| :: AnnotationStepAt(env, hist, v)
  }

  lemma {:induction false} AnnotationStepsGrow(env: Env, a: seq<Object>, o: Object)
    requires AnnotationSteps(env, a) && a != [] && AnnotationStep(env, a[|a| - 1], o)
    ensures AnnotationSteps(env, a + [o])
  {
    hide AnnotationStep;
    var b := a + [o];
    forall v | 0 <= v < |b|
      ensures AnnotationStepAt(env, b, v)
    {
      if v < |a| {
        assert AnnotationStepAt(env, a, v);
      }
    }
  }

  lemma {:induction false} StepKeepsAnnotationSteps(env: Env, uid: string, s: Sys, a: Label)
    requires Inv(env, uid, s) && AnnotationSteps(env, s.hist)
    ensures AnnotationSteps(env, Apply(env, s, a).hist)
  {
    hide Inv, Apply, AnnotationSteps, AnnotationStep;
    StepAnnotations(env, uid, s, a);
    var t := Apply(env, s, a);
    if t.hist != s.hist {
      AnnotationStepKeptOrMade(env, s, t);
      AnnotationStepsGrow(env, s.hist, Current(t));
      assert t.hist == s.hist + [Current(t)];
    }
  }

  lemma {:induction false} AnnotationStepKeptOrMade(env: Env, s: Sys, t: Sys)
    requires s.hist != [] && t.hist != []
    requires AnnotationStep(env, Current(s), Current(t))
    ensures AnnotationStep(env, s.hist[|s.hist| - 1], Current(t))
  {
    hide AnnotationStep;
  }

  lemma {:induction false} RunAnnotationSteps(env: Env, o: Object, labels: seq<Label>)
    requires Governance.Lawful(env) && Fresh(env, o)
    ensures AnnotationSteps(env, Run(env, o, labels).hist)
  {
    hide Apply, Inv, Fresh, Governance.Lawful, AnnotationStep;
    if labels != [] {
      var init, a := labels[..|labels| - 1], labels[|labels| - 1];
      RunAnnotationSteps(env, o, init);
      hide AnnotationSteps;
      RunInvariant(env, o, init);
      StepKeepsAnnotationSteps(env, o.uid, Run(env, o, init), a);
    }
  }

  /** While a stamped action waits, the six annotations stay. */
  lemma {:induction false} WaitingKeepsStamp(env: Env, uid: string, s: Sys, i: nat, k: nat, id: string)
    requires VersionsOk(env, uid, s.born, s.hist) && AnnotationSteps(env, s.hist) && OneSpan(s.hist, id)
    requires i <= k < |s.hist| && Active(s.hist[i], id) && Active(s.hist[k], id)
    requires ApprovalProofs.StampedFor(env.codec, env.hashes, env.key, s.hist[i].ann,
                                       RefOf(env.hashes, s.hist[i].uid, s.hist[i].pending.value.content))
    ensures Approval.SameProtocol(s.hist[i].ann, s.hist[k].ann)
    decreases k - i
  {
    hide VersionsOk, AnnotationStep, OneSpan, ApprovalProofs.StampedFor, Approval.SameProtocol, RefOf, Consumed;
    if i < k {
      SpanHolds(s.hist, id, i, k - 1, k);
      WaitingKeepsStamp(env, uid, s, i, k - 1, id);
      SameContent(env, uid, s, i, k - 1);
      assert AnnotationStepAt(env, s.hist, k - 1);
      StampedStepKeeps(env, s.hist[k - 1], s.hist[i].ann, s.hist[k]);
    } else {
      SameProtocolItself(s.hist[i].ann);
    }
  }

  lemma {:induction false} SpanHolds(hist: seq<Object>, id: string, i: nat, j: nat, k: nat)
    requires OneSpan(hist, id) && i <= j <= k < |hist| && Active(hist[i], id) && Active(hist[k], id)
    ensures Active(hist[j], id)
  {
    hide Active;
  }

  lemma {:induction false} SameProtocolItself(a: Approval.Annotations)
    ensures Approval.SameProtocol(a, a)
  {
  }

  /** A decision that was read on a stored version is a stamped one. */
  lemma {:induction false} ReadIsStamped(env: Env, uid: string, s: Sys, v: nat)
    requires VersionsOk(env, uid, s.born, s.hist) && BirthsNamed(s.born)
    requires v < |s.hist| && s.hist[v].pending.Some?
    requires var o := s.hist[v];
             var r := Approval.Read(env.codec, env.hashes, o.ann, RefOf(env.hashes, o.uid, o.pending.value.content),
                                    env.key);
             r.Ok? && r.value.Some?
    ensures var o := s.hist[v];
            ApprovalProofs.StampedFor(env.codec, env.hashes, env.key, o.ann,
                                      RefOf(env.hashes, o.uid, o.pending.value.content))
  {
    hide Approval.Read, Consumed, Approval.PendingSha, ApprovalProofs.StampOk, ApprovalProofs.StampedFor;
    var o := s.hist[v];
    assert VersionOk(env, uid, s.born, o);
    var c := o.pending.value.content;
    var p := RefOf(env.hashes, uid, c);
    assert Known(env, uid, s.born)[c.id] == p;
    ApprovalProofs.ReadNeverRefuses(env.codec, env.hashes, env.key, o.ann, Known(env, uid, s.born), p);
  }

  /** What two versions that hold one waiting action say about it is the same. */
  lemma {:induction false} HandledAlike(env: Env, uid: string, s: Sys, i: nat, k: nat, h: Handled, g: Handled)
    requires VersionsOk(env, uid, s.born, s.hist) && BirthsNamed(s.born)
    requires AnnotationSteps(env, s.hist) && OneSpan(s.hist, h.content.id)
    requires i <= k < |s.hist| && h.content.id == g.content.id
    requires Holding(env, s.hist[i], h, Recording) && Holding(env, s.hist[k], g, Recording)
    ensures HumanRow(h) == HumanRow(g)
  {
    hide VersionsOk, BirthsNamed, AnnotationSteps, OneSpan, Consumed, BlockedBy, Approval.Read,
    ApprovalProofs.StampedFor, TargetOf, RefOf, Approval.SameProtocol;
    var o, o' := s.hist[i], s.hist[k];
    SameContent(env, uid, s, i, k);
    ReadIsStamped(env, uid, s, i);
    WaitingKeepsStamp(env, uid, s, i, k, h.content.id);
    ApprovalProofs.OnlyProtocolKeysMatter(env.codec, env.hashes, env.key, o.ann, o'.ann,
                                          RefOf(env.hashes, o.uid, h.content));
  }

  // --------------------------------------------------------- the human receipts

  ghost predicate OriginAt(env: Env, hist: seq<Object>, v: nat, h: Handled, e: Entry) {
    v < |hist| && Holding(env, hist[v], h, Recording) && e == HumanRow(h)
  }

  ghost predicate HasOrigin(env: Env, hist: seq<Object>, e: Entry) {
    exists v, h :: OriginAt(env, hist, v, h, e)
  }

  /** Every human row was written for a decision that was read on some version. */
  ghost predicate RowsOk(env: Env, s: Sys) {
    forall i | 0 <= i < |s.receipts| && s.receipts[i].HumanEntry? :: HasOrigin(env, s.hist, s.receipts[i])
  }

  lemma {:induction false} OriginGrows(env: Env, a: seq<Object>, b: seq<Object>, e: Entry)
    requires a <= b && HasOrigin(env, a, e)
    ensures HasOrigin(env, b, e)
  {
    hide Holding, HumanRow;
    var v, h :| OriginAt(env, a, v, h, e);
    assert OriginAt(env, b, v, h, e);
  }

  lemma {:induction false} RowsGrow(env: Env, s: Sys, t: Sys, added: seq<Entry>)
    requires RowsOk(env, s) && s.hist <= t.hist && t.receipts == s.receipts + added
    requires forall e | e in added && e.HumanEntry? :: HasOrigin(env, s.hist, e)
    ensures RowsOk(env, t)
  {
    hide HasOrigin;
    forall i | 0 <= i < |t.receipts| && t.receipts[i].HumanEntry?
      ensures HasOrigin(env, t.hist, t.receipts[i])
    {
      if i >= |s.receipts| {
        assert t.receipts[i] == added[i - |s.receipts|];
      }
      OriginGrows(env, s.hist, t.hist, t.receipts[i]);
    }
  }

  /** A row that is about to be written for a human decision has its origin. */
  lemma {:induction false} EntryHasOrigin(env: Env, s: Sys, pid: nat, pc: Pc)
    requires (pc.HumanReceipt? || pc.DenyReceipt? || pc.DecisionReceipt?) && PcOk(env, s, pid, pc)
    ensures EntryOf(pc).HumanEntry? ==> HasOrigin(env, s.hist, EntryOf(pc))
  {
    hide Holding;
    if pc.HumanReceipt? {
      assert OriginAt(env, s.hist, pc.base, pc.h, EntryOf(pc));
    }
  }

  /** What a step adds to the receipt log. */
  function Appends(s: Sys, a: Label): seq<Entry> {
    if a.Step? && a.pid in s.procs && a.reply.AppendReply? && a.reply.stored
      && (s.procs[a.pid].HumanReceipt? || s.procs[a.pid].DenyReceipt? || s.procs[a.pid].DecisionReceipt?)
    then [EntryOf(s.procs[a.pid])] else []
  }

  lemma {:induction false} MoveKeepsReceipts(s: Sys, pid: nat, pc: Pc)
    ensures Move(s, pid, pc).receipts == s.receipts
  {
  }

  lemma {:induction false} WriteKeepsReceipts(env: Env, s: Sys, pid: nat, pc: Pc, reply: Reply)
    requires pc.Writing? && reply.WriteReply?
    ensures WriteStep(env, s, pid, pc, reply).receipts == s.receipts
  {
    hide Resume, Out, CanWrite, Store, Booked, Move;
    if reply.applied && CanWrite(s, pc, reply.bumped) {
      StoreIsNotEmpty(s, pc, reply.bumped);
      var hist := Store(s.hist, Out(pc.o, pc.kind), reply.bumped);
      var w := |hist| - 1;
      BookedKeepsProcs(s.(hist := hist), pid, pc.o, pc.kind, w);
      MoveKeepsReceipts(Booked(s.(hist := hist), pid, pc.o, pc.kind, w), pid,
                        Resume(env, pc, if reply.seen then Written(w) else Refused));
    } else {
      MoveKeepsReceipts(s, pid, Resume(env, pc, Refused));
    }
  }

  lemma {:induction false} StepAppends(env: Env, s: Sys, a: Label)
    requires s.hist != []
    ensures Apply(env, s, a).receipts == s.receipts + Appends(s, a)
  {
    hide Resume, EntryOf, WriteStep, Webhook.Admitted, Consumed, Current;
    if a.Step? && a.pid in s.procs && a.reply.WriteReply? && s.procs[a.pid].Writing? {
      WriteKeepsReceipts(env, s, a.pid, s.procs[a.pid], a.reply);
    }
  }

  lemma {:induction false} StepRows(env: Env, uid: string, s: Sys, a: Label)
    requires Inv(env, uid, s) && RowsOk(env, s)
    ensures RowsOk(env, Apply(env, s, a))
  {
    hide VersionsOk, BooksOk, CurrentOk, CallsOk, PcOk, Apply, RowsOk, HasOrigin, EntryOf, Later;
    StepLater(env, uid, s, a);
    SomethingIsStored(env, uid, s);
    StepAppends(env, s, a);
    if Appends(s, a) != [] {
      assert PcOk(env, s, a.pid, s.procs[a.pid]);
      EntryHasOrigin(env, s, a.pid, s.procs[a.pid]);
    }
    assert s.hist <= Apply(env, s, a).hist by { LaterHistory(s, Apply(env, s, a)); }
    RowsGrow(env, s, Apply(env, s, a), Appends(s, a));
  }

  lemma {:induction false} LaterHistory(s: Sys, t: Sys)
    requires Later(s, t)
    ensures s.hist <= t.hist
  {
  }

  lemma {:induction false} RunRows(env: Env, o: Object, labels: seq<Label>)
    requires Governance.Lawful(env) && Fresh(env, o)
    ensures RowsOk(env, Run(env, o, labels))
  {
    hide Apply, Inv, Fresh, Governance.Lawful, HasOrigin;
    if labels != [] {
      var init, a := labels[..|labels| - 1], labels[|labels| - 1];
      RunRows(env, o, init);
      hide RowsOk;
      RunInvariant(env, o, init);
      StepRows(env, o.uid, Run(env, o, init), a);
    }
  }

  lemma {:induction false} RowsOfOneAction(env: Env, uid: string, s: Sys, e: Entry, f: Entry)
    requires VersionsOk(env, uid, s.born, s.hist) && BirthsNamed(s.born) && AnnotationSteps(env, s.hist)
    requires e.HumanEntry? && f.HumanEntry? && e.id == f.id && OneSpan(s.hist, e.id)
    requires HasOrigin(env, s.hist, e) && HasOrigin(env, s.hist, f)
    ensures e == f
  {
    hide VersionsOk, BirthsNamed, AnnotationSteps, OneSpan, Holding;
    var v, h :| OriginAt(env, s.hist, v, h, e);
    var w, g :| OriginAt(env, s.hist, w, g, f);
    if v <= w {
      HandledAlike(env, uid, s, v, w, h, g);
    } else {
      HandledAlike(env, uid, s, w, v, g, h);
    }
  }

  /** A stop between the receipt and the next write can put a second human row for
      one action in the log, but no different one: in every run, two human rows with
      one pending id are equal in outcome and payload. */
  lemma {:induction false} HumanRowsAgree(env: Env, o: Object, labels: seq<Label>, i: nat, k: nat)
    requires Governance.Lawful(env) && Fresh(env, o)
    requires var s := Run(env, o, labels);
             && i < |s.receipts| && k < |s.receipts| && s.receipts[i].HumanEntry? && s.receipts[k].HumanEntry?
             && s.receipts[i].id == s.receipts[k].id
    ensures Run(env, o, labels).receipts[i] == Run(env, o, labels).receipts[k]
  {
    hide Run, Fresh, Governance.Lawful, VersionsOk, CurrentOk, ProcsOk, CallsOk, OneSpan, AnnotationSteps, HasOrigin,
         Distinct, CalledIds, Replies, EndOk;
    var s := Run(env, o, labels);
    RunInvariant(env, o, labels);
    RunRows(env, o, labels);
    RunAnnotationSteps(env, o, labels);
    WaitsOnce(env, o, labels, s.receipts[i].id);
    assert BirthsNamed(s.born);
    hide BooksOk;
    RowsOfOneAction(env, o.uid, s, s.receipts[i], s.receipts[k]);
  }
}
