/** Two limits of the protocol, each with its exact condition: when an action
    that was reported as finished can still run, and when a restored one can run.
  */
module ProtocolLimits {
  import opened Text
  import opened Workload
  import opened Governance
  import opened Protocol
  import opened ProtocolInvariant
  import opened ProtocolTheorems
  import opened ProtocolSchedules
  import Approval
  import Webhook

  // ------------------------------------------------ after a commit, who calls

  /** Reconciler pid is about to call the tool server for id. */
  predicate CallsNext(s: Sys, pid: nat, id: string) {
    pid in s.procs && s.procs[pid].Calling? && s.procs[pid].h.content.id == id
  }

  ghost predicate SomeoneCalls(s: Sys, id: string) {
    exists pid :: CallsNext(s, pid, id)
  }

  /** id was committed, and the reconciler that did so is not there to call. */
  ghost predicate Spent(s: Sys, id: string) {
    id in s.commits && !SomeoneCalls(s, id)
  }

  /** Between s and t the tool server was called for id. */
  ghost predicate AddsCall(s: Sys, t: Sys, id: string) {
    exists i | |s.held| <= i < |t.held| :: t.held[i].h.content.id == id
  }

  /** A reconciler gets to its call only from the Executing write. */
  lemma {:induction false} CallComesFromWrite(env: Env, pc: Pc, r: Response)
    requires Resume(env, pc, r).Calling?
    ensures pc.Writing? && r.Written? && pc.next.ToCall? && Resume(env, pc, r).h == pc.next.h
  {
    hide PlanFor, ApproverSha, Latest, DraftOf, ContentOf, Out;
  }

  lemma {:induction false} CallerCommits(env: Env, s: Sys, pid: nat, pc: Pc)
    requires PcOk(env, s, pid, pc) && pc.Writing? && pc.next.ToCall?
    ensures pc.kind.Execute? && pc.o.pending.Some? && pc.o.pending.value.content.id == pc.next.h.content.id
  {
    hide Handles, Consumed, Passes, Witnessed, HumanRow;
  }

  /** The places after a step of pid, when its new place is not a call for id. */
  lemma {:induction false} MovedSpent(s: Sys, t: Sys, pid: nat, pc: Pc, id: string)
    requires Spent(s, id) && t.procs == s.procs && id in t.commits
    requires pc.Calling? ==> pc.h.content.id != id
    ensures Spent(Move(t, pid, pc), id)
  {
    var u := Move(t, pid, pc);
    forall other
      ensures !CallsNext(u, other, id)
    {
      assert !CallsNext(s, other, id);
    }
  }

  /** An applied write never leads to a second call for a committed id. */
  lemma {:induction false} WriterIsOther(env: Env, uid: string, s: Sys, pid: nat, pc: Pc, bumped: bool, r: Response,
                                         id: string)
    requires Inv(env, uid, s) && PcOk(env, s, pid, pc) && CanWrite(s, pc, bumped) && id in s.commits
    ensures Resume(env, pc, r).Calling? ==> Resume(env, pc, r).h.content.id != id
  {
    hide Inv, PcOk, Resume, CanWrite, Current;
    if Resume(env, pc, r).Calling? {
      CallComesFromWrite(env, pc, r);
      assert pc.Writing?;
      CallerCommits(env, s, pid, pc);
      CommitIsFirst(env, uid, s, pid, pc, bumped);
    }
  }

  lemma {:induction false} BookedKeeps(s: Sys, pid: nat, o: Object, k: Kind, w: nat, id: string)
    requires id in s.commits
    ensures var t := Booked(s, pid, o, k, w);
            id in t.commits && t.held == s.held && t.procs == s.procs
  {
  }

  lemma {:induction false} WriteStepSpent(env: Env, uid: string, s: Sys, pid: nat, pc: Pc, reply: Reply, id: string)
    requires Inv(env, uid, s) && PcOk(env, s, pid, pc) && pc.Writing? && reply.WriteReply? && Spent(s, id)
    ensures var t := WriteStep(env, s, pid, pc, reply);
            Spent(t, id) && !AddsCall(s, t, id)
  {
    hide Inv, PcOk, Resume, Out, Spent, Booked;
    SpentIsCommitted(s, id);
    if reply.applied && CanWrite(s, pc, reply.bumped) {
      var hist := Store(s.hist, Out(pc.o, pc.kind), reply.bumped);
      assert |hist| > 0;
      hide CanWrite, Store;
      var w := |hist| - 1;
      var r := if reply.seen then Written(w) else Refused;
      WriterIsOther(env, uid, s, pid, pc, reply.bumped, r, id);
      BookedKeeps(s.(hist := hist), pid, pc.o, pc.kind, w, id);
      MovedSpent(s, Booked(s.(hist := hist), pid, pc.o, pc.kind, w), pid, Resume(env, pc, r), id);
    } else {
      RefusedEnds(env, pc);
      MovedSpent(s, s, pid, Done, id);
    }
  }

  lemma {:induction false} RefusedEnds(env: Env, pc: Pc)
    requires pc.Writing?
    ensures Resume(env, pc, Refused) == Done
  {
  }

  lemma {:induction false} SpentIsCommitted(s: Sys, id: string)
    requires Spent(s, id)
    ensures id in s.commits
  {
  }

  lemma {:induction false} AppendStepSpent(env: Env, s: Sys, pid: nat, pc: Pc, reply: Reply, id: string)
    requires Spent(s, id) && (pc.HumanReceipt? || pc.DenyReceipt? || pc.DecisionReceipt?) && reply.AppendReply?
    ensures var t := AppendStep(env, s, pid, pc, reply);
            Spent(t, id) && !AddsCall(s, t, id)
  {
    hide Resume, EntryOf, Spent;
    SpentIsCommitted(s, id);
    var receipts := if reply.stored then s.receipts + [EntryOf(pc)] else s.receipts;
    var r := if reply.stored && reply.seen then Stored(|receipts|) else NotStored;
    NoCall(env, pc, r);
    MovedSpent(s, s.(receipts := receipts), pid, Resume(env, pc, r), id);
  }

  lemma {:induction false} ExampleStepSpent(env: Env, s: Sys, pid: nat, pc: Pc, reply: Reply, id: string)
    requires Spent(s, id) && pc.StoringExample? && reply.ExampleReply?
    ensures var t := ExampleStep(env, s, pid, pc, reply);
            Spent(t, id) && !AddsCall(s, t, id)
  {
    hide Resume, Spent;
    SpentIsCommitted(s, id);
    var examples := if reply.stored then s.examples + [Labelled(pc.h, pc.base, pc.receiptSeq)] else s.examples;
    var r := if reply.stored && reply.seen then Kept else NotKept;
    NoCall(env, pc, r);
    MovedSpent(s, s.(examples := examples), pid, Resume(env, pc, r), id);
  }

  /** Whoever calls now, calls for another id. */
  lemma {:induction false} CallStepSpent(env: Env, s: Sys, pid: nat, pc: Pc, ok: bool, id: string)
    requires Spent(s, id) && Stands(s, pid, pc) && (pc.Calling? || pc.DirectCalling?)
    ensures var t := CallStep(env, s, pid, pc, ok);
            Spent(t, id) && !AddsCall(s, t, id)
  {
    assert !CallsNext(s, pid, id);
    hide Resume, Spent;
    SpentIsCommitted(s, id);
    var t := if pc.Calling? then s.(held := s.held + [HeldCall(pc.h, pc.base, |s.receipts|, ok)])
             else s.(direct := s.direct + [DirectCall(pc.d, pc.base, |s.receipts|, ok)]);
    NoCall(env, pc, Returned(ok));
    MovedSpent(s, t, pid, Resume(env, pc, Returned(ok)), id);
  }

  lemma {:induction false} GateStepSpent(env: Env, s: Sys, pid: nat, pc: Pc, gate: Gate, id: string)
    requires Spent(s, id)
    ensures var t := ProcStep(env, s, pid, pc, GateReply(gate));
            Spent(t, id) && !AddsCall(s, t, id)
  {
    hide Resume, Spent;
    SpentIsCommitted(s, id);
    NoCall(env, pc, Opened(gate));
    MovedSpent(s, s, pid, Resume(env, pc, Opened(gate)), id);
  }

  lemma {:induction false} AskStepSpent(env: Env, s: Sys, pid: nat, pc: Pc, answer: Answer, id: string)
    requires Spent(s, id)
    ensures var t := ProcStep(env, s, pid, pc, AskReply(answer));
            Spent(t, id) && !AddsCall(s, t, id)
  {
    hide Resume, Spent;
    SpentIsCommitted(s, id);
    NoCall(env, pc, Answered(answer));
    MovedSpent(s, s, pid, Resume(env, pc, Answered(answer)), id);
    if answer.Proposed? {
      MovedSpent(s, s.(minted := s.minted[answer.id := pid]), pid, Resume(env, pc, Answered(answer)), id);
    }
  }

  lemma {:induction false} ProcIsPlaced(env: Env, uid: string, s: Sys, pid: nat)
    requires Inv(env, uid, s) && pid in s.procs
    ensures PcOk(env, s, pid, s.procs[pid]) && Stands(s, pid, s.procs[pid])
  {
    hide VersionOk, BooksOk, CurrentOk, CallsOk, PcOk;
  }

  lemma {:induction false} NothingAdded(s: Sys, id: string)
    ensures !AddsCall(s, s, id)
  {
  }

  /** Once a committed id is left without a caller, no step calls for it. */
  lemma {:induction false} ProcStepSpent(env: Env, uid: string, s: Sys, pid: nat, reply: Reply, id: string)
    requires Inv(env, uid, s) && pid in s.procs && Spent(s, id)
    ensures var t := ProcStep(env, s, pid, s.procs[pid], reply);
            Spent(t, id) && !AddsCall(s, t, id)
  {
    hide PcOk, Inv, Spent, WriteStep, AppendStep, ExampleStep, CallStep, Resume, AddsCall, Move;
    var pc := s.procs[pid];
    ProcIsPlaced(env, uid, s, pid);
    NothingAdded(s, id);
    match reply
    case GateReply(gate) =>
      GateStepSpent(env, s, pid, pc, gate, id);
    case WriteReply(_, _, _) =>
      if pc.Writing? {
        WriteStepSpent(env, uid, s, pid, pc, reply, id);
      }
    case AppendReply(stored, seen) =>
      if pc.HumanReceipt? || pc.DenyReceipt? || pc.DecisionReceipt? {
        AppendStepSpent(env, s, pid, pc, reply, id);
      }
    case ExampleReply(stored, seen) =>
      if pc.StoringExample? {
        ExampleStepSpent(env, s, pid, pc, reply, id);
      }
    case CallReply(ok) =>
      if pc.Calling? || pc.DirectCalling? {
        CallStepSpent(env, s, pid, pc, ok, id);
      }
    case AskReply(answer) =>
      AskStepSpent(env, s, pid, pc, answer, id);
  }

  /** Nor does any other. */
  lemma {:induction false} SameCallersSpent(s: Sys, t: Sys, id: string)
    requires Spent(s, id) && id in t.commits && t.held == s.held
    requires forall pid | pid in t.procs :: t.procs[pid].Fetched? || (pid in s.procs && t.procs[pid] == s.procs[pid])
    ensures Spent(t, id) && !AddsCall(s, t, id)
  {
    forall pid
      ensures !CallsNext(t, pid, id)
    {
      assert !CallsNext(s, pid, id);
    }
  }

  lemma {:induction false} OutsideSpent(env: Env, s: Sys, a: Label, id: string)
    requires Spent(s, id) && !(a.Step? && a.pid in s.procs)
    ensures Spent(Apply(env, s, a), id) && !AddsCall(s, Apply(env, s, a), id)
  {
    SpentIsCommitted(s, id);
    hide Webhook.Admitted, Consumed, Spent, AddsCall, Current;
    SameCallersSpent(s, Apply(env, s, a), id);
  }

  lemma {:induction false} StepSpent(env: Env, uid: string, s: Sys, a: Label, id: string)
    requires Inv(env, uid, s) && Spent(s, id)
    ensures Spent(Apply(env, s, a), id) && !AddsCall(s, Apply(env, s, a), id)
  {
    hide VersionOk, BooksOk, CurrentOk, ProcsOk, CallsOk, ProcStep, Spent, AddsCall;
    if a.Step? && a.pid in s.procs {
      ProcStepSpent(env, uid, s, a.pid, a.reply, id);
    } else {
      hide Apply;
      OutsideSpent(env, s, a, id);
    }
  }

  lemma {:induction false} NoCall(env: Env, pc: Pc, r: Response)
    requires !pc.Writing? || !r.Written?
    ensures !Resume(env, pc, r).Calling?
  {
    hide Resume;
    if Resume(env, pc, r).Calling? {
      CallComesFromWrite(env, pc, r);
    }
  }

  lemma {:induction false} NoCallTwice(s: Sys, t: Sys, u: Sys, id: string)
    requires s.held <= t.held && !AddsCall(s, t, id) && !AddsCall(t, u, id) && t.held <= u.held
    ensures !AddsCall(s, u, id)
  {
    forall i | |s.held| <= i < |u.held|
      ensures u.held[i].h.content.id != id
    {
      if i < |t.held| {
        assert u.held[i] == t.held[i];
      }
    }
  }

  lemma {:induction false} SpentRuns(env: Env, o: Object, labels: seq<Label>, more: seq<Label>, id: string)
    requires Governance.Lawful(env) && Fresh(env, o) && Spent(Run(env, o, labels), id)
    ensures Spent(Run(env, o, labels + more), id) && !AddsCall(Run(env, o, labels), Run(env, o, labels + more), id)
  {
    hide Run, Apply, Inv, Fresh, Governance.Lawful, Spent;
    if more == [] {
      assert labels + more == labels;
    } else {
      var init, a := more[..|more| - 1], more[|more| - 1];
      assert more == init + [a];
      SpentRuns(env, o, labels, init, id);
      RunInvariant(env, o, labels + init);
      StepSpent(env, o.uid, Run(env, o, labels + init), a, id);
      RunMore(env, o, labels, init, a);
      NothingIsUndone(env, o, labels, init);
      StepLater(env, o.uid, Run(env, o, labels + init), a);
      NoCallTwice(Run(env, o, labels), Run(env, o, labels + init), Run(env, o, labels + more), id);
    }
  }

  /** The one that stands before its call can make it now. */
  lemma {:induction false} CallerCanCall(env: Env, o: Object, labels: seq<Label>, pid: nat, id: string)
    requires CallsNext(Run(env, o, labels), pid, id) && Run(env, o, labels).hist != []
    ensures AddsCall(Run(env, o, labels), Run(env, o, labels + [Step(pid, CallReply(true))]), id)
  {
    hide Run, Resume, CalledFinish;
    var s := Run(env, o, labels);
    assert labels + ([] + [Step(pid, CallReply(true))]) == labels + [Step(pid, CallReply(true))] &&
           labels + [] == labels;
    RunMore(env, o, labels, [], Step(pid, CallReply(true)));
    var pc := s.procs[pid];
    CalledStep(env, s, pid, pc, true);
    var t := Run(env, o, labels + [Step(pid, CallReply(true))]);
    assert t.held == s.held + [HeldCall(pc.h, pc.base, |s.receipts|, true)];
    assert t.held[|s.held|].h.content.id == id;
  }

  /** Some continuation of the run calls the tool server for id. */
  ghost predicate MayCall(env: Env, o: Object, labels: seq<Label>, id: string) {
    exists more :: AddsCall(Run(env, o, labels), Run(env, o, labels + more), id)
  }

  /** After its Executing commit, an action can still be called exactly when the
      reconciler that committed it stands before the call. */
  lemma {:induction false} CommittedMayCallIff(env: Env, o: Object, labels: seq<Label>, id: string)
    requires Governance.Lawful(env) && Fresh(env, o) && id in Run(env, o, labels).commits
    ensures MayCall(env, o, labels, id) <==> SomeoneCalls(Run(env, o, labels), id)
  {
    hide Run, Fresh, Governance.Lawful, AddsCall, VersionOk, BooksOk, CurrentOk, ProcsOk, CallsOk;
    RunInvariant(env, o, labels);
    var s := Run(env, o, labels);
    if SomeoneCalls(s, id) {
      var pid :| CallsNext(s, pid, id);
      CallerCanCall(env, o, labels, pid, id);
    } else {
      forall more
        ensures !AddsCall(s, Run(env, o, labels + more), id)
      {
        SpentRuns(env, o, labels, more, id);
      }
    }
  }

  lemma {:induction false} CallerHasNotCalled(env: Env, uid: string, s: Sys, pid: nat, id: string)
    requires Inv(env, uid, s) && CallsNext(s, pid, id)
    ensures id !in CalledIds(s.held) && id in s.commits
  {
    hide VersionsOk, BooksOk, CurrentOk, CallsOk, Holding, CalledIds, Witnessed, HumanRow, Passes;
    assert PcOk(env, s, pid, s.procs[pid]);
  }

  lemma {:induction false} RepliedWasCalled(s: Sys, id: string, ok: bool)
    requires (id, ok) in Replies(s.held)
    ensures id in CalledIds(s.held)
  {
    var ids, replies := CalledIds(s.held), Replies(s.held);
    assert forall i | 0 <= i < |s.held| :: replies[i].0 == ids[i];
  }

  /** Only the outcome "unknown" goes with a commit that has not called yet. */
  lemma {:induction false} CallerMeansUnknown(env: Env, uid: string, s: Sys, pid: nat, id: string)
    requires Inv(env, uid, s) && CallsNext(s, pid, id) && id in s.ends
    ensures s.ends[id].outcome == "unknown"
  {
    CallerHasNotCalled(env, uid, s, pid, id);
    EndingIsTrue(s, id);
    hide Inv, CallsNext, Replies, CalledIds;
    if (id, true) in Replies(s.held) {
      RepliedWasCalled(s, id, true);
    }
    if (id, false) in Replies(s.held) {
      RepliedWasCalled(s, id, false);
    }
  }

  /** What a finished action may still do. The outcomes executed, failed, rejected
      and denied are final. "unknown" promises less than its message says: an
      action with this outcome still runs, once, exactly when the reconciler that
      made its Executing write stands before the call. */
  lemma {:induction false} FinishedMayStillRunIff(env: Env, o: Object, labels: seq<Label>, id: string)
    requires Governance.Lawful(env) && Fresh(env, o) && id in Run(env, o, labels).ends
    ensures var s := Run(env, o, labels);
            MayCall(env, o, labels, id) <==> s.ends[id].outcome == "unknown" && SomeoneCalls(s, id)
  {
    hide Run, Fresh, Governance.Lawful, MayCall, Inv, CallsNext;
    RunInvariant(env, o, labels);
    var s := Run(env, o, labels);
    if id in s.commits {
      CommittedMayCallIff(env, o, labels, id);
      if SomeoneCalls(s, id) {
        var pid :| CallsNext(s, pid, id);
        CallerMeansUnknown(env, o.uid, s, pid, id);
      }
    } else {
      UncommittedNeverCalls(env, o, labels, id);
      forall pid
        ensures !CallsNext(s, pid, id)
      {
        if CallsNext(s, pid, id) {
          CallerHasNotCalled(env, o.uid, s, pid, id);
        }
      }
    }
  }

  lemma {:induction false} CalledIsListed(s: Sys, t: Sys, id: string)
    requires AddsCall(s, t, id)
    ensures id in CalledIds(t.held)
  {
    var i :| |s.held| <= i < |t.held| && t.held[i].h.content.id == id;
    assert CalledIds(t.held)[i] == id;
  }

  lemma {:induction false} UncommittedNeverCalls(env: Env, o: Object, labels: seq<Label>, id: string)
    requires Governance.Lawful(env) && Fresh(env, o)
    requires id in Run(env, o, labels).ends && id !in Run(env, o, labels).commits
    ensures !MayCall(env, o, labels, id)
  {
    hide Run, Fresh, Governance.Lawful, AddsCall, VersionsOk, BooksOk, CurrentOk, ProcsOk, CallsOk, CalledIds, Later;
    RunInvariant(env, o, labels);
    var s := Run(env, o, labels);
    EndingIsTrue(s, id);
    forall more
      ensures !AddsCall(s, Run(env, o, labels + more), id)
    {
      RunInvariant(env, o, labels + more);
      NothingIsUndone(env, o, labels, more);
      var t := Run(env, o, labels + more);
      UncommittedIsNotCalled(s, t, id);
      if AddsCall(s, t, id) {
        CalledIsListed(s, t, id);
      }
    }
  }

  // ---------------------------------------------------- what a restore allows

  lemma {:induction false} RunIsApplyAll(env: Env, o: Object, labels: seq<Label>, more: seq<Label>)
    ensures Run(env, o, labels + more) == ApplyAll(env, Run(env, o, labels), more)
  {
    hide Apply;
    if more == [] {
      assert labels + more == labels;
    } else {
      var init, a := more[..|more| - 1], more[|more| - 1];
      assert more == init + [a];
      RunIsApplyAll(env, o, labels, init);
      RunMore(env, o, labels, init, a);
    }
  }

  /** Some continuation from r, which stands in for s, calls the tool server for id. */
  ghost predicate MayCallFrom(env: Env, s: Sys, r: Sys, id: string) {
    exists more :: AddsCall(s, ApplyAll(env, r, more), id)
  }

  lemma {:induction false} ConsumedWasFinished(env: Env, uid: string, s: Sys, id: string)
    requires Inv(env, uid, s) && Consumed(Current(s).last, Current(s).consumed, id)
    ensures id in s.finished
  {
    hide VersionsOk, BooksOk, ProcsOk, CallsOk, HeldStateOk, Tells;
  }

  /** However a run goes on, an id that was finished and has no caller is not called. */
  lemma {:induction false} FinishedStaysUncalled(env: Env, o: Object, labels: seq<Label>, more: seq<Label>, id: string)
    requires Governance.Lawful(env) && Fresh(env, o)
    requires id in Run(env, o, labels).finished && !SomeoneCalls(Run(env, o, labels), id)
    ensures !AddsCall(Run(env, o, labels), Run(env, o, labels + more), id)
  {
    hide Run, Fresh, Governance.Lawful, AddsCall, VersionsOk, BooksOk, CurrentOk, ProcsOk, CallsOk, CalledIds, Later;
    var s, t := Run(env, o, labels), Run(env, o, labels + more);
    if id in s.commits {
      SpentRuns(env, o, labels, more, id);
    } else {
      RunInvariant(env, o, labels + more);
      NothingIsUndone(env, o, labels, more);
      UncommittedIsNotCalled(s, t, id);
      if AddsCall(s, t, id) {
        CalledIsListed(s, t, id);
      }
    }
  }

  /** While the window still has the id, restoring it, in whatever state and phase,
      leads to no call, unless a reconciler stands before one already. */
  lemma {:induction false} RestoreInWindow(env: Env, o: Object, labels: seq<Label>, id: string, state: Progress,
                                           decision: string, phase: string)
    requires Governance.Lawful(env) && Fresh(env, o)
    requires var s := Run(env, o, labels);
             && s.hist != [] && id in s.born && !SomeoneCalls(s, id)
             && Consumed(Current(s).last, Current(s).consumed, id)
    ensures !MayCallFrom(env, Run(env, o, labels), Restored(Run(env, o, labels), id, state, decision, phase), id)
  {
    hide Run, Fresh, Governance.Lawful, AddsCall, Inv, Consumed, Restored, SomeoneCalls;
    var a := Restore(id, state, decision, phase);
    var s := Run(env, o, labels);
    var r := Restored(s, id, state, decision, phase);
    assert r == Apply(env, s, a);
    hide Apply;
    RunInvariant(env, o, labels);
    ConsumedWasFinished(env, o.uid, s, id);
    forall more
      ensures !AddsCall(s, ApplyAll(env, r, more), id)
    {
      assert labels + ([] + [a]) == labels + [a] && labels + [] == labels;
      RunMore(env, o, labels, [], a);
      RunIsApplyAll(env, o, labels + [a], more);
      assert labels + [a] + more == labels + ([a] + more);
      FinishedStaysUncalled(env, o, labels, [a] + more, id);
    }
  }

  /** The one that stands before its call can make it after a restore as well. */
  lemma {:induction false} CallerCallsAnyway(env: Env, s: Sys, r: Sys, pid: nat, id: string)
    requires CallsNext(s, pid, id) && r.hist != [] && r.procs == s.procs && r.held == s.held
    ensures MayCallFrom(env, s, r, id)
  {
    hide Apply, CalledFinish;
    var pc := s.procs[pid];
    var a := Step(pid, CallReply(true));
    CalledStep(env, r, pid, pc, true);
    ApplyOne(env, r, [], a);
    assert [] + [a] == [a];
    var t := ApplyAll(env, r, [a]);
    assert t.held == s.held + [HeldCall(pc.h, pc.base, |r.receipts|, true)];
    assert t.held[|s.held|].h.content.id == id;
    assert AddsCall(s, t, id);
  }

  /** The annotations of o still carry an approval of action c that passes. */
  ghost predicate StillApproved(env: Env, o: Object, h: Handled) {
    Handles(env, o.uid, o.ann, o.spec, HistoryOf(o.executed, o.proposed), h) && Passes(h)
  }

  /** Action c would pass if it were held by o again: by its old approval, or by
      one that can be given. */
  ghost predicate CanPass(env: Env, o: Object, c: Content, username: string, noise: Noise) {
    Approvable(env, o, c, username, noise) || exists h :: StillApproved(env, o, h) && h.content == c
  }

  lemma {:induction false} StillPlanned(env: Env, o: Object, h: Handled)
    requires Waiting(o, h.content) && StillApproved(env, o, h)
    ensures PlanFor(env, o, o.pending.value, h.noise) == Act(h)
  {
    hide Approval.Read, BlockedBy, Consumed, TargetOf;
  }

  lemma {:induction false} WaitingRuns(env: Env, s: Sys, c: Content, username: string, noise: Noise) returns (u: Sys)
    requires Governance.Lawful(env) && s.hist != [] && Waiting(Current(s), c)
    requires CanPass(env, Current(s), c, username, noise)
    ensures Reaches(env, s, u) && AddsCall(s, u, c.id)
  {
    hide Reaches, Approvable, Ran, StillApproved, PlanFor;
    var h, t;
    if Approvable(env, Current(s), c, username, noise) {
      h, t, u := HeldActionCanRun(env, s, c, username, noise);
    } else {
      h :| StillApproved(env, Current(s), h) && h.content == c;
      StillPlanned(env, Current(s), h);
      assert Passes(h) by { StillPasses(env, Current(s), h); }
      t := s;
      var pid := FreePid(s.procs);
      u := ApprovedActionCanRun(env, s, pid, h.noise, h);
    }
    assert u.held[|s.held|].h.content.id == c.id;
  }

  lemma {:induction false} StillPasses(env: Env, o: Object, h: Handled)
    requires StillApproved(env, o, h)
    ensures Passes(h)
  {
    hide Handles;
  }

  /** What a restore allows. When a pending action that was stored before is put
      back, not yet executing, and would pass, then some continuation calls the tool
      for it exactly when its id is neither the last decided one nor among the 32 in
      the window, or its reconciler stood before the call all along. So a decided
      action, also a rejected or denied one, runs after a restore exactly when its
      id has left the window, and one that ran then runs a second time. */
  lemma {:induction false} RestoredRunsIff(env: Env, o: Object, labels: seq<Label>, id: string, state: Progress,
                                           decision: string, username: string, noise: Noise)
    requires Governance.Lawful(env) && Fresh(env, o) && state != Executing
    requires var s := Run(env, o, labels);
             && s.hist != [] && id in s.born && CanPass(env, Current(s), s.born[id].content, username, noise)
    ensures var s := Run(env, o, labels);
            MayCallFrom(env, s, Restored(s, id, state, decision, PENDING_APPROVAL), id) <==>
            !Consumed(Current(s).last, Current(s).consumed, id) || SomeoneCalls(s, id)
  {
    hide Run, Fresh, Governance.Lawful, Approvable, Handles, Consumed, Apply, Inv, CallsNext, AddsCall;
    var s := Run(env, o, labels);
    RunInvariant(env, o, labels);
    BornNamed(env, o.uid, s, id);
    var r := Restored(s, id, state, decision, PENDING_APPROVAL);
    if SomeoneCalls(s, id) {
      var pid :| CallsNext(s, pid, id);
      CallerCallsAnyway(env, s, r, pid, id);
    } else if Consumed(Current(s).last, Current(s).consumed, id) {
      hide CanPass;
      RestoreInWindow(env, o, labels, id, state, decision, PENDING_APPROVAL);
    } else {
      var c := s.born[id].content;
      PassesAgain(env, Current(s), Current(r), c, username, noise);
      hide CanPass;
      var u := WaitingRuns(env, r, c, username, noise);
      var more :| u == ApplyAll(env, r, more);
      SameCalls(s, r, u, id);
    }
  }

  lemma {:induction false} SameCalls(s: Sys, r: Sys, u: Sys, id: string)
    requires r.held == s.held && AddsCall(r, u, id)
    ensures AddsCall(s, u, id)
  {
  }

  /** An id that was called has no caller left. */
  lemma {:induction false} CalledHasNoCaller(env: Env, o: Object, labels: seq<Label>, id: string)
    requires Governance.Lawful(env) && Fresh(env, o) && id in CalledIds(Run(env, o, labels).held)
    ensures !SomeoneCalls(Run(env, o, labels), id)
  {
    hide Run, Fresh, Governance.Lawful, Inv, CallsNext, CalledIds;
    RunInvariant(env, o, labels);
    var s := Run(env, o, labels);
    forall pid
      ensures !CallsNext(s, pid, id)
    {
      if CallsNext(s, pid, id) {
        CallerHasNotCalled(env, o.uid, s, pid, id);
      }
    }
  }

  lemma {:induction false} BornNamed(env: Env, uid: string, s: Sys, id: string)
    requires Inv(env, uid, s) && id in s.born
    ensures s.born[id].content.id == id
  {
    hide VersionsOk, CurrentOk, ProcsOk, CallsOk, CalledIds, Replies, EndOk, Distinct;
  }

  lemma {:induction false} PassesAgain(env: Env, o: Object, o': Object, c: Content, username: string, noise: Noise)
    requires CanPass(env, o, c, username, noise) && o' == o.(pending := o'.pending, phase := o'.phase)
    ensures CanPass(env, o', c, username, noise)
  {
    hide Handles, BlockedBy, Unanswered, Passes;
    if !Approvable(env, o, c, username, noise) {
      var h :| StillApproved(env, o, h) && h.content == c;
      assert StillApproved(env, o', h);
    }
  }
}
