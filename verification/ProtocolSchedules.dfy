/** Particular schedules of the protocol: a proposal is held, a held action is
    approved, an approved action runs, and a slow reconciler is overtaken.
  */
module ProtocolSchedules {
  import opened Text
  import opened Workload
  import opened Governance
  import opened Protocol
  import Approval
  import ApprovalProofs
  import Decision
  import Invariants
  import Webhook

  function ApplyAll(env: Env, s: Sys, labels: seq<Label>): Sys {
    if labels == [] then s else Apply(env, ApplyAll(env, s, labels[..|labels| - 1]), labels[|labels| - 1])
  }

  lemma {:induction false} ApplyOne(env: Env, s: Sys, labels: seq<Label>, a: Label)
    ensures ApplyAll(env, s, labels + [a]) == Apply(env, ApplyAll(env, s, labels), a)
  {
    hide Apply;
    var all := labels + [a];
    assert all[..|all| - 1] == labels && all[|all| - 1] == a;
  }

  /** Reconciler pid is here, with nothing else about the system changed but the
      places of reconcilers. */
  predicate Stands(s: Sys, pid: nat, pc: Pc) {
    s.hist != [] && pid in s.procs && s.procs[pid] == pc
  }

  const WRITTEN := WriteReply(true, true, true)

  lemma {:induction false} StartStep(env: Env, s: Sys, pid: nat)
    requires s.hist != [] && pid !in s.procs
    ensures var t := Apply(env, s, Start(pid, |s.hist| - 1));
            && Stands(t, pid, Fetched(|s.hist| - 1, Current(s)))
            && t == s.(procs := s.procs[pid := Fetched(|s.hist| - 1, Current(s))])
  {
  }

  lemma {:induction false} GateStep(env: Env, s: Sys, pid: nat, pc: Pc, noise: Noise)
    requires Stands(s, pid, pc) && pc.Fetched?
    ensures Apply(env, s, Step(pid, GateReply(Pass(noise)))) == Move(s, pid, AfterGate(env, pc.base, pc.o, noise))
  {
    hide AfterGate, Move;
  }

  lemma {:induction false} WrittenStep(env: Env, s: Sys, pid: nat, pc: Pc)
    requires Stands(s, pid, pc) && pc.Writing? && pc.base == |s.hist| - 1
    ensures var out := Out(pc.o, pc.kind);
            Apply(env, s, Step(pid, WRITTEN)) ==
            Move(Booked(s.(hist := s.hist + [out]), pid, pc.o, pc.kind, |s.hist|), pid,
                 AfterWrite(env, |s.hist|, out, pc.next))
  {
    hide Out, Booked, AfterWrite, Move;
    assert |s.hist + [Out(pc.o, pc.kind)]| - 1 == |s.hist|;
  }

  lemma {:induction false} HumanReceiptStep(env: Env, s: Sys, pid: nat, pc: Pc)
    requires Stands(s, pid, pc) && pc.HumanReceipt?
    ensures var n := |s.receipts| + 1;
            Apply(env, s, Step(pid, AppendReply(true, true))) ==
            Move(s.(receipts := s.receipts + [EntryOf(pc)]), pid,
                 if env.capturing then StoringExample(pc.base, pc.o, pc.h, n)
                 else AfterHumanReceipt(env, pc.base, pc.o, pc.h, n, pc.o.other))
  {
    hide AfterHumanReceipt, Move, EntryOf;
  }

  lemma {:induction false} ExampleKeptStep(env: Env, s: Sys, pid: nat, pc: Pc)
    requires Stands(s, pid, pc) && pc.StoringExample?
    ensures Apply(env, s, Step(pid, ExampleReply(true, true))) ==
            Move(s.(examples := s.examples + [Labelled(pc.h, pc.base, pc.receiptSeq)]), pid,
                 AfterHumanReceipt(env, pc.base, pc.o, pc.h, pc.receiptSeq, pc.o.other))
  {
    hide AfterHumanReceipt, Move;
  }

  lemma {:induction false} CalledStep(env: Env, s: Sys, pid: nat, pc: Pc, ok: bool)
    requires Stands(s, pid, pc) && pc.Calling?
    ensures Apply(env, s, Step(pid, CallReply(ok))) ==
            Move(s.(held := s.held + [HeldCall(pc.h, pc.base, |s.receipts|, ok)]), pid,
                 Writing(pc.base, pc.o, CalledFinish(env, pc.o, pc.h, pc.receiptSeq, ok), Stop))
  {
    hide CalledFinish, Move;
  }

  // --------------------------------------------------- an approval does run

  /** A human decided the action of the current object, and a reconciler would act
      on it so. */
  predicate Taken(env: Env, s: Sys, noise: Noise, h: Handled) {
    && s.hist != [] && Current(s).phase == PENDING_APPROVAL && Current(s).pending.Some?
    && PlanFor(env, Current(s), Current(s).pending.value, noise) == Act(h)
  }

  /** The decision is not a rejection, and nothing stops it. */
  predicate Approved(env: Env, s: Sys, noise: Noise, h: Handled) {
    Taken(env, s, noise, h) && h.decision.verdict != Approval.REJECT && !h.blocked
  }

  /** t is what some schedule makes of s. */
  ghost predicate Reaches(env: Env, s: Sys, t: Sys) {
    exists labels :: t == ApplyAll(env, s, labels)
  }

  lemma {:induction false} ReachesItself(env: Env, s: Sys)
    ensures Reaches(env, s, s)
  {
    assert s == ApplyAll(env, s, []);
  }

  lemma {:induction false} ReachesMore(env: Env, s: Sys, t: Sys, a: Label)
    requires Reaches(env, s, t)
    ensures Reaches(env, s, Apply(env, t, a))
  {
    hide Apply;
    var labels :| t == ApplyAll(env, s, labels);
    ApplyOne(env, s, labels, a);
  }

  /** A reconciler fetches the current version. */
  lemma {:induction false} Fetches(env: Env, s: Sys, pid: nat) returns (t: Sys)
    requires s.hist != [] && pid !in s.procs
    ensures Reaches(env, s, t) && t == s.(procs := s.procs[pid := Fetched(|s.hist| - 1, Current(s))])
  {
    hide Reaches, Apply;
    StartStep(env, s, pid);
    ReachesItself(env, s);
    ReachesMore(env, s, s, Start(pid, |s.hist| - 1));
    t := Apply(env, s, Start(pid, |s.hist| - 1));
  }

  /** Read it. */
  lemma {:induction false} RunsToPlan(env: Env, s: Sys, pid: nat, noise: Noise, h: Handled) returns (t: Sys)
    requires Taken(env, s, noise, h) && pid !in s.procs
    ensures Reaches(env, s, t)
    ensures t == s.(procs := s.procs[pid := Writing(|s.hist| - 1, Current(s), Record(h.decision.verdict),
                                                    ToReceipt(h))])
  {
    hide PlanFor, Reaches;
    var n, first := |s.hist| - 1, Current(s);
    var s1 := Fetches(env, s, pid);
    assert AfterGate(env, n, first, noise) == Writing(n, first, Record(h.decision.verdict), ToReceipt(h));
    GateStep(env, s1, pid, Fetched(n, first), noise);
    hide AfterGate;
    ReachesMore(env, s, s1, Step(pid, GateReply(Pass(noise))));
    t := Apply(env, s1, Step(pid, GateReply(Pass(noise))));
    hide Apply;
  }

  lemma {:induction false} AfterWriteGoesOn(env: Env, base: nat, o: Object, h: Handled)
    ensures var pc := AfterWrite(env, base, o, ToReceipt(h));
            && !pc.Done?
            && pc == if env.receiptsEnabled then HumanReceipt(base, o, h)
               else AfterHumanReceipt(env, base, o, h, 0, o.other)
  {
    hide ApproverSha, Latest;
  }

  lemma {:induction false} PassedOn(env: Env, base: nat, o: Object, h: Handled, receiptSeq: nat, other: string)
    requires h.decision.verdict != Approval.REJECT && !h.blocked
    ensures AfterHumanReceipt(env, base, o, h, receiptSeq, other) ==
            Writing(base, o, Execute(other), ToCall(h, receiptSeq))
  {
  }

  /** t is s but for the versions, the logs and this reconciler's place. */
  predicate Beside(s: Sys, t: Sys, pid: nat, pc: Pc) {
    t == s.(hist := t.hist, receipts := t.receipts, examples := t.examples, procs := s.procs[pid := pc])
  }

  /** The example that goes with a decision, when receipts and the dataset are on. */
  function LabelledBy(env: Env, h: Handled, base: nat, receiptSeq: nat): seq<Labelled> {
    if env.receiptsEnabled && env.capturing then [Labelled(h, base, receiptSeq)] else []
  }

  /** The human receipt, when receipts are enabled. */
  function HumanRows(env: Env, h: Handled): seq<Entry> {
    if env.receiptsEnabled then [HumanEntry(HumanOutcome(h.decision.verdict), h.content.id, h.payload)] else []
  }

  /** The receipt, and the example, when examples are stored. */
  lemma {:induction false} RunsThroughReceipt(env: Env, s: Sys, pid: nat, base: nat, o: Object, h: Handled)
    returns (receiptSeq: nat, t: Sys)
    requires Stands(s, pid, HumanReceipt(base, o, h)) && env.receiptsEnabled
    ensures Reaches(env, s, t) && t.hist == s.hist
    ensures Beside(s, t, pid, AfterHumanReceipt(env, base, o, h, receiptSeq, o.other))
    ensures t.examples == s.examples + LabelledBy(env, h, base, receiptSeq)
    ensures t.receipts == s.receipts + HumanRows(env, h)
  {
    hide Reaches, Apply, AfterHumanReceipt;
    receiptSeq := |s.receipts| + 1;
    GoesOn(env, base, o, h, receiptSeq, o.other);
    HumanReceiptStep(env, s, pid, HumanReceipt(base, o, h));
    ReachesItself(env, s);
    ReachesMore(env, s, s, Step(pid, AppendReply(true, true)));
    t := Apply(env, s, Step(pid, AppendReply(true, true)));
    if env.capturing {
      var s1 := t;
      ExampleKeptStep(env, s1, pid, StoringExample(base, o, h, receiptSeq));
      ReachesMore(env, s, s1, Step(pid, ExampleReply(true, true)));
      t := Apply(env, s1, Step(pid, ExampleReply(true, true)));
    }
  }

  lemma {:induction false} GoesOn(env: Env, base: nat, o: Object, h: Handled, receiptSeq: nat, other: string)
    ensures !AfterHumanReceipt(env, base, o, h, receiptSeq, other).Done?
  {
    hide RejectedFinish, DeniedFinish;
  }

  /** Write Recording, and then go on to what the decision asks for. */
  lemma {:induction false} RunsToConclusion(env: Env, s: Sys, pid: nat, h: Handled, first: Object)
    returns (o: Object, receiptSeq: nat, t: Sys)
    requires s.hist != [] && Stands(s, pid, Writing(|s.hist| - 1, first, Record(h.decision.verdict), ToReceipt(h)))
    ensures Reaches(env, s, t)
    ensures o == Out(first, Record(h.decision.verdict)) && t.hist == s.hist + [o]
    ensures Beside(s, t, pid, AfterHumanReceipt(env, |s.hist|, o, h, receiptSeq, o.other))
    ensures t.examples == s.examples + LabelledBy(env, h, |s.hist|, receiptSeq)
    ensures t.receipts == s.receipts + HumanRows(env, h)
  {
    var k := Record(h.decision.verdict);
    o := Out(first, k);
    hide Reaches, Apply, AfterWrite, AfterHumanReceipt, Out;
    WrittenStep(env, s, pid, Writing(|s.hist| - 1, first, k, ToReceipt(h)));
    ReachesItself(env, s);
    ReachesMore(env, s, s, Step(pid, WRITTEN));
    t := Apply(env, s, Step(pid, WRITTEN));
    AfterWriteGoesOn(env, |s.hist|, o, h);
    receiptSeq := 0;
    if env.receiptsEnabled {
      var s1 := t;
      receiptSeq, t := RunsThroughReceipt(env, s1, pid, |s.hist|, o, h);
      ReachesThrough(env, s, s1, t);
    }
  }

  /** An approved action goes on to its Executing write. */
  lemma {:induction false} RunsToExecute(env: Env, s: Sys, pid: nat, h: Handled, first: Object)
    returns (o: Object, receiptSeq: nat, t: Sys)
    requires s.hist != [] && Stands(s, pid, Writing(|s.hist| - 1, first, Record(h.decision.verdict), ToReceipt(h)))
    requires h.decision.verdict != Approval.REJECT && !h.blocked
    ensures Reaches(env, s, t)
    ensures o == Out(first, Record(h.decision.verdict)) && t.hist == s.hist + [o]
    ensures Beside(s, t, pid, Writing(|s.hist|, o, Execute(o.other), ToCall(h, receiptSeq)))
    ensures t.examples == s.examples + LabelledBy(env, h, |s.hist|, receiptSeq)
  {
    hide Reaches, AfterHumanReceipt, Out;
    o, receiptSeq, t := RunsToConclusion(env, s, pid, h, first);
    PassedOn(env, |s.hist|, o, h, receiptSeq, o.other);
  }

  // --------------------------------------------- a rejection, and a late denial

  /** o' is o with its action ended so, by decision h. */
  predicate EndedAs(env: Env, o: Object, o': Object, h: Handled, outcome: string, phase: string, reason: string,
                    receiptSeq: nat)
  {
    && o'.note == Some(Note(reason, Ended(outcome)))
    && o'.last == Some(ApprovalOutcome(h.content.id, h.decision.verdict, outcome,
                                       Hex(env.hashes.sha256(h.decision.approverRaw)), receiptSeq))
    && o'.pending.None? && o'.phase == phase && o'.executed == o.executed && o'.proposed == o.proposed
    && o'.consumed == Latest(o.consumed + [h.content.id], MAX_CONSUMED)
    && o'.uid == o.uid && o'.ann == o.ann && o'.spec == o.spec && o'.other == o.other
  }

  /** A rejected action ends as rejected. A reconciler left alone writes its receipt
      and stores the outcome; no tool is called. */
  lemma {:induction false} RejectedActionEnds(env: Env, s: Sys, pid: nat, noise: Noise, h: Handled)
    returns (receiptSeq: nat, t: Sys)
    requires Taken(env, s, noise, h) && pid !in s.procs && h.decision.verdict == "reject"
    ensures Reaches(env, s, t) && t.hist != [] && s.hist != []
    ensures t == s.(hist := t.hist, receipts := s.receipts + HumanRows(env, h), examples := t.examples,
                    finished := s.finished + [h.content.id],
                    ends := s.ends[h.content.id := Ending("rejected", "reject", "Rejected")])
    ensures EndedAs(env, Current(s), Current(t), h, "rejected", "Rejected", "Rejected", receiptSeq)
  {
    hide PlanFor, Reaches, Taken, Out, RejectedFinish, HumanRows, EndedAs, Apply;
    var a := RunsToPlan(env, s, pid, noise, h);
    var o, b;
    o, receiptSeq, b := RunsToConclusion(env, a, pid, h, Current(s));
    ReachesThrough(env, s, a, b);
    var k := RejectedFinish(env, o, h, receiptSeq, o.other);
    RejectedWrites(env, Current(s), h, receiptSeq);
    WrittenStep(env, b, pid, Writing(|s.hist|, o, k, Stop));
    ReachesMore(env, s, b, Step(pid, WRITTEN));
    t := Apply(env, b, Step(pid, WRITTEN));
    assert Current(t) == Out(o, k);
    assert t.procs == s.procs;
  }

  lemma {:induction false} RejectedWrites(env: Env, first: Object, h: Handled, receiptSeq: nat)
    requires h.decision.verdict == "reject"
    ensures var o := Out(first, Record(h.decision.verdict));
            var k := RejectedFinish(env, o, h, receiptSeq, o.other);
            && k.Finish? && k.outcome.id == h.content.id && k.outcome.outcome == "rejected" &&
               k.outcome.decision == "reject" && k.phase == "Rejected"
            && EndedAs(env, first, Out(o, k), h, "rejected", "Rejected", "Rejected", receiptSeq)
  {
    hide Latest, Hex;
  }

  /** An approval that the layers no longer let through ends as denied. A reconciler
      left alone writes the human receipt, then a deny receipt, and stores the
      outcome; no tool is called. */
  lemma {:induction false} BlockedActionEnds(env: Env, s: Sys, pid: nat, noise: Noise, h: Handled)
    returns (receiptSeq: nat, t: Sys)
    requires Taken(env, s, noise, h) && pid !in s.procs && h.decision.verdict != "reject" && h.blocked
    ensures Reaches(env, s, t) && t.hist != [] && s.hist != []
    ensures t == s.(hist := t.hist, receipts := s.receipts + HumanRows(env, h) + DenyRows(env, h),
                    examples := t.examples, finished := s.finished + [h.content.id],
                    ends := s.ends[h.content.id := Ending("denied", h.decision.verdict, "PolicyDenied")])
    ensures EndedAs(env, Current(s), Current(t), h, "denied", "PolicyDenied", "HumanDecisionBlocked", receiptSeq)
  {
    hide PlanFor, Reaches, Taken, Out, DeniedFinish, HumanRows, EndedAs, Apply;
    var a := RunsToPlan(env, s, pid, noise, h);
    var o, b;
    o, receiptSeq, b := RunsToConclusion(env, a, pid, h, Current(s));
    ReachesThrough(env, s, a, b);
    var k := DeniedFinish(env, o, h, receiptSeq, o.other);
    DeniedWrites(env, Current(s), h, receiptSeq);
    var c := b;
    if env.receiptsEnabled {
      DenyReceiptStep(env, b, pid, DenyReceipt(|s.hist|, o, h, receiptSeq, o.other));
      ReachesMore(env, s, b, Step(pid, AppendReply(true, true)));
      c := Apply(env, b, Step(pid, AppendReply(true, true)));
    }
    WrittenStep(env, c, pid, Writing(|s.hist|, o, k, Stop));
    ReachesMore(env, s, c, Step(pid, WRITTEN));
    t := Apply(env, c, Step(pid, WRITTEN));
    assert Current(t) == Out(o, k);
    assert t.procs == s.procs;
  }

  function DenyRows(env: Env, h: Handled): seq<Entry> {
    if env.receiptsEnabled then [DecisionEntry(Decision.Deny, h.payload)] else []
  }

  lemma {:induction false} DenyReceiptStep(env: Env, s: Sys, pid: nat, pc: Pc)
    requires Stands(s, pid, pc) && pc.DenyReceipt?
    ensures Apply(env, s, Step(pid, AppendReply(true, true))) ==
            Move(s.(receipts := s.receipts + [DecisionEntry(Decision.Deny, pc.h.payload)]), pid,
                 Writing(pc.base, pc.o, DeniedFinish(env, pc.o, pc.h, pc.receiptSeq, pc.other), Stop))
  {
    hide DeniedFinish, Move;
  }

  lemma {:induction false} DeniedWrites(env: Env, first: Object, h: Handled, receiptSeq: nat)
    ensures var o := Out(first, Record(h.decision.verdict));
            var k := DeniedFinish(env, o, h, receiptSeq, o.other);
            && k.Finish? && k.outcome.id == h.content.id && k.outcome.outcome == "denied" &&
               k.outcome.decision == h.decision.verdict && k.phase == "PolicyDenied"
            && EndedAs(env, first, Out(o, k), h, "denied", "PolicyDenied", "HumanDecisionBlocked", receiptSeq)
  {
    hide Latest, Hex;
  }

  /** When a required receipt is not stored, nothing is called. The action waits
      again, undecided, with a condition that says so; but if the condition says so
      already nothing more is written, and the action stays as it was recorded. */
  lemma {:induction false} FailedReceiptReleases(env: Env, s: Sys, pid: nat, noise: Noise, h: Handled) returns (t: Sys)
    requires Taken(env, s, noise, h) && pid !in s.procs && env.receiptsEnabled && env.receiptsRequired
    ensures Reaches(env, s, t) && s.hist != []
    ensures var o := Current(s);
            var failed := Note("ReceiptFailed", ReceiptNotWritten);
            t == s.(hist := s.hist + [o.(pending := Some(PendingApproval(h.content, Recording, h.decision.verdict)))] +
                    if o.note == Some(failed) then []
                    else [o.(pending := Some(PendingApproval(h.content, Idle, "")), note := Some(failed))])
  {
    hide PlanFor, Reaches, Taken, Out, Apply;
    var b := RunsToHumanReceipt(env, s, pid, noise, h);
    var o := Out(Current(s), Record(h.decision.verdict));
    ReleasedWrites(env, s, noise, h);
    NotStoredStep(env, b, pid, |s.hist|, o, h);
    ReachesMore(env, s, b, Step(pid, AppendReply(false, false)));
    t := Apply(env, b, Step(pid, AppendReply(false, false)));
    if o.note != Some(RECEIPT_FAILED) {
      var c := t;
      WrittenStep(env, c, pid, Writing(|s.hist|, o, Release(RECEIPT_FAILED), Stop));
      ReachesMore(env, s, c, Step(pid, WRITTEN));
      t := Apply(env, c, Step(pid, WRITTEN));
    }
    assert t.procs == s.procs;
  }

  /** Write Recording, and stand before the receipt. */
  lemma {:induction false} RunsToHumanReceipt(env: Env, s: Sys, pid: nat, noise: Noise, h: Handled) returns (t: Sys)
    requires Taken(env, s, noise, h) && pid !in s.procs && env.receiptsEnabled
    ensures Reaches(env, s, t) && s.hist != []
    ensures var o := Out(Current(s), Record(h.decision.verdict));
            t == s.(hist := s.hist + [o], procs := s.procs[pid := HumanReceipt(|s.hist|, o, h)])
  {
    hide PlanFor, Reaches, Out, Apply, AfterWrite, AfterHumanReceipt;
    var a := RunsToPlan(env, s, pid, noise, h);
    var k := Record(h.decision.verdict);
    AfterWriteGoesOn(env, |s.hist|, Out(Current(s), k), h);
    WrittenStep(env, a, pid, Writing(|s.hist| - 1, Current(s), k, ToReceipt(h)));
    ReachesMore(env, s, a, Step(pid, WRITTEN));
    t := Apply(env, a, Step(pid, WRITTEN));
  }

  lemma {:induction false} ReleasedWrites(env: Env, s: Sys, noise: Noise, h: Handled)
    requires Taken(env, s, noise, h)
    ensures s.hist != []
    ensures var first := Current(s);
            var o := Out(first, Record(h.decision.verdict));
            && o == first.(pending := Some(PendingApproval(h.content, Recording, h.decision.verdict)))
            && Out(o, Release(RECEIPT_FAILED)) ==
               first.(pending := Some(PendingApproval(h.content, Idle, "")),
                      note := Some(Note("ReceiptFailed", ReceiptNotWritten)))
  {
    hide Approval.Read, Consumed, BlockedBy, TargetOf, RefOf, PayloadOf;
  }

  lemma {:induction false} NotStoredStep(env: Env, s: Sys, pid: nat, base: nat, o: Object, h: Handled)
    requires Stands(s, pid, HumanReceipt(base, o, h)) && env.receiptsRequired
    ensures Apply(env, s, Step(pid, AppendReply(false, false))) ==
            Move(s, pid, if o.note == Some(RECEIPT_FAILED) then Done
                         else Writing(base, o, Release(RECEIPT_FAILED), Stop))
  {
    hide Move, EntryOf;
  }

  /** An action that is held back, for whatever reason, gets that reason as its
      condition and nothing else: not even a write when it says so already and is
      not being acted on. */
  lemma {:induction false} HeldBackIsNoted(env: Env, s: Sys, pid: nat, noise: Noise, note: Note) returns (t: Sys)
    requires s.hist != [] && Current(s).phase == PENDING_APPROVAL && Current(s).pending.Some? && pid !in s.procs
    requires PlanFor(env, Current(s), Current(s).pending.value, noise) == HoldBecause(note)
    ensures Reaches(env, s, t)
    ensures var o := Current(s);
            t == s.(hist := s.hist + if o.note == Some(note) && o.pending.value.state == Idle then []
                                     else [o.(note := Some(note))])
  {
    hide PlanFor, Reaches, Apply;
    var n, o := |s.hist| - 1, Current(s);
    var s1 := Fetches(env, s, pid);
    assert AfterGate(env, n, o, noise) == HoldFrom(n, o, Hold(note));
    GateStep(env, s1, pid, Fetched(n, o), noise);
    hide AfterGate;
    ReachesMore(env, s, s1, Step(pid, GateReply(Pass(noise))));
    t := Apply(env, s1, Step(pid, GateReply(Pass(noise))));
    if !(o.note == Some(note) && o.pending.value.state == Idle) {
      var s2 := t;
      WrittenStep(env, s2, pid, Writing(n, o, Hold(note), Stop));
      ReachesMore(env, s, s2, Step(pid, WRITTEN));
      t := Apply(env, s2, Step(pid, WRITTEN));
    }
    assert t.procs == s.procs;
  }

  /** A receipt that is not required and not stored is left out: the decision goes
      on without its number. */
  lemma {:induction false} OptionalReceiptIsSkipped(env: Env, s: Sys, pid: nat, pc: Pc)
    requires Stands(s, pid, pc) && pc.HumanReceipt? && !env.receiptsRequired
    ensures Apply(env, s, Step(pid, AppendReply(false, false))) ==
            Move(s, pid, AfterHumanReceipt(env, pc.base, pc.o, pc.h, 0, pc.o.other))
  {
    hide AfterHumanReceipt, Move, EntryOf;
  }

  /** After the checks wrote something else first, the reconciler starts again on
      what it wrote. */
  lemma {:induction false} TouchedGoesOn(env: Env, s: Sys, pid: nat, other: string) returns (t: Sys)
    requires s.hist != [] && pid !in s.procs
    ensures Reaches(env, s, t)
    ensures var o := Current(s).(other := other);
            t == s.(hist := s.hist + [o], procs := s.procs[pid := Fetched(|s.hist|, o)])
  {
    hide Reaches;
    var n, o := |s.hist| - 1, Current(s);
    var s1 := Fetches(env, s, pid);
    ReachesMore(env, s, s1, Step(pid, GateReply(Touched(other))));
    var s2 := Apply(env, s1, Step(pid, GateReply(Touched(other))));
    assert s2 == s.(procs := s.procs[pid := Writing(n, o, Touch(other), Again)]);
    hide Apply;
    WrittenStep(env, s2, pid, Writing(n, o, Touch(other), Again));
    ReachesMore(env, s, s2, Step(pid, WRITTEN));
    t := Apply(env, s2, Step(pid, WRITTEN));
  }

  /** An example that is not stored is only noted: the decision goes on. */
  lemma {:induction false} FailedExampleIsNoted(env: Env, s: Sys, pid: nat, pc: Pc)
    requires Stands(s, pid, pc) && pc.StoringExample?
    ensures Apply(env, s, Step(pid, ExampleReply(false, false))) ==
            Move(s, pid, AfterHumanReceipt(env, pc.base, pc.o, pc.h, pc.receiptSeq,
                                           pc.o.other + "; example not stored"))
  {
    hide AfterHumanReceipt, Move;
  }

  lemma {:induction false} FinishesId(env: Env, o: Object, h: Handled, receiptSeq: nat, ok: bool)
    ensures var k := CalledFinish(env, o, h, receiptSeq, ok);
            && k.Finish? && k.outcome.id == h.content.id && k.outcome.outcome == (if ok then "executed" else "failed")
            && k.phase == (if ok then COMPLETED else FAILED)
  {
    hide ApproverSha, Latest;
  }

  /** One more call, of h, which succeeded, and one more finished id, its own. */
  ghost predicate RanOnce(env: Env, s: Sys, t: Sys, h: Handled) {
    && (exists base, at :: t.held == s.held + [HeldCall(h, base, at, true)])
    && t.finished == s.finished + [h.content.id] && t.minted == s.minted && t.procs == s.procs && t.direct == s.direct
    && s.hist != [] && t.hist != [] && Ran(Current(s), Current(t), h.content.id)
    && RunIsTold(env, Current(s), Current(t), h)
  }

  /** o' lists the action as executed, and its outcome names the decision and the
      digest of who took it. */
  predicate RunIsTold(env: Env, o: Object, o': Object, h: Handled) {
    && o'.executed == Latest(o.executed + [Action(h.target.name, h.target.description, h.content.confidence, true)],
                             100)
    && o'.proposed == o.proposed
    && o'.note == Some(Note("Executed", Ended("executed")))
    && o'.last.Some? && o'.last.value.decision == h.decision.verdict
    && o'.last.value.approverSha == Hex(env.hashes.sha256(h.decision.approverRaw))
  }

  /** o' has the action of o finished, as executed. */
  predicate Ran(o: Object, o': Object, id: string) {
    && o'.pending.None? && o'.phase == COMPLETED
    && o'.last.Some? && o'.last.value.id == id && o'.last.value.outcome == "executed"
    && o'.consumed == Latest(o.consumed + [id], MAX_CONSUMED)
    && o'.uid == o.uid && o'.ann == o.ann && o'.spec == o.spec
  }

  lemma {:induction false} WritesThenRan(env: Env, first: Object, h: Handled, receiptSeq: nat)
    ensures var o := Out(first, Record(h.decision.verdict));
            var o1 := Out(o, Execute(o.other));
            var o2 := Out(o1, CalledFinish(env, o1, h, receiptSeq, true));
            Ran(first, o2, h.content.id) && RunIsTold(env, first, o2, h)
  {
    hide Latest, Hex;
  }

  /** The Executing write. */
  lemma {:induction false} RunsToCall(env: Env, s: Sys, pid: nat, o: Object, h: Handled, receiptSeq: nat)
    returns (t: Sys)
    requires s.hist != [] && Stands(s, pid, Writing(|s.hist| - 1, o, Execute(o.other), ToCall(h, receiptSeq)))
    ensures Reaches(env, s, t)
    ensures var o1 := Out(o, Execute(o.other));
            t == s.(hist := s.hist + [o1], procs := s.procs[pid := Calling(|s.hist|, o1, h, receiptSeq)],
                    commits := t.commits, owner := t.owner)
  {
    hide Reaches, Apply, Out;
    WrittenStep(env, s, pid, Writing(|s.hist| - 1, o, Execute(o.other), ToCall(h, receiptSeq)));
    ReachesItself(env, s);
    ReachesMore(env, s, s, Step(pid, WRITTEN));
    t := Apply(env, s, Step(pid, WRITTEN));
  }

  /** From the Executing write on: call, and finish. */
  lemma {:induction false} RunsToFinish(env: Env, s: Sys, pid: nat, o: Object, h: Handled, receiptSeq: nat, ok: bool)
    returns (t: Sys)
    requires s.hist != [] && Stands(s, pid, Writing(|s.hist| - 1, o, Execute(o.other), ToCall(h, receiptSeq)))
    ensures Reaches(env, s, t)
    ensures t.held == s.held + [HeldCall(h, |s.hist|, |s.receipts|, ok)] && t.finished == s.finished + [h.content.id]
    ensures t.minted == s.minted && t.procs == s.procs - {pid} && t.hist != []
    ensures t.direct == s.direct && t.examples == s.examples
    ensures var o1 := Out(o, Execute(o.other));
            Current(t) == Out(o1, CalledFinish(env, o1, h, receiptSeq, ok))
  {
    hide Reaches, CalledFinish, Apply, Out;
    var o1 := Out(o, Execute(o.other));
    var s1 := RunsToCall(env, s, pid, o, h, receiptSeq);
    var calling := Calling(|s.hist|, o1, h, receiptSeq);
    CalledStep(env, s1, pid, calling, ok);
    ReachesMore(env, s, s1, Step(pid, CallReply(ok)));
    var s2 := Apply(env, s1, Step(pid, CallReply(ok)));
    var k := CalledFinish(env, o1, h, receiptSeq, ok);
    FinishesId(env, o1, h, receiptSeq, ok);
    WrittenStep(env, s2, pid, Writing(|s.hist|, o1, k, Stop));
    ReachesMore(env, s, s2, Step(pid, WRITTEN));
    t := Apply(env, s2, Step(pid, WRITTEN));
    assert Current(t) == Out(o1, k);
  }

  lemma {:induction false} ReachesThrough(env: Env, s: Sys, t: Sys, u: Sys)
    requires Reaches(env, s, t) && Reaches(env, t, u)
    ensures Reaches(env, s, u)
  {
    hide Apply;
    var a :| t == ApplyAll(env, s, a);
    var b :| u == ApplyAll(env, t, b);
    AppliesInTurn(env, s, a, b);
  }

  lemma {:induction false} AppliesInTurn(env: Env, s: Sys, a: seq<Label>, b: seq<Label>)
    ensures ApplyAll(env, s, a + b) == ApplyAll(env, ApplyAll(env, s, a), b)
  {
    hide Apply;
    if b == [] {
      assert a + b == a;
    } else {
      AppliesInTurn(env, s, a, b[..|b| - 1]);
      assert (a + b)[..|a + b| - 1] == a + b[..|b| - 1];
    }
  }

  /** An approved action that no layer stops can run: from any state, a reconciler
      that is left alone executes it once, under its approved payload, and records
      it as executed and decided. */
  lemma {:induction false} ApprovedActionCanRun(env: Env, s: Sys, pid: nat, noise: Noise, h: Handled) returns (t: Sys)
    requires Approved(env, s, noise, h) && pid !in s.procs
    ensures Reaches(env, s, t) && RanOnce(env, s, t, h)
    ensures exists base, receiptSeq :: t.examples == s.examples + LabelledBy(env, h, base, receiptSeq)
  {
    hide PlanFor, Reaches, Taken, CalledFinish, Out;
    PlanKeepsContent(env, s, noise, h);
    var a := RunsToPlan(env, s, pid, noise, h);
    var o, receiptSeq, b := RunsToExecute(env, a, pid, h, Current(s));
    t := RunsToFinish(env, b, pid, o, h, receiptSeq, true);
    ReachesThrough(env, s, a, b);
    ReachesThrough(env, s, b, t);
    WritesThenRan(env, Current(s), h, receiptSeq);
    hide Ran, RunIsTold;
    assert t.procs == s.procs;
    assert t.held == s.held + [HeldCall(h, |b.hist|, |b.receipts|, true)];
    assert t.examples == s.examples + LabelledBy(env, h, |a.hist|, receiptSeq);
  }

  /** And when that call fails, it is the only one: the action ends as failed, and is
      listed as not approved. */
  lemma {:induction false} FailedActionEnds(env: Env, s: Sys, pid: nat, noise: Noise, h: Handled)
    returns (receiptSeq: nat, base: nat, at: nat, t: Sys)
    requires Approved(env, s, noise, h) && pid !in s.procs
    ensures Reaches(env, s, t) && s.hist != [] && t.hist != [] && t.procs == s.procs && t.direct == s.direct
    ensures t.held == s.held + [HeldCall(h, base, at, false)] && t.finished == s.finished + [h.content.id]
    ensures EndedFailed(env, Current(s), Current(t), h, receiptSeq)
  {
    hide PlanFor, Reaches, Taken, CalledFinish, Out, EndedFailed;
    PlanKeepsContent(env, s, noise, h);
    var a := RunsToPlan(env, s, pid, noise, h);
    var o, b;
    o, receiptSeq, b := RunsToExecute(env, a, pid, h, Current(s));
    t := RunsToFinish(env, b, pid, o, h, receiptSeq, false);
    ReachesThrough(env, s, a, b);
    ReachesThrough(env, s, b, t);
    WritesThenFailed(env, Current(s), h, receiptSeq);
    base, at := |b.hist|, |b.receipts|;
    assert t.procs == s.procs;
  }

  predicate EndedFailed(env: Env, o: Object, o': Object, h: Handled, receiptSeq: nat) {
    && o'.last == Some(ApprovalOutcome(h.content.id, h.decision.verdict, "failed",
                                       Hex(env.hashes.sha256(h.decision.approverRaw)), receiptSeq))
    && o'.pending.None? && o'.phase == "Failed" && o'.executed == o.executed
    && o'.proposed == Latest(o.proposed + [Action(h.target.name, h.target.description, h.content.confidence, false)],
                             100)
    && o'.note == Some(Note("ExecutionFailed", Ended("failed")))
  }

  lemma {:induction false} WritesThenFailed(env: Env, first: Object, h: Handled, receiptSeq: nat)
    ensures var o := Out(first, Record(h.decision.verdict));
            var o1 := Out(o, Execute(o.other));
            EndedFailed(env, first, Out(o1, CalledFinish(env, o1, h, receiptSeq, false)), h, receiptSeq)
  {
    hide Latest, Hex;
  }

  lemma {:induction false} PlanKeepsContent(env: Env, s: Sys, noise: Noise, h: Handled)
    requires Approved(env, s, noise, h)
    ensures s.hist != [] && Current(s).pending.Some? && Current(s).pending.value.content == h.content
    ensures h.decision.verdict != Approval.REJECT && !h.blocked
  {
    hide Approval.Read, Consumed, BlockedBy, TargetOf;
  }

  // ------------------------------------------------------ a proposal is held

  lemma {:induction false} AskStep(env: Env, s: Sys, pid: nat, pc: Pc, p: Proposal, id: string)
    requires Stands(s, pid, pc) && pc.Asking? && id !in s.minted
    ensures var d := DraftOf(env, pc.base, pc.o.spec, HistoryOf(pc.o.executed, pc.o.proposed), p, id, pc.noise);
            Apply(env, s, Step(pid, AskReply(Proposed(p, id)))) ==
            Move(s.(minted := s.minted[id := pid]), pid,
                 if env.receiptsEnabled then DecisionReceipt(pc.base, pc.o, d)
                 else AfterDecision(env, pc.base, pc.o, d, false, 0))
  {
    hide DraftOf, AfterDecision, Move;
  }

  lemma {:induction false} DecisionReceiptStep(env: Env, s: Sys, pid: nat, pc: Pc)
    requires Stands(s, pid, pc) && pc.DecisionReceipt?
    ensures Apply(env, s, Step(pid, AppendReply(true, true))) ==
            Move(s.(receipts := s.receipts + [EntryOf(pc)]), pid,
                 AfterDecision(env, pc.base, pc.o, pc.d, true, |s.receipts| + 1))
  {
    hide AfterDecision, Move, EntryOf;
  }

  /** The layers and the model send d to a human. */
  predicate GoesToHuman(o: Object, d: Draft) {
    && d.proposal.text.Some? && d.judged.outcome != Decision.Allow
    && (d.judged.outcome == Decision.RequireApproval || o.spec.opaPolicy != Some(STRICT))
  }

  /** o with this proposal held. */
  function HeldObject(o: Object, c: Content, proposed: seq<Action>): Object {
    o.(phase := PENDING_APPROVAL, pending := Some(PendingApproval(c, Idle, "")), proposed := proposed)
  }

  function HoldKind(o: Object, d: Draft, receiptSeq: nat): Kind
    requires d.proposal.text.Some?
  {
    var a := Action(d.proposal.action, d.proposal.description, d.proposal.confidenceText, false);
    Final(PENDING_APPROVAL, Some(PendingApproval(ContentOf(d, receiptSeq).value, Idle, "")), o.executed,
          Latest(o.proposed + [a], MAX_ACTIONS))
  }

  lemma {:induction false} HoldStores(o: Object, d: Draft, receiptSeq: nat)
    requires d.proposal.text.Some?
    ensures ContentOf(d, receiptSeq).Some?
    ensures var c, k, p := ContentOf(d, receiptSeq).value, HoldKind(o, d, receiptSeq), d.proposal;
            var a := Action(p.action, p.description, p.confidenceText, false);
            && k.Final? && k.pending.Some? && k.pending.value.content == c
            && Out(o, k) == HeldObject(o, c, Latest(o.proposed + [a], MAX_ACTIONS))
  {
    hide Latest;
  }

  lemma {:induction false} HumanIsAsked(env: Env, base: nat, o: Object, d: Draft, appended: bool, receiptSeq: nat)
    requires GoesToHuman(o, d) && (env.receiptsEnabled ==> appended)
    ensures AfterDecision(env, base, o, d, appended, receiptSeq) == Writing(base, o, HoldKind(o, d, receiptSeq), Stop)
  {
    hide Latest;
  }

  /** The row that is written for a decision. */
  function DecisionRows(env: Env, d: Draft): seq<Entry> {
    if env.receiptsEnabled then [DecisionEntry(d.judged.outcome, DraftPayload(d.proposal))] else []
  }

  /** From the proposal to what follows its decision. */
  lemma {:induction false} RunsToDecision(env: Env, s: Sys, pid: nat, pc: Pc, p: Proposal, d: Draft)
    returns (receiptSeq: nat, t: Sys)
    requires Stands(s, pid, pc) && pc.Asking? && d.id !in s.minted
    requires d == DraftOf(env, pc.base, pc.o.spec, HistoryOf(pc.o.executed, pc.o.proposed), p, d.id, pc.noise)
    ensures Reaches(env, s, t)
    ensures var next := AfterDecision(env, pc.base, pc.o, d, env.receiptsEnabled, receiptSeq);
            next.Writing? && t == s.(receipts := t.receipts, minted := s.minted[d.id := pid],
                                     procs := s.procs[pid := next])
    ensures t.receipts == s.receipts + DecisionRows(env, d)
    ensures receiptSeq == if env.receiptsEnabled then |t.receipts| else 0
  {
    hide Reaches, Apply, DraftOf, AfterDecision;
    AskStep(env, s, pid, pc, p, d.id);
    ReachesItself(env, s);
    ReachesMore(env, s, s, Step(pid, AskReply(Proposed(p, d.id))));
    t := Apply(env, s, Step(pid, AskReply(Proposed(p, d.id))));
    receiptSeq := 0;
    if env.receiptsEnabled {
      var s1 := t;
      DecisionReceiptStep(env, s1, pid, DecisionReceipt(pc.base, pc.o, d));
      ReachesMore(env, s, s1, Step(pid, AppendReply(true, true)));
      t := Apply(env, s1, Step(pid, AppendReply(true, true)));
      receiptSeq := |s1.receipts| + 1;
    }
    DecisionWrites(env, pc.base, pc.o, d, env.receiptsEnabled, receiptSeq);
  }

  lemma {:induction false} DecisionWrites(env: Env, base: nat, o: Object, d: Draft, appended: bool, receiptSeq: nat)
    ensures AfterDecision(env, base, o, d, appended, receiptSeq).Writing?
  {
    hide Latest, Decision.AfterReceipt;
  }

  /** A reconciler asks the tool server about a free workload. */
  lemma {:induction false} RunsToAsk(env: Env, s: Sys, pid: nat, noise: Noise) returns (t: Sys)
    requires s.hist != [] && pid !in s.procs
    requires Current(s).phase != REJECTED && (Current(s).phase == PENDING_APPROVAL ==> Current(s).pending.None?)
    ensures Reaches(env, s, t) && t == s.(procs := s.procs[pid := Asking(|s.hist| - 1, Current(s), noise)])
  {
    hide Reaches, Apply, AfterGate;
    var n, o := |s.hist| - 1, Current(s);
    var s1 := Fetches(env, s, pid);
    GateStep(env, s1, pid, Fetched(n, o), noise);
    AsksAtOnce(env, n, o, noise);
    ReachesMore(env, s, s1, Step(pid, GateReply(Pass(noise))));
    t := Apply(env, s1, Step(pid, GateReply(Pass(noise))));
  }

  /** When the tool server proposes nothing the workload fails, and nothing else. */
  lemma {:induction false} NoAnswerFails(env: Env, s: Sys, pid: nat, noise: Noise) returns (t: Sys)
    requires s.hist != [] && pid !in s.procs
    requires Current(s).phase != REJECTED && (Current(s).phase == PENDING_APPROVAL ==> Current(s).pending.None?)
    ensures Reaches(env, s, t) && t == s.(hist := s.hist + [Current(s).(phase := "Failed")])
  {
    hide Reaches;
    var n, o := |s.hist| - 1, Current(s);
    var s1 := RunsToAsk(env, s, pid, noise);
    ReachesMore(env, s, s1, Step(pid, AskReply(NoAnswer)));
    var s2 := Apply(env, s1, Step(pid, AskReply(NoAnswer)));
    assert s2 == s.(procs := s.procs[pid := Writing(n, o, Block(FAILED, o.other), Stop)]);
    hide Apply;
    WrittenStep(env, s2, pid, Writing(n, o, Block(FAILED, o.other), Stop));
    ReachesMore(env, s, s2, Step(pid, WRITTEN));
    t := Apply(env, s2, Step(pid, WRITTEN));
    assert t.procs == s.procs;
  }

  lemma {:induction false} UnstorableIsAsked(env: Env, base: nat, o: Object, d: Draft, appended: bool, receiptSeq: nat)
    returns (k: Kind)
    requires d.judged.outcome == Decision.RequireApproval && d.proposal.text.None? && (env.receiptsEnabled ==> appended)
    ensures AfterDecision(env, base, o, d, appended, receiptSeq) == Writing(base, o, k, Stop)
    ensures var a := Action(d.proposal.action, d.proposal.description, d.proposal.confidenceText, false);
            && k.Final? && k.pending.None?
            && Out(o, k) == o.(phase := PENDING_APPROVAL, pending := None,
                               proposed := Latest(o.proposed + [a], MAX_ACTIONS))
  {
    hide Latest;
    k := AfterDecision(env, base, o, d, appended, receiptSeq).kind;
  }

  /** A proposal that needs an approval and cannot be stored leaves the workload
      waiting with no action, so that the next reconcile asks again. */
  lemma {:induction false} UnstorableIsReproposed(env: Env, s: Sys, pid: nat, noise: Noise, p: Proposal, d: Draft)
    returns (t: Sys)
    requires s.hist != [] && pid !in s.procs && d.id !in s.minted
    requires Current(s).phase != REJECTED && (Current(s).phase == PENDING_APPROVAL ==> Current(s).pending.None?)
    requires d == DraftOf(env, |s.hist| - 1, Current(s).spec, HistoryOf(Current(s).executed, Current(s).proposed), p,
                          d.id, noise)
    requires d.judged.outcome == Decision.RequireApproval && d.proposal.text.None?
    ensures Reaches(env, s, t)
    ensures var o, a := Current(s), Action(d.proposal.action, d.proposal.description, d.proposal.confidenceText, false);
            t == s.(hist := s.hist + [o.(phase := "PendingApproval", pending := None,
                                         proposed := Latest(o.proposed + [a], 100))],
                    receipts := s.receipts + DecisionRows(env, d), minted := s.minted[d.id := pid])
  {
    hide Reaches, Apply, DraftOf, AfterDecision, DecisionRows, Latest;
    var n, o := |s.hist| - 1, Current(s);
    var s2 := RunsToAsk(env, s, pid, noise);
    var receiptSeq, s3 := RunsToDecision(env, s2, pid, Asking(n, o, noise), p, d);
    ReachesThrough(env, s, s2, s3);
    var k := UnstorableIsAsked(env, n, o, d, env.receiptsEnabled, receiptSeq);
    hide Out;
    WrittenStep(env, s3, pid, Writing(n, o, k, Stop));
    ReachesMore(env, s, s3, Step(pid, WRITTEN));
    t := Apply(env, s3, Step(pid, WRITTEN));
    assert t.procs == s.procs;
  }

  /** A reconciler proposes an action, and it is held for a human. */
  lemma {:induction false} ProposalIsHeld(env: Env, s: Sys, pid: nat, noise: Noise, p: Proposal, d: Draft)
    returns (receiptSeq: nat, t: Sys)
    requires s.hist != [] && pid !in s.procs && d.id !in s.minted
    requires Current(s).phase != REJECTED && (Current(s).phase == PENDING_APPROVAL ==> Current(s).pending.None?)
    requires d == DraftOf(env, |s.hist| - 1, Current(s).spec, HistoryOf(Current(s).executed, Current(s).proposed), p,
                          d.id, noise)
    requires GoesToHuman(Current(s), d) && d.proposal.text.Some?
    ensures Reaches(env, s, t)
    ensures var c, o, p := ContentOf(d, receiptSeq).value, Current(s), d.proposal;
            var a := Action(p.action, p.description, p.confidenceText, false);
            && t == s.(hist := t.hist, receipts := t.receipts, minted := s.minted[d.id := pid],
                       born := s.born[c.id := Birth(c, FrozenOf(o.spec))])
            && t.hist == s.hist + [HeldObject(o, c, Latest(o.proposed + [a], MAX_ACTIONS))]
    ensures t.receipts == s.receipts + DecisionRows(env, d)
    ensures receiptSeq == if env.receiptsEnabled then |t.receipts| else 0
  {
    hide Reaches, Apply, DraftOf, GoesToHuman, AfterDecision, DecisionRows, HoldKind, Out, HeldObject, ContentOf;
    var n, o := |s.hist| - 1, Current(s);
    var s2 := RunsToAsk(env, s, pid, noise);
    var s3;
    receiptSeq, s3 := RunsToDecision(env, s2, pid, Asking(n, o, noise), p, d);
    ReachesThrough(env, s, s2, s3);
    HumanIsAsked(env, n, o, d, env.receiptsEnabled, receiptSeq);
    var k := HoldKind(o, d, receiptSeq);
    HoldStores(o, d, receiptSeq);
    WrittenStep(env, s3, pid, Writing(n, o, k, Stop));
    ReachesMore(env, s, s3, Step(pid, WRITTEN));
    t := Apply(env, s3, Step(pid, WRITTEN));
    assert t.procs == s.procs;
  }

  lemma {:induction false} AsksAtOnce(env: Env, base: nat, o: Object, noise: Noise)
    requires o.phase != REJECTED && (o.phase == PENDING_APPROVAL ==> o.pending.None?)
    ensures AfterGate(env, base, o, noise) == Asking(base, o, noise)
  {
  }

  // ----------------------------------------------------- or it runs at once

  lemma {:induction false} AllowIsReserved(env: Env, base: nat, o: Object, d: Draft, appended: bool, receiptSeq: nat)
    requires d.judged.outcome == Decision.Allow && (env.receiptsEnabled ==> appended)
    ensures AfterDecision(env, base, o, d, appended, receiptSeq) ==
            Writing(base, o, Reserve("reserved " + d.id), ToDirectCall(d))
  {
    hide Latest;
  }

  lemma {:induction false} DirectCalledStep(env: Env, s: Sys, pid: nat, pc: Pc, ok: bool)
    requires Stands(s, pid, pc) && pc.DirectCalling?
    ensures Apply(env, s, Step(pid, CallReply(ok))) ==
            Move(s.(direct := s.direct + [DirectCall(pc.d, pc.base, |s.receipts|, ok)]), pid,
                 Writing(pc.base, pc.o, AfterDirectCall(pc.o, pc.d, ok), Stop))
  {
    hide AfterDirectCall, Move;
  }

  /** What a direct action stores over o: a reservation, and then the result. */
  function RunVersions(o: Object, d: Draft, ok: bool): seq<Object> {
    var reserved := o.(other := "reserved " + d.id);
    [reserved, Out(reserved, AfterDirectCall(reserved, d, ok))]
  }

  /** From the decision on: reserve, call, and record. */
  lemma {:induction false} RunsDirectly(env: Env, s: Sys, pid: nat, o: Object, d: Draft, ok: bool)
    returns (base: nat, at: nat, t: Sys)
    requires s.hist != []
    requires Stands(s, pid, Writing(|s.hist| - 1, o, Reserve("reserved " + d.id), ToDirectCall(d)))
    ensures Reaches(env, s, t) && t.direct == s.direct + [DirectCall(d, base, at, ok)]
    ensures t == s.(hist := t.hist, direct := t.direct, procs := s.procs - {pid})
    ensures t.hist == s.hist + RunVersions(o, d, ok)
  {
    hide Reaches, Apply, AfterDirectCall, Latest;
    var k := Reserve("reserved " + d.id);
    var o1 := Out(o, k);
    WrittenStep(env, s, pid, Writing(|s.hist| - 1, o, k, ToDirectCall(d)));
    ReachesItself(env, s);
    ReachesMore(env, s, s, Step(pid, WRITTEN));
    var s1 := Apply(env, s, Step(pid, WRITTEN));
    base, at := |s.hist|, |s.receipts|;
    DirectCalledStep(env, s1, pid, DirectCalling(base, o1, d), ok);
    ReachesMore(env, s, s1, Step(pid, CallReply(ok)));
    var s2 := Apply(env, s1, Step(pid, CallReply(ok)));
    var after := AfterDirectCall(o1, d, ok);
    DirectResultBooksNothing(o1, d, ok);
    hide Out;
    WrittenStep(env, s2, pid, Writing(base, o1, after, Stop));
    ReachesMore(env, s, s2, Step(pid, WRITTEN));
    t := Apply(env, s2, Step(pid, WRITTEN));
  }

  lemma {:induction false} DirectResultBooksNothing(o: Object, d: Draft, ok: bool)
    ensures AfterDirectCall(o, d, ok).Final? && AfterDirectCall(o, d, ok).pending.None?
  {
    hide Latest;
  }

  /** A proposal that the layers and the model allow is executed on the direct path:
      from any state without a held action, a reconciler left alone reserves it,
      calls the tool once for it and records the result. */
  lemma {:induction false} AllowedProposalRuns(env: Env, s: Sys, pid: nat, noise: Noise, p: Proposal, d: Draft,
                                               ok: bool)
    returns (base: nat, at: nat, t: Sys)
    requires s.hist != [] && pid !in s.procs && d.id !in s.minted
    requires Current(s).phase != REJECTED && (Current(s).phase == PENDING_APPROVAL ==> Current(s).pending.None?)
    requires d == DraftOf(env, |s.hist| - 1, Current(s).spec, HistoryOf(Current(s).executed, Current(s).proposed), p,
                          d.id, noise)
    requires d.judged.outcome == Decision.Allow
    ensures Reaches(env, s, t) && t.direct == s.direct + [DirectCall(d, base, at, ok)]
    ensures t == s.(hist := t.hist, receipts := t.receipts, minted := s.minted[d.id := pid], direct := t.direct)
    ensures t.hist == s.hist + RunVersions(Current(s), d, ok) && t.receipts == s.receipts + DecisionRows(env, d)
  {
    hide Reaches, DraftOf, AfterDecision, DecisionRows, RunVersions;
    var n, o := |s.hist| - 1, Current(s);
    var s1 := RunsToAsk(env, s, pid, noise);
    var receiptSeq, s2 := RunsToDecision(env, s1, pid, Asking(n, o, noise), p, d);
    ReachesThrough(env, s, s1, s2);
    AllowIsReserved(env, n, o, d, env.receiptsEnabled, receiptSeq);
    base, at, t := RunsDirectly(env, s2, pid, o, d, ok);
    ReachesThrough(env, s, s2, t);
    assert t.procs == s.procs;
  }

  // ------------------------------------------------------------ or is denied

  function DeniedObject(o: Object, d: Draft): Object {
    var a := Action(d.proposal.action, d.proposal.description, d.proposal.confidenceText, false);
    o.(phase := POLICY_DENIED, pending := None, proposed := Latest(o.proposed + [a], MAX_ACTIONS))
  }

  lemma {:induction false} StrictDenies(env: Env, base: nat, o: Object, d: Draft, appended: bool, receiptSeq: nat)
    returns (k: Kind)
    requires d.judged.outcome == Decision.Deny && o.spec.opaPolicy == Some(STRICT)
    ensures AfterDecision(env, base, o, d, appended, receiptSeq) == Writing(base, o, k, Stop)
    ensures k.Final? && k.pending.None? && Out(o, k) == DeniedObject(o, d)
  {
    Decision.ReceiptOnlyTightens(env.receiptsEnabled, env.receiptsRequired, appended,
                                 env.findingText(Invariants.Receipts), d.layers, d.judged);
    hide Latest, Decision.AfterReceipt;
    k := AfterDecision(env, base, o, d, appended, receiptSeq).kind;
  }

  /** Under the strict mode a proposal that is judged deny is only listed. */
  lemma {:induction false} ProposalIsDenied(env: Env, s: Sys, pid: nat, noise: Noise, p: Proposal, d: Draft)
    returns (t: Sys)
    requires s.hist != [] && pid !in s.procs && d.id !in s.minted
    requires Current(s).phase != REJECTED && (Current(s).phase == PENDING_APPROVAL ==> Current(s).pending.None?)
    requires d == DraftOf(env, |s.hist| - 1, Current(s).spec, HistoryOf(Current(s).executed, Current(s).proposed), p,
                          d.id, noise)
    requires d.judged.outcome == Decision.Deny && Current(s).spec.opaPolicy == Some(STRICT)
    ensures Reaches(env, s, t)
    ensures t == s.(hist := s.hist + [DeniedObject(Current(s), d)], receipts := s.receipts + DecisionRows(env, d),
                    minted := s.minted[d.id := pid])
  {
    hide Reaches, Apply, DraftOf, AfterDecision, DecisionRows, DeniedObject;
    var n, o := |s.hist| - 1, Current(s);
    var s2 := RunsToAsk(env, s, pid, noise);
    var receiptSeq, s3 := RunsToDecision(env, s2, pid, Asking(n, o, noise), p, d);
    ReachesThrough(env, s, s2, s3);
    var k := StrictDenies(env, n, o, d, env.receiptsEnabled, receiptSeq);
    hide Out;
    WrittenStep(env, s3, pid, Writing(n, o, k, Stop));
    ReachesMore(env, s, s3, Step(pid, WRITTEN));
    t := Apply(env, s3, Step(pid, WRITTEN));
    assert t.procs == s.procs;
  }

  // ------------------------------------------------------ a human approves it

  /** A client that approves, and sends nothing else of the protocol. */
  const APPROVAL: Approval.Annotations := map[Approval.DECISION := Approval.APPROVE]

  /** The annotations hold no decision for this id, and none without a stamp. */
  predicate Unanswered(ann: Approval.Annotations, id: string) {
    && Get(ann, Approval.FOR) != id
    && (Get(ann, Approval.DECISION) == "" || Get(ann, Approval.BY) != "")
  }

  lemma {:induction false} ApprovalLookups()
    ensures Get(APPROVAL, Approval.DECISION) == Approval.APPROVE && Get(APPROVAL, Approval.REASON) == ""
    ensures Approval.EDIT !in APPROVAL
    ensures forall i | 0 <= i < |Approval.STAMP_KEYS| :: Get(APPROVAL, Approval.STAMP_KEYS[i]) == ""
    ensures Get(APPROVAL, Approval.BY) == ""
  {
    ApprovalProofs.KeysDistinct();
    assert Approval.PROTOCOL_KEYS[0] == Approval.DECISION && Approval.PROTOCOL_KEYS[1] == Approval.REASON;
    assert Approval.PROTOCOL_KEYS[2] == Approval.EDIT && Approval.PROTOCOL_KEYS[3] == Approval.BY;
    assert Approval.PROTOCOL_KEYS[4] == Approval.FOR && Approval.PROTOCOL_KEYS[5] == Approval.MAC;
  }

  lemma {:induction false} ApprovalIsNew(ann: Approval.Annotations, id: string)
    requires Unanswered(ann, id)
    ensures !Approval.SameProtocol(ann, APPROVAL) && !Approval.ForgesStamp(ann, APPROVAL)
  {
    ApprovalLookups();
    if Get(ann, Approval.DECISION) == "" {
      assert !Approval.SameKey(ann, APPROVAL, Approval.PROTOCOL_KEYS[0]);
    } else {
      assert !Approval.SameKey(ann, APPROVAL, Approval.PROTOCOL_KEYS[3]);
    }
  }

  /** The webhook stamps it, and it reads back as an approval. */
  lemma {:induction false} ApprovalIsStamped(env: Env, ann: Approval.Annotations, p: Approval.Pending, username: string)
    returns (d: Approval.Decision, out: Approval.Annotations)
    requires Approval.Lawful(env.codec) && env.key != "" && !env.codec.blank(username)
    requires p.id != "" && Unanswered(ann, p.id)
    ensures Approval.Admitted(env.codec, env.hashes, ann, APPROVAL, p, username, multiset{}, env.key) == Ok(out)
    ensures Approval.Read(env.codec, env.hashes, out, p, env.key) == Ok(Some(d))
    ensures d.verdict == Approval.APPROVE && d.edit.None?
    ensures Get(out, Approval.FOR) == p.id && Get(out, Approval.BY) != ""
  {
    ApprovalIsNew(ann, p.id);
    ApprovalLookups();
    hide Approval.SameProtocol, Approval.ForgesStamp, Approval.Stamped;
    assert Approval.Repairs(env.codec, "");
    assert Approval.ValidateFields(env.codec, APPROVAL) == Ok((Approval.APPROVE, None));
    out := Approval.Admitted(env.codec, env.hashes, ann, APPROVAL, p, username, multiset{}, env.key).value;
    ApprovalProofs.AdmitStamps(env.codec, env.hashes, ann, APPROVAL, p, username, multiset{}, env.key);
    d := ApprovalProofs.DecisionOf(env.codec, env.hashes, APPROVAL, p, username, multiset{});
  }

  /** A client with this name can approve action c of o, and no layer stops what
      would run. */
  predicate Approvable(env: Env, o: Object, c: Content, username: string, noise: Noise) {
    && env.key != "" && !env.codec.blank(username) && c.id != "" && Unanswered(o.ann, c.id)
    && env.validSpec(o.spec) && o.spec.opaPolicy.Some?
    && env.parseProposal(c.proposal).Some?
    && !BlockedBy(env, o.spec, HistoryOf(o.executed, o.proposed),
                  Target(c.action, c.description, env.parseProposal(c.proposal).value), c, noise)
  }

  /** o holds c, undecided and not yet executing. */
  predicate Waiting(o: Object, c: Content) {
    && o.phase == PENDING_APPROVAL && o.pending.Some? && o.pending.value.content == c
    && o.pending.value.state != Executing && !Consumed(o.last, o.consumed, c.id)
  }

  lemma {:induction false} ApprovedPlan(env: Env, o: Object, c: Content, d: Approval.Decision, noise: Noise)
    returns (h: Handled)
    requires Waiting(o, c) && env.parseProposal(c.proposal).Some?
    requires Approval.Read(env.codec, env.hashes, o.ann, RefOf(env.hashes, o.uid, c), env.key) == Ok(Some(d))
    requires d.verdict == Approval.APPROVE && d.edit.None?
    requires !BlockedBy(env, o.spec, HistoryOf(o.executed, o.proposed),
                        Target(c.action, c.description, env.parseProposal(c.proposal).value), c, noise)
    ensures PlanFor(env, o, o.pending.value, noise) == Act(h)
    ensures h.content == c && h.decision.verdict != Approval.REJECT && !h.blocked
  {
    hide Approval.Read, BlockedBy, Consumed;
    h := PlanFor(env, o, o.pending.value, noise).h;
  }

  /** One client request. */
  lemma {:induction false} ClientApproves(env: Env, s: Sys, c: Content, username: string, noise: Noise)
    returns (h: Handled, t: Sys)
    requires Approval.Lawful(env.codec) && s.hist != [] && Waiting(Current(s), c)
    requires Approvable(env, Current(s), c, username, noise)
    ensures Reaches(env, s, t) && Approved(env, t, noise, h) && h.content == c
    ensures t == s.(hist := t.hist) && t.hist != [] && Current(t) == Current(s).(ann := Current(t).ann)
    ensures Get(Current(t).ann, Approval.FOR) == c.id && Get(Current(t).ann, Approval.BY) != ""
  {
    hide Reaches, BlockedBy, Approval.Admitted, Approval.Read, PlanFor, Unanswered;
    var o := Current(s);
    var p := RefOf(env.hashes, o.uid, c);
    var d, out := ApprovalIsStamped(env, o.ann, p, username);
    var r := Webhook.Request(APPROVAL, o.spec, username, multiset{});
    var o' := o.(ann := out);
    assert Webhook.Admitted(env.codec, env.hashes, env.key, env.validSpec, o, r) == Some(o');
    ReachesItself(env, s);
    ReachesMore(env, s, s, Client(r));
    t := Apply(env, s, Client(r));
    assert Current(t) == o';
    h := ApprovedPlan(env, o', c, d, noise);
  }

  lemma {:induction false} FreePid(procs: map<nat, Pc>) returns (pid: nat)
    ensures pid !in procs
  {
    pid := 0;
    var rest := procs.Keys;
    while pid in rest
      invariant forall k | k in procs :: k in rest || k < pid
      invariant forall k | k in rest :: k >= pid
      decreases rest
    {
      rest := rest - {pid};
      pid := pid + 1;
    }
  }

  /** Nothing in the protocol keeps a held action from running: from any state in
      which it waits undecided, any client that the webhook can stamp may approve
      it, which gives t, and if the layers let it through a schedule then calls the
      tool once for it and records it as executed. */
  lemma {:induction false} HeldActionCanRun(env: Env, s: Sys, c: Content, username: string, noise: Noise)
    returns (h: Handled, t: Sys, u: Sys)
    requires Approval.Lawful(env.codec) && s.hist != [] && Waiting(Current(s), c)
    requires Approvable(env, Current(s), c, username, noise)
    ensures Reaches(env, s, t) && Reaches(env, s, u) && h.content == c && RanOnce(env, t, u, h)
    ensures exists base, receiptSeq :: u.examples == s.examples + LabelledBy(env, h, base, receiptSeq)
    ensures t == s.(hist := t.hist) && t.hist != [] && Current(t) == Current(s).(ann := Current(t).ann)
    ensures Get(Current(t).ann, Approval.FOR) == c.id && Get(Current(t).ann, Approval.BY) != ""
  {
    hide Reaches, Approvable, Waiting, Approved, RanOnce, Approval.Lawful;
    h, t := ClientApproves(env, s, c, username, noise);
    var pid := FreePid(t.procs);
    u := ApprovedActionCanRun(env, t, pid, noise, h);
    ReachesThrough(env, s, t, u);
  }

  // ------------------------------------------------ a slow reconciler is overtaken

  lemma {:induction false} GivesUp(env: Env, base: nat, o: Object, noise: Noise) returns (k: Kind)
    requires o.phase == PENDING_APPROVAL && o.pending.Some? && o.pending.value.state == Executing
    requires !Consumed(o.last, o.consumed, o.pending.value.content.id)
    ensures AfterGate(env, base, o, noise) == Writing(base, o, k, Stop)
    ensures k.Finish? && k.outcome.id == o.pending.value.content.id && k.outcome.outcome == "unknown"
  {
    k := UnknownFinish(o, o.pending.value);
    assert PlanFor(env, o, o.pending.value, noise) == GiveUp;
    hide PlanFor;
  }

  /** Another reconciler reads the Executing action and finishes it as unknown. */
  lemma {:induction false} Overtaken(env: Env, s: Sys, other: nat, noise: Noise, o: Object) returns (k: Kind, t: Sys)
    requires s.hist != [] && Current(s) == o && other !in s.procs
    requires o.phase == PENDING_APPROVAL && o.pending.Some? && o.pending.value.state == Executing
    requires !Consumed(o.last, o.consumed, o.pending.value.content.id)
    ensures Reaches(env, s, t) && t.procs == s.procs && t.hist == s.hist + [Out(o, k)] && t.held == s.held
    ensures k.Finish? && k.outcome.id == o.pending.value.content.id && k.outcome.outcome == "unknown"
    ensures k.outcome.id in t.ends && t.ends[k.outcome.id].outcome == "unknown"
    ensures t.finished == s.finished + [k.outcome.id]
  {
    hide Reaches, AfterGate, Consumed, Apply, Out;
    var n := |s.hist| - 1;
    var s1 := Fetches(env, s, other);
    k := GivesUp(env, n, o, noise);
    GateStep(env, s1, other, Fetched(n, o), noise);
    ReachesMore(env, s, s1, Step(other, GateReply(Pass(noise))));
    var s2 := Apply(env, s1, Step(other, GateReply(Pass(noise))));
    WrittenStep(env, s2, other, Writing(n, o, k, Stop));
    ReachesMore(env, s, s2, Step(other, WRITTEN));
    t := Apply(env, s2, Step(other, WRITTEN));
  }
}
