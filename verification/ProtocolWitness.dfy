/** Runs that happen: from a created object a proposal is held, approved, labelled
    in the dataset and executed, as often as one likes, and another one is executed
    directly, all under required receipts; and the limits of modules ProtocolLimits
    and ProtocolHistory are reached.
  */
module ProtocolWitness {
  import opened Text
  import opened Workload
  import opened Governance
  import opened Protocol
  import opened ProtocolInvariant
  import opened ProtocolTheorems
  import opened ProtocolSchedules
  import opened ProtocolLimits
  import opened ProtocolHistory
  import Approval
  import ApprovalProofs
  import Crypto
  import DataClass
  import Decision
  import Invariants
  import Webhook

  // ------------------------------------------------------------ one operator

  /** An operator with required receipts and a dataset, without packs or a model,
      whose threshold allows the tool "read" and sends everything else to a human. */
  function SampleEnv(): Env {
    var zeros: Crypto.Digest := seq(32, _ => '\0');
    Env(ApprovalProofs.SampleCodec(), Crypto.Hashes(_ => zeros, (_, _) => zeros), "key", true, true, true,
        Invariants.Folding(s => s, s => s, s => "", s => false), s => {}, _ => "", _ => Some(DataClass.Nil), _ => None,
        (_, _, _) => PackVerdict(None, [], []), (_, tool, _, _) => (tool == "read", []), Decision.NoModel,
        _ => Decision.Off, _ => true)
  }

  const PERMISSIVE := Spec(None, [], Some("permissive"), None, None, None, None, "")

  function SampleObject(): Object {
    Object("uid", map[], PERMISSIVE, "", None, None, [], [], [], None, "")
  }

  const QUIET := Noise(true, 0)

  const PROPOSAL := Proposal("restart", "", 1.0, "1", DataClass.Nil, Some("{}"), 1.0, "1", None, "", "")

  const READ := PROPOSAL.(action := "read")

  lemma {:induction false} SampleIsLawful()
    ensures Governance.Lawful(SampleEnv()) && Fresh(SampleEnv(), SampleObject())
  {
    ApprovalProofs.LawsAreConsistent();
    var env, o := SampleEnv(), SampleObject();
    var r := Webhook.Request(map[], PERMISSIVE, "", multiset{});
    hide ApprovalProofs.SampleCodec;
    assert Approval.SameProtocol(map[], map[]);
    assert Approval.Admitted(env.codec, env.hashes, map[], r.ann, Approval.Pending("", "", ""), r.username, r.groups,
                             env.key)
           == Ok(o.ann);
  }

  /** No invariant and no pack stops it. */
  lemma {:induction false} SampleIsUnblocked(past: History, c: Content)
    ensures !BlockedBy(SampleEnv(), PERMISSIVE, past, Target(c.action, c.description, DataClass.Nil), c, QUIET)
  {
    var env := SampleEnv();
    var t := Target(c.action, c.description, DataClass.Nil);
    var input := InputOf(env, PERMISSIVE, t.payload);
    assert DataClass.Sorted({}) == [];
    assert input.observed.dataClasses == [] && !input.observed.scanIncomplete;
    Invariants.EmptyIffSatisfied(env.folding, input, ReceiptContext(env, QUIET));
    assert Invariants.Satisfies(env.folding, input, ReceiptContext(env, QUIET));
    hide Invariants.Satisfies, Invariants.Violations, InputOf;
    assert Texts(env, []) == [];
  }

  /** The threshold sends this proposal to a human. */
  lemma {:induction false} SampleGoesToHuman(o: Object, seen: nat, id: string)
    requires o.spec == PERMISSIVE
    ensures GoesToHuman(o, DraftOf(SampleEnv(), seen, o.spec, HistoryOf(o.executed, o.proposed), PROPOSAL, id, QUIET))
  {
    assert |PROPOSAL.action| != |READ.action|;
    hide Invariants.Violations, InputOf;
  }

  /** And allows this one. */
  lemma {:induction false} SampleAllows(o: Object, seen: nat, id: string) returns (d: Draft)
    requires o.spec == PERMISSIVE
    ensures d == DraftOf(SampleEnv(), seen, o.spec, HistoryOf(o.executed, o.proposed), READ, id, QUIET)
    ensures d.id == id && d.judged.outcome == Decision.Allow
  {
    var env := SampleEnv();
    d := DraftOf(env, seen, o.spec, HistoryOf(o.executed, o.proposed), READ, id, QUIET);
    var input := InputOf(env, PERMISSIVE, DataClass.Nil);
    assert DataClass.Sorted({}) == [];
    Invariants.EmptyIffSatisfied(env.folding, input, ReceiptContext(env, QUIET));
    assert Invariants.Satisfies(env.folding, input, ReceiptContext(env, QUIET));
    hide Invariants.Satisfies, Invariants.Violations, InputOf;
    assert Texts(env, []) == [];
  }

  // -------------------------------------------------------------- one action

  function Name(n: nat): (id: string)
    ensures |id| == n
  {
    seq(n, _ => 'x')
  }

  predicate NotLonger(ids: seq<string>, n: nat) {
    forall i | 0 <= i < |ids| :: |ids[i]| <= n
  }

  /** n actions were named and decided, and no reconciler is at work. */
  predicate Ready(s: Sys, n: nat) {
    && s.hist != [] && s.procs == map[] && (forall id | id in s.minted :: |id| <= n) && ReadyObject(Current(s), n)
  }

  predicate ReadyObject(o: Object, n: nat) {
    && o.spec == PERMISSIVE && o.pending.None? && o.phase != REJECTED
    && Get(o.ann, Approval.FOR) == Name(n) && (Get(o.ann, Approval.DECISION) == "" || Get(o.ann, Approval.BY) != "")
    && (o.last.Some? ==> |o.last.value.id| <= n) && NotLonger(o.consumed, n)
  }

  lemma {:induction false} NewNameIsFree(o: Object, n: nat)
    requires ReadyObject(o, n)
    ensures !Consumed(o.last, o.consumed, Name(n + 1)) && Unanswered(o.ann, Name(n + 1))
  {
  }

  /** Held by such an object, the next action can be approved. */
  lemma {:induction false} HeldIsApprovable(o: Object, n: nat, c: Content, proposed: seq<Action>)
    requires ReadyObject(o, n) && c.id == Name(n + 1)
    ensures var held := HeldObject(o, c, proposed);
            Waiting(held, c) && Approvable(SampleEnv(), held, c, "alice", QUIET)
  {
    NewNameIsFree(o, n);
    NameIsNotEmpty(n);
    hide Consumed, Unanswered, BlockedBy, Name, NotLonger;
    SampleIsUnblocked(HistoryOf(o.executed, proposed), c);
  }

  lemma {:induction false} SampleDraft(o: Object, seen: nat, id: string) returns (d: Draft)
    requires o.spec == PERMISSIVE
    ensures d == DraftOf(SampleEnv(), seen, o.spec, HistoryOf(o.executed, o.proposed), PROPOSAL, id, QUIET)
    ensures d.id == id && d.proposal == PROPOSAL && GoesToHuman(o, d)
  {
    d := DraftOf(SampleEnv(), seen, o.spec, HistoryOf(o.executed, o.proposed), PROPOSAL, id, QUIET);
    SampleGoesToHuman(o, seen, id);
    hide Judge, Evaluate, GoesToHuman;
  }

  /** The next action is proposed and held. */
  lemma {:induction false} NextIsHeld(s: Sys, n: nat) returns (c: Content, t: Sys)
    requires Ready(s, n)
    ensures Reaches(SampleEnv(), s, t) && c.id == Name(n + 1)
    ensures t.hist != [] && t.procs == s.procs && t.held == s.held && t.finished == s.finished &&
            t.examples == s.examples
    ensures t.minted == s.minted[c.id := 0]
    ensures Current(t) == HeldObject(Current(s), c, Current(t).proposed)
    ensures Waiting(Current(t), c) && Approvable(SampleEnv(), Current(t), c, "alice", QUIET)
  {
    hide DraftOf, GoesToHuman, Reaches, Waiting, Approvable, Name, NotLonger;
    var d := SampleDraft(Current(s), |s.hist| - 1, Name(n + 1));
    var receiptSeq;
    receiptSeq, t := ProposalIsHeld(SampleEnv(), s, 0, QUIET, PROPOSAL, d);
    c := ContentOf(d, receiptSeq).value;
    HeldIsApprovable(Current(s), n, c, Current(t).proposed);
  }

  lemma {:induction false} NameIsNotEmpty(n: nat)
    ensures Name(n + 1) != ""
  {
    assert |Name(n + 1)| == n + 1;
  }

  lemma {:induction false} LatestNotLonger(ids: seq<string>, id: string, n: nat)
    requires NotLonger(ids, n) && |id| == n + 1
    ensures NotLonger(Latest(ids + [id], MAX_CONSUMED), n + 1)
  {
  }

  /** The last decided action of o is id, and it was executed. */
  predicate Executed(o: Object, id: string) {
    o.last.Some? && o.last.value.id == id && o.last.value.outcome == "executed"
  }

  lemma {:induction false} RanIsReady(o: Object, n: nat, c: Content, held: Object, o': Object)
    requires ReadyObject(o, n) && c.id == Name(n + 1)
    requires held == HeldObject(o, c, held.proposed).(ann := held.ann)
    requires Get(held.ann, Approval.FOR) == c.id && Get(held.ann, Approval.BY) != ""
    requires Ran(held, o', c.id)
    ensures ReadyObject(o', n + 1)
  {
    hide Latest, NotLonger, Name;
    LatestNotLonger(o.consumed, Name(n + 1), n);
  }

  /** And approved and executed. */
  lemma {:induction false} NextRuns(s: Sys, n: nat) returns (h: Handled, base: nat, at: nat, u: Sys)
    requires Ready(s, n)
    ensures Reaches(SampleEnv(), s, u) && Ready(u, n + 1)
    ensures u.held == s.held + [HeldCall(h, base, at, true)] && h.content.id == Name(n + 1)
    ensures u.finished == s.finished + [Name(n + 1)] && |u.examples| == |s.examples| + 1
    ensures Executed(Current(u), Name(n + 1))
  {
    ApprovalProofs.LawsAreConsistent();
    hide Reaches, Waiting, Approvable, ApprovalProofs.SampleCodec, Approval.Lawful, ReadyObject, Name, HeldObject,
         Latest;
    var c, a := NextIsHeld(s, n);
    var t;
    h, t, u := HeldActionCanRun(SampleEnv(), a, c, "alice", QUIET);
    ReachesThrough(SampleEnv(), s, a, u);
    base, at :| u.held == t.held + [HeldCall(h, base, at, true)];
    var held := HeldObject(Current(s), c, Current(a).proposed);
    AnnotatedHeld(Current(s), c, Current(a).proposed, Current(t).ann);
    RanIsReady(Current(s), n, c, held.(ann := Current(t).ann), Current(u));
  }

  lemma {:induction false} AnnotatedHeld(o: Object, c: Content, proposed: seq<Action>, ann: Approval.Annotations)
    ensures var held := HeldObject(o, c, proposed).(ann := ann);
            held == HeldObject(o, c, held.proposed).(ann := held.ann)
  {
  }

  // --------------------------------------------------------------- many actions

  function Names(n: nat): (ids: seq<string>)
    ensures |ids| == n
  {
    seq(n, i requires 0 <= i < n => Name(i + 1))
  }

  lemma {:induction false} InitIsReady()
    ensures Ready(Init(SampleObject()), 0)
  {
    assert Name(0) == "";
  }

  lemma {:induction false} NamesNext(n: nat)
    ensures Names(n + 1) == Names(n) + [Name(n + 1)]
  {
  }

  /** n actions in turn, each held, approved and executed. */
  lemma {:induction false} ManyRun(n: nat) returns (s: Sys)
    ensures Reaches(SampleEnv(), Init(SampleObject()), s) && Ready(s, n)
    ensures s.finished == Names(n) && CalledIds(s.held) == Names(n) && |s.examples| == n
    ensures n > 0 ==> Executed(Current(s), Name(n))
    decreases n
  {
    hide Reaches, Ready;
    if n == 0 {
      InitIsReady();
      s := Init(SampleObject());
      ReachesItself(SampleEnv(), s);
    } else {
      var r := ManyRun(n - 1);
      var h, base, at;
      h, base, at, s := NextRuns(r, n - 1);
      ReachesThrough(SampleEnv(), Init(SampleObject()), r, s);
      CallsInOrder(r.held, HeldCall(h, base, at, true));
      NamesNext(n - 1);
    }
  }

  lemma {:induction false} ReachedIsRun(env: Env, o: Object, s: Sys) returns (labels: seq<Label>)
    requires Reaches(env, Init(o), s)
    ensures s == Run(env, o, labels)
  {
    labels :| s == ApplyAll(env, Init(o), labels);
    RunIsApplyAll(env, o, [], labels);
    assert [] + labels == labels;
  }

  /** One more proposal, which is allowed and runs directly. */
  lemma {:induction false} OneMoreDirectly(s: Sys, n: nat) returns (t: Sys)
    requires Ready(s, n)
    ensures Reaches(SampleEnv(), s, t) && |t.direct| == |s.direct| + 1
    ensures t.held == s.held && t.finished == s.finished && t.examples == s.examples
  {
    hide DraftOf, Reaches, ReadyObject;
    assert ReadyIsFree(Current(s)) by { ReadyMeansFree(Current(s), n); }
    var d := SampleAllows(Current(s), |s.hist| - 1, Name(n + 1));
    var base, at;
    base, at, t := AllowedProposalRuns(SampleEnv(), s, 0, QUIET, READ, d, true);
  }

  predicate ReadyIsFree(o: Object) {
    o.spec == PERMISSIVE && o.phase != REJECTED && o.pending.None?
  }

  lemma {:induction false} ReadyMeansFree(o: Object, n: nat)
    requires ReadyObject(o, n)
    ensures ReadyIsFree(o)
  {
    hide NotLonger, Name;
  }

  /** Runs do execute: for every n there is one, from a created object under required
      receipts, that calls the tool for n held actions, one after the other, has them
      all decided and labelled in the dataset, and then calls it for an action of
      the direct path. */
  lemma {:induction false} SomeRunExecutes(n: nat)
    ensures SampleEnv().receiptsEnabled && SampleEnv().receiptsRequired
    ensures exists labels ::
              var s := Run(SampleEnv(), SampleObject(), labels);
              CalledIds(s.held) == Names(n) && s.finished == Names(n) && |s.examples| == n && |s.direct| > 0
  {
    hide Reaches, Ready, Run, CalledIds;
    var s := ManyRun(n);
    var t := OneMoreDirectly(s, n);
    ReachesThrough(SampleEnv(), Init(SampleObject()), s, t);
    var labels := ReachedIsRun(SampleEnv(), SampleObject(), t);
  }

  // ------------------------------------------------- the limits are reached

  /** From an approved action to its call, and no further. */
  lemma {:induction false} ApprovedToCall(env: Env, s: Sys, pid: nat, noise: Noise, h: Handled)
    returns (o: Object, seqNo: nat, t: Sys)
    requires Approved(env, s, noise, h) && pid !in s.procs
    ensures Reaches(env, s, t) && t.hist != [] && Current(t) == o && t.held == s.held
    ensures t.procs == s.procs[pid := Calling(|t.hist| - 1, o, h, seqNo)]
    ensures s.hist != [] && ExecutesFrom(Current(s), o)
  {
    hide PlanFor, Reaches, Taken, Out, ExecutesFrom;
    PlanKeepsContent(env, s, noise, h);
    var a := RunsToPlan(env, s, pid, noise, h);
    var first, b;
    first, seqNo, b := RunsToExecute(env, a, pid, h, Current(s));
    ReachesThrough(env, s, a, b);
    t := RunsToCall(env, b, pid, first, h, seqNo);
    ReachesThrough(env, s, b, t);
    o := Out(first, Execute(first.other));
    TwoWrites(Current(s), h.decision.verdict);
  }

  /** o' is o with its pending action Executing. */
  predicate ExecutesFrom(o: Object, o': Object) {
    && o.pending.Some? && o'.pending.Some? && o'.pending.value.content == o.pending.value.content
    && o'.pending.value.state == Executing && o'.phase == o.phase && o'.last == o.last && o'.consumed == o.consumed
  }

  lemma {:induction false} TwoWrites(o: Object, verdict: string)
    requires o.pending.Some?
    ensures var first := Out(o, Record(verdict));
            ExecutesFrom(o, Out(first, Execute(first.other)))
  {
  }

  /** A call under way, for the action of the current object. */
  predicate UnderWay(s: Sys, pid: nat, id: string) {
    && s.hist != [] && CallsNext(s, pid, id)
    && Current(s).phase == PENDING_APPROVAL && Current(s).pending.Some? && Current(s).pending.value.content.id == id
    && Current(s).pending.value.state == Executing && !Consumed(Current(s).last, Current(s).consumed, id)
  }

  lemma {:induction false} SomeCallIsUnderWay() returns (s: Sys)
    ensures Reaches(SampleEnv(), Init(SampleObject()), s) && s.procs.Keys == {0} && UnderWay(s, 0, Name(1))
  {
    ApprovalProofs.LawsAreConsistent();
    InitIsReady();
    hide Reaches, Approvable, Approved, Approval.Lawful, Ready, ApprovalProofs.SampleCodec, Name, SampleEnv;
    var env, s0 := SampleEnv(), Init(SampleObject());
    var c, a := NextIsHeld(s0, 0);
    var h, t := ClientApproves(env, a, c, "alice", QUIET);
    ReachesThrough(env, s0, a, t);
    var o, seqNo;
    o, seqNo, s := ApprovedToCall(env, t, 0, QUIET, h);
    ReachesThrough(env, s0, t, s);
    hide Consumed;
  }

  /** A run from a created object reaches the outcome "unknown" of an action whose
      call is still to come, and that call can then happen. */
  lemma {:induction false} SomeUnknownStillRuns()
    ensures exists labels ::
              var s := Run(SampleEnv(), SampleObject(), labels);
              && Name(1) in s.ends && s.ends[Name(1)].outcome == "unknown" && CallsNext(s, 0, Name(1))
              && MayCall(SampleEnv(), SampleObject(), labels, Name(1))
  {
    SampleIsLawful();
    hide Reaches, Governance.Lawful, Fresh, Run, Name, SampleEnv, MayCall, Consumed;
    var env, o := SampleEnv(), SampleObject();
    var s := SomeCallIsUnderWay();
    var k, t := Overtaken(env, s, 1, QUIET, Current(s));
    ReachesThrough(env, Init(o), s, t);
    var labels := ReachedIsRun(env, o, t);
    assert CallsNext(t, 0, Name(1));
    FinishedMayStillRunIff(env, o, labels, Name(1));
  }

  /** The reconciler calls, and stops before it can record what came of it. */
  lemma {:induction false} CallsAndStops(env: Env, s: Sys, pid: nat) returns (t: Sys)
    requires s.hist != [] && pid in s.procs && s.procs[pid].Calling?
    ensures Reaches(env, s, t)
    ensures t == s.(held := t.held, procs := s.procs - {pid})
    ensures AddsCall(s, t, s.procs[pid].h.content.id)
  {
    hide Reaches, CalledFinish;
    var pc := s.procs[pid];
    CalledStep(env, s, pid, pc, true);
    ReachesItself(env, s);
    ReachesMore(env, s, s, Step(pid, CallReply(true)));
    var s1 := Apply(env, s, Step(pid, CallReply(true)));
    ReachesMore(env, s, s1, Crash(pid));
    t := Apply(env, s1, Crash(pid));
    assert t.held[|s.held|].h.content.id == pc.h.content.id;
  }

  /** The next reconcile fails a check before the action path. */
  lemma {:induction false} ChecksFail(env: Env, s: Sys, pid: nat) returns (t: Sys)
    requires s.hist != [] && pid !in s.procs
    ensures Reaches(env, s, t)
    ensures t == s.(hist := s.hist + [Current(s).(phase := FAILED, other := "no licence")], procs := s.procs - {pid})
  {
    hide Reaches;
    var n, o, k := |s.hist| - 1, Current(s), Block(FAILED, "no licence");
    var s1 := Fetches(env, s, pid);
    var gate := GateReply(Blocked(FAILED, "no licence"));
    assert FAILED != PENDING_APPROVAL by { assert |FAILED| != |PENDING_APPROVAL|; }
    ReachesMore(env, s, s1, Step(pid, gate));
    var s2 := Apply(env, s1, Step(pid, gate));
    assert s2 == s.(procs := s.procs[pid := Writing(n, o, k, Stop)]);
    hide Apply;
    WrittenStep(env, s2, pid, Writing(n, o, k, Stop));
    ReachesMore(env, s, s2, Step(pid, WRITTEN));
    t := Apply(env, s2, Step(pid, WRITTEN));
  }

  /** Of a call that was made, a run from a created object can end with no outcome
      and no reconciler at work, and then no continuation ever records one: the
      operator stopped while executing, and the next reconcile failed a check before
      the action path. */
  lemma {:induction false} SomeOutcomeIsLost()
    ensures exists labels ::
              var s := Run(SampleEnv(), SampleObject(), labels);
              && Name(1) in CalledIds(s.held) && Name(1) !in s.finished && s.procs == map[]
              && !MayFinish(SampleEnv(), SampleObject(), labels, Name(1))
  {
    SampleIsLawful();
    hide Reaches, Governance.Lawful, Fresh, Run, Name, SampleEnv, MayFinish, Consumed, Inv, CalledIds;
    var env, o := SampleEnv(), SampleObject();
    var s := SomeCallIsUnderWay();
    var a := CallsAndStops(env, s, 0);
    ReachesThrough(env, Init(o), s, a);
    var t := ChecksFail(env, a, 0);
    ReachesThrough(env, Init(o), a, t);
    var labels := ReachedIsRun(env, o, t);
    var before := ReachedIsRun(env, o, s);
    RunInvariant(env, o, before);
    CallerHasNotCalled(env, o.uid, s, 0, Name(1));
    UnderWayIsUnfinished(env, o.uid, s, 0, Name(1));
    CalledIsListed(s, t, Name(1));
    FailedIsNotReportable(t, Name(1));
    OutcomeMayFollowIff(env, o, labels, Name(1));
  }

  lemma {:induction false} FailedIsNotReportable(s: Sys, id: string)
    requires s.hist != [] && Current(s).phase == FAILED
    ensures !Reportable(s, id)
  {
    assert |FAILED| != |PENDING_APPROVAL|;
  }

  lemma {:induction false} UnderWayIsUnfinished(env: Env, uid: string, s: Sys, pid: nat, id: string)
    requires Inv(env, uid, s) && UnderWay(s, pid, id)
    ensures id !in s.finished
  {
    hide VersionsOk, BooksOk, ProcsOk, CallsOk, WindowOk, Consumed;
  }

  lemma {:induction false} FirstIsEvicted()
    ensures var ids := Names(33);
            Latest(ids, MAX_CONSUMED) == ids[1..] && Name(1) in ids && Name(1) !in ids[1..] && ids[32] != Name(1)
  {
    var ids := Names(33);
    assert ids[0] == Name(1);
    assert forall i | 1 <= i < 33 :: |ids[i]| == i + 1;
  }

  lemma {:induction false} FirstIsForgotten(env: Env, uid: string, s: Sys)
    requires Inv(env, uid, s) && s.finished == Names(33)
    ensures !Consumed(Current(s).last, Current(s).consumed, Name(1))
  {
    FirstIsEvicted();
    hide VersionsOk, BooksOk, ProcsOk, CallsOk, HeldStateOk, Latest, Names, Name, Tells;
  }

  lemma {:induction false} FirstCanPass(s: Sys)
    requires Ready(s, 33) && Name(1) in s.born && s.born[Name(1)].content.id == Name(1)
    ensures CanPass(SampleEnv(), Current(s), s.born[Name(1)].content, "alice", QUIET)
  {
    var o, c := Current(s), s.born[Name(1)].content;
    SampleIsUnblocked(HistoryOf(o.executed, o.proposed), c);
    assert |Name(33)| == 33 && |Name(1)| == 1;
    hide BlockedBy, NotLonger, Name;
    assert Approvable(SampleEnv(), o, c, "alice", QUIET);
  }

  lemma {:induction false} CalledIsBorn(s: Sys, id: string)
    requires BooksOk(s) && id in CalledIds(s.held)
    ensures id in s.born && s.born[id].content.id == id
  {
    hide CalledIds, Replies, EndOk, Distinct;
  }

  /** After 33 finished actions the first one has left the window: put back as it
      was proposed, it can be approved and executed a second time. */
  lemma {:induction false} EvictedRunsAgain()
    ensures exists labels ::
              var s := Run(SampleEnv(), SampleObject(), labels);
              && s.hist != [] && Name(1) in s.born && Name(1) in CalledIds(s.held) && Name(1) in s.finished
              && MayCallFrom(SampleEnv(), s, Restored(s, Name(1), Idle, "", PENDING_APPROVAL), Name(1))
  {
    SampleIsLawful();
    FirstIsEvicted();
    hide Reaches, Governance.Lawful, Fresh, Run, Name, Names, SampleEnv, MayCallFrom, Consumed, CalledIds, CanPass,
         Restored, Inv;
    var env, o := SampleEnv(), SampleObject();
    var s := ManyRun(33);
    var labels := ReachedIsRun(env, o, s);
    RunInvariant(env, o, labels);
    assert BooksOk(s) && s.hist != [] by { InvParts(env, o.uid, s); }
    FirstIsForgotten(env, o.uid, s);
    CalledIsBorn(s, Name(1));
    FirstCanPass(s);
    hide Ready, BooksOk;
    RestoredRunsIff(env, o, labels, Name(1), Idle, "", "alice", QUIET);
  }

  lemma {:induction false} InvParts(env: Env, uid: string, s: Sys)
    requires Inv(env, uid, s)
    ensures BooksOk(s) && s.hist != []
  {
    hide BooksOk, CurrentOk, ProcsOk, CallsOk, VersionOk;
  }
}
