/** The reconcile code itself: internal/controller/approvals.go, receipts.go,
    reservation.go and the action path of agentworkload_controller.go.

    The methods change a local copy of the workload and talk to the world. What
    they ask of it, and in which order, is recorded in a trace, and every method
    is proved to follow the automaton of module Protocol, whatever the world
    answers. So the theorems about runs are about this code.
  */
module Controller {
  import opened Text
  import opened Workload
  import opened Governance
  import opened Protocol
  import Approval
  import Crypto
  import DataClass
  import Decision
  import Invariants

  // -------------------------------------------------------------- the world

  /** What the controller asks of the world. */
  datatype Request =
    | GateRequest(o: Object)
    | WriteRequest(base: nat, out: Object)
    | AppendRequest(entry: Entry)
    | ExampleRequest(h: Handled, receiptSeq: nat)
    | CallRequest(payload: Payload)
    | AskRequest(o: Object)

  datatype Io = Io(request: Request, response: Response)

  /** What an automaton in this place asks. */
  function RequestOf(pc: Pc): Request
    requires !pc.Done?
  {
    match pc
    case Fetched(_, o) => GateRequest(o)
    case Writing(base, o, k, _) => WriteRequest(base, Out(o, k))
    case HumanReceipt(_, _, _) => AppendRequest(EntryOf(pc))
    case StoringExample(_, _, h, receiptSeq) => ExampleRequest(h, receiptSeq)
    case DenyReceipt(_, _, _, _, _) => AppendRequest(EntryOf(pc))
    case DecisionReceipt(_, _, _) => AppendRequest(EntryOf(pc))
    case Calling(_, _, h, _) => CallRequest(h.payload)
    case DirectCalling(_, _, d) => CallRequest(DraftPayload(d.proposal))
    case Asking(_, o, _) => AskRequest(o)
  }

  /** Where the automaton stands after this exchange. */
  ghost function End(env: Env, start: Pc, trace: seq<Io>): Pc {
    if trace == [] then start else Resume(env, End(env, start, trace[..|trace| - 1]), trace[|trace| - 1].response)
  }

  /** Every request is the one the automaton makes at that point. */
  ghost predicate Legal(env: Env, start: Pc, trace: seq<Io>) {
    trace != [] ==>
      var before := End(env, start, trace[..|trace| - 1]);
      && Legal(env, start, trace[..|trace| - 1])
      && !before.Done? && trace[|trace| - 1].request == RequestOf(before)
  }

  /** The exchange so far is legal and leaves the automaton here. */
  ghost predicate At(env: Env, start: Pc, trace: seq<Io>, pc: Pc) {
    Legal(env, start, trace) && End(env, start, trace) == pc
  }

  lemma {:induction false} OneStep(env: Env, start: Pc, trace: seq<Io>, pc: Pc, io: Io)
    requires At(env, start, trace, pc) && !pc.Done? && io.request == RequestOf(pc)
    ensures At(env, start, trace + [io], Resume(env, pc, io.response))
  {
    hide Resume, RequestOf;
    var more := trace + [io];
    assert more[..|more| - 1] == trace && more[|more| - 1] == io;
  }

  lemma {:induction false} LegalPrefix(env: Env, start: Pc, trace: seq<Io>, n: nat)
    requires Legal(env, start, trace) && n <= |trace|
    ensures Legal(env, start, trace[..n])
  {
    if n < |trace| {
      LegalPrefix(env, start, trace[..|trace| - 1], n);
      assert trace[..|trace| - 1][..n] == trace[..n];
    } else {
      assert trace[..n] == trace;
    }
  }

  /** At every point the request is the automaton's, and the answer moves it on. */
  lemma {:induction false} LegalAt(env: Env, start: Pc, trace: seq<Io>, i: nat)
    requires Legal(env, start, trace) && i < |trace|
    ensures var pc := End(env, start, trace[..i]);
            !pc.Done? && trace[i].request == RequestOf(pc) &&
              End(env, start, trace[..i + 1]) == Resume(env, pc, trace[i].response)
  {
    LegalPrefix(env, start, trace, i + 1);
    assert trace[..i + 1][..i] == trace[..i];
    hide Resume, RequestOf;
  }

  lemma {:induction false} CallsAfterWrites(env: Env, pc: Pc, r: Response)
    ensures Resume(env, pc, r).Calling? || Resume(env, pc, r).DirectCalling? ==> pc.Writing? && r.Written?
    ensures pc.Calling? || pc.DirectCalling? ==> Resume(env, pc, r).Writing? && Resume(env, pc, r).next == Stop
    ensures pc.Writing? && pc.next == Stop ==> Resume(env, pc, r).Done?
  {
    hide PlanFor, ApproverSha, Latest, DraftOf, Decision.AfterReceipt, ContentOf, Out;
  }

  /** In one reconcile, the exchange right before a call of the tool server is a
      guarded status write that the API server accepted, and after the call there
      is at most the one write that records it: a reconcile calls at most once, and
      what it calls is the approved payload or the proposal it decided. */
  lemma {:induction false} OneCallPerReconcile(env: Env, base: nat, o: Object, trace: seq<Io>, i: nat)
    requires Legal(env, Fetched(base, o), trace) && i < |trace| && trace[i].request.CallRequest?
    ensures i > 0 && trace[i - 1].request.WriteRequest? && trace[i - 1].response.Written?
    ensures |trace| <= i + 2 && (|trace| == i + 2 ==> trace[i + 1].request.WriteRequest?)
    ensures match End(env, Fetched(base, o), trace[..i])
            case Calling(_, _, h, _) => trace[i].request.payload == h.payload
            case DirectCalling(_, _, d) =>
              trace[i].request.payload == Payload(d.proposal.action, d.proposal.params, d.proposal.confidenceText)
            case _ => false
  {
    var start := Fetched(base, o);
    hide Resume, Legal, Out;
    assert trace[..0] == [];
    LegalAt(env, start, trace, i);
    if i > 0 {
      LegalAt(env, start, trace, i - 1);
      CallsAfterWrites(env, End(env, start, trace[..i - 1]), trace[i - 1].response);
    }
    CallsAfterWrites(env, End(env, start, trace[..i]), trace[i].response);
    if |trace| > i + 1 {
      LegalAt(env, start, trace, i + 1);
      CallsAfterWrites(env, End(env, start, trace[..i + 1]), trace[i + 1].response);
      if |trace| > i + 2 {
        LegalAt(env, start, trace, i + 2);
      }
    }
  }

  /** The API server, the receipt writer, the tool server and the checks before
      the action path, as an arbitrary list of answers. */
  class World {
    const script: nat -> Response
    var asked: nat
    ghost var trace: seq<Io>

    constructor (script: nat -> Response)
      ensures this.script == script && asked == 0 && trace == []
    {
      this.script, asked, trace := script, 0, [];
    }

    method Ask(request: Request) returns (response: Response)
      modifies this
      ensures trace == old(trace) + [Io(request, response)]
    {
      response := script(asked);
      asked := asked + 1;
      trace := trace + [Io(request, response)];
    }
  }

  // --------------------------------------------------- layers and receipts

  /** observe.Observe and observe.Declared. */
  method Observe(env: Env, s: Spec, payload: DataClass.Value) returns (input: Invariants.Input)
    ensures input == InputOf(env, s, payload)
  {
    var classes, complete := DataClass.Scan(env.detector, payload);
    var declared := if s.intent.Some? then s.intent.value else Invariants.Declared("", "", [], []);
    input := Invariants.Input(declared, Invariants.Observed(env.folding.host(Endpoint(s)), classes, !complete));
  }

  /** evaluateLayers. */
  method EvaluateLayers(env: Env, s: Spec, past: History, t: Target, claims: Claims, noise: Noise)
    returns (input: Invariants.Input, l: Decision.Layers)
    ensures input == InputOf(env, s, t.payload) && l == Evaluate(env, s, past, t, claims, noise)
  {
    hide Invariants.Violations, Invariants.Satisfies;
    input := Observe(env, s, t.payload);
    var (allowed, why) := env.threshold(ModeOf(s), t.name, claims.confidence, claims.health);
    l := Decision.Layers([], None, [], [], allowed, why);
    var found := Invariants.Check(env.folding, input, ReceiptContext(env, noise));
    for i := 0 to |found|
      invariant l == Decision.Layers(Texts(env, found[..i]), None, [], [], allowed, why)
    {
      assert Texts(env, found[..i + 1]) == Texts(env, found[..i]) + [env.findingText(found[i])];
      l := l.(invariants := l.invariants + [env.findingText(found[i])]);
    }
    assert found[..|found|] == found;
    if |s.packs| > 0 {
      var verdict := env.packs(s.packs, DocumentOf(input, t, past, claims), noise.n);
      l := l.(packErr := verdict.err, packDeny := verdict.deny, packApproval := verdict.approval);
    }
  }

  lemma {:induction false} OnlyReceiptsAdded(env: Env, input: Invariants.Input)
    ensures Invariants.Receipts in
            Invariants.Violations(env.folding, input, Invariants.Context(true, false), Invariants.ALL)
  {
    Invariants.LosingTheWriterOnlyAdds(env.folding, input, Invariants.Context(true, false), Invariants.Receipts);
    hide Invariants.Violations;
  }

  /** recordDecision: write the row, and fail closed when it must be there and is not. */
  method RecordDecision(env: Env, w: World, entry: Entry, input: Invariants.Input, layers: Decision.Layers,
                        result: Decision.Result)
    returns (final: Decision.Result, r: Response)
    modifies w
    ensures env.receiptsEnabled ==> w.trace == old(w.trace) + [Io(AppendRequest(entry), r)]
    ensures !env.receiptsEnabled ==> w.trace == old(w.trace) && r == NotStored
    ensures final == Decision.AfterReceipt(env.receiptsEnabled, env.receiptsRequired, r.Stored?,
                                           env.findingText(Invariants.Receipts), layers, result)
  {
    if !env.receiptsEnabled {
      return result, NotStored;
    }
    r := w.Ask(AppendRequest(entry));
    if r.Stored? || !env.receiptsRequired {
      return result, r;
    }
    var text := env.findingText(Invariants.Receipts);
    var found := Invariants.Check(env.folding, input, Invariants.Context(true, false));
    OnlyReceiptsAdded(env, input);
    hide Invariants.Violations, Invariants.Satisfies, Decision.Decide;
    var l := layers;
    for i := 0 to |found|
      invariant l == if Invariants.Receipts in found[..i] && text !in layers.invariants
                then layers.(invariants := layers.invariants + [text]) else layers
    {
      assert found[..i + 1] == found[..i] + [found[i]];
      if found[i] == Invariants.Receipts && text !in l.invariants {
        l := l.(invariants := l.invariants + [text]);
      }
    }
    assert found[..|found|] == found;
    final := Decision.Decide(l);
  }

  // ------------------------------------------------------- the local copy

  /** The reconciler's copy of the workload. `base` is its resourceVersion. */
  class Copy {
    const uid: string
    const ann: Approval.Annotations
    const spec: Spec
    var base: nat
    var phase: string
    var pending: Option<PendingApproval>
    var last: Option<ApprovalOutcome>
    var consumed: seq<string>
    var executed: seq<Action>
    var proposed: seq<Action>
    var note: Option<Note>
    var other: string

    function Contents(): Object
      reads this
    {
      Object(uid, ann, spec, phase, pending, last, consumed, executed, proposed, note, other)
    }

    constructor (base: nat, o: Object)
      ensures Contents() == o && this.base == base
    {
      uid, ann, spec, this.base, phase, pending := o.uid, o.ann, o.spec, base, o.phase, o.pending;
      last, consumed, executed, proposed, note, other := o.last, o.consumed, o.executed, o.proposed, o.note, o.other;
    }

    /** r.Status().Update: a write guarded by the version this copy is based on. */
    method StatusUpdate(w: World) returns (r: Response)
      modifies w, `base
      ensures w.trace == old(w.trace) + [Io(WriteRequest(old(base), Contents()), r)]
      ensures base == if r.Written? then r.version else old(base)
      ensures Contents() == old(Contents())
    {
      r := w.Ask(WriteRequest(base, Contents()));
      if r.Written? {
        base := r.version;
      }
    }

    /** approvalConsumed. */
    method ApprovalConsumed(id: string) returns (found: bool)
      ensures found <==> Consumed(last, consumed, id)
      ensures found <==> (last.Some? && last.value.id == id) || id in consumed
    {
      if last.Some? && last.value.id == id {
        return true;
      }
      for i := 0 to |consumed|
        invariant id !in consumed[..i]
      {
        if consumed[i] == id {
          return true;
        }
      }
      assert consumed[..|consumed|] == consumed;
      return false;
    }

    /** holdApproval, after the state was reset or not. */
    method HoldApproval(env: Env, w: World, n: Note, ghost start: Pc, ghost o: Object, ghost k: Kind)
      requires pending.Some? && (k == Hold(n) || k == Release(n))
      requires Contents() == if k.Release? then SetState(o, Idle, "") else o
      requires At(env, start, w.trace, HoldFrom(base, o, k))
      modifies this, w
      ensures At(env, start, w.trace, Done)
    {
      if note == Some(n) && pending.value.state == Idle {
        return;
      }
      note := Some(n);
      assert Contents() == Out(o, k);
      ghost var before := w.trace;
      ghost var at := Writing(base, o, k, Stop);
      hide At;
      var r := StatusUpdate(w);
      OneStep(env, start, before, at, Io(RequestOf(at), r));
    }

    /** finishApproval, after the action lists were updated. */
    method FinishApproval(env: Env, w: World, verdict: string, outcome: string, sha: string, receiptSeq: nat,
                          newPhase: string, reason: string, ghost start: Pc, ghost o: Object)
      requires pending.Some? && Contents() == o.(executed := executed, proposed := proposed, other := other)
      requires At(env, start, w.trace,
                  Writing(base, o, FinishWith(pending.value.content.id, verdict, outcome, sha, receiptSeq, newPhase,
                                              executed, proposed, reason, other), Stop))
      modifies this, w
      ensures At(env, start, w.trace, Done)
    {
      hide At;
      ghost var at :=
        Writing(base, o, FinishWith(pending.value.content.id, verdict, outcome, sha, receiptSeq, newPhase, executed,
                                    proposed, reason, other), Stop);
      var id := pending.value.content.id;
      last := Some(ApprovalOutcome(id, verdict, outcome, sha, receiptSeq));
      var ids := consumed + [id];
      if |ids| > MAX_CONSUMED {
        ids := ids[|ids| - MAX_CONSUMED..];
      }
      consumed := ids;
      pending := None;
      phase := newPhase;
      note := Some(Note(reason, Ended(outcome)));
      assert Contents() == Out(o, at.kind);
      ghost var before := w.trace;
      var r := StatusUpdate(w);
      OneStep(env, start, before, at, Io(RequestOf(at), r));
    }

    /** A write of the current contents over o, as the automaton makes it. */
    method Put(env: Env, w: World, ghost start: Pc, ghost o: Object, ghost k: Kind, ghost n: Next) returns (r: Response)
      requires Contents() == Out(o, k) && At(env, start, w.trace, Writing(base, o, k, n))
      modifies `base, w
      ensures Contents() == old(Contents())
      ensures if r.Written? then base == r.version && At(env, start, w.trace, AfterWrite(env, base, Contents(), n))
              else At(env, start, w.trace, Done)
    {
      hide At;
      ghost var before, at := w.trace, Writing(base, o, k, n);
      r := StatusUpdate(w);
      OneStep(env, start, before, at, Io(RequestOf(at), r));
      WriteResumes(env, at, r);
    }

    /** The last part of reconcileApproval: reject, deny or execute. */
    method Conclude(env: Env, w: World, h: Handled, receiptSeq: nat, input: Invariants.Input, layers: Decision.Layers,
                    ghost start: Pc, ghost o: Object)
      requires pending.Some? && pending.value.content == h.content && Contents() == o.(other := other)
      requires At(env, start, w.trace, AfterHumanReceipt(env, base, o, h, receiptSeq, other))
      modifies this, w
      ensures At(env, start, w.trace, Done)
    {
      hide At;
      var sha := Crypto.Sha256Hex(env.hashes, h.decision.approverRaw);
      var verdict := h.decision.verdict;
      assert Contents() == o.(executed := executed, proposed := proposed, other := other);
      if verdict == Approval.REJECT {
        FinishApproval(env, w, verdict, "rejected", sha, receiptSeq, REJECTED, "Rejected", start, o);
      } else if h.blocked {
        ghost var before, at := w.trace, DenyReceipt(base, o, h, receiptSeq, other);
        var final, r := RecordDecision(env, w, DecisionEntry(Decision.Deny, h.payload), input, layers,
                                       Decision.Decide(layers));
        if env.receiptsEnabled {
          OneStep(env, start, before, at, Io(RequestOf(at), r));
        }
        FinishApproval(env, w, verdict, "denied", sha, receiptSeq, POLICY_DENIED, "HumanDecisionBlocked", start, o);
      } else {
        pending := Some(pending.value.(state := Executing));
        assert Contents() == Out(o, Execute(other));
        hide AfterHumanReceipt;
        var r := Put(env, w, start, o, Execute(other), ToCall(h, receiptSeq));
        if !r.Written? {
          return;
        }
        Run(env, w, h, receiptSeq, sha, start);
      }
    }

    /** The call of the tool server after the Executing write. */
    method Run(env: Env, w: World, h: Handled, receiptSeq: nat, sha: string, ghost start: Pc)
      requires pending.Some? && pending.value.content == h.content && sha == ApproverSha(env, h)
      requires At(env, start, w.trace, Calling(base, Contents(), h, receiptSeq))
      modifies this, w
      ensures At(env, start, w.trace, Done)
    {
      hide At;
      ghost var o, before, at := Contents(), w.trace, Calling(base, Contents(), h, receiptSeq);
      var r := w.Ask(CallRequest(h.payload));
      OneStep(env, start, before, at, Io(RequestOf(at), r));
      var action := Action(h.target.name, h.target.description, h.content.confidence, r.Returned? && r.ok);
      if !action.approved {
        proposed := Latest(proposed + [action], MAX_ACTIONS);
        assert Contents() == o.(executed := executed, proposed := proposed, other := other);
        FinishApproval(env, w, h.decision.verdict, "failed", sha, receiptSeq, FAILED, "ExecutionFailed", start, o);
        return;
      }
      executed := Latest(executed + [action], MAX_ACTIONS);
      assert Contents() == o.(executed := executed, proposed := proposed, other := other);
      FinishApproval(env, w, h.decision.verdict, "executed", sha, receiptSeq, COMPLETED, "Executed", start, o);
    }

    /** storeExample: build the example and offer it to the dataset. A failure
        changes a condition and nothing else. */
    method StoreExample(env: Env, w: World, h: Handled, receiptSeq: nat, ghost start: Pc)
      requires At(env, start, w.trace,
                  if env.capturing then StoringExample(base, Contents(), h, receiptSeq)
                  else AfterHumanReceipt(env, base, Contents(), h, receiptSeq, other))
      modifies `other, w
      ensures Contents() == old(Contents()).(other := other)
      ensures At(env, start, w.trace, AfterHumanReceipt(env, base, old(Contents()), h, receiptSeq, other))
    {
      hide At, AfterHumanReceipt;
      if !env.capturing {
        return;
      }
      ghost var before, at := w.trace, StoringExample(base, Contents(), h, receiptSeq);
      var r := w.Ask(ExampleRequest(h, receiptSeq));
      OneStep(env, start, before, at, Io(RequestOf(at), r));
      if !r.Kept? {
        other := other + "; example not stored";
      }
    }

    /** The middle of reconcileApproval: persist the intent, write the human
        receipt, offer the example, then act. */
    method ActOn(env: Env, w: World, h: Handled, input: Invariants.Input, layers: Decision.Layers, ghost start: Pc)
      requires pending.Some? && pending.value.content == h.content
      requires At(env, start, w.trace, Writing(base, Contents(), Record(h.decision.verdict), ToReceipt(h)))
      modifies this, w
      ensures At(env, start, w.trace, Done)
    {
      hide At, AfterHumanReceipt;
      ghost var o := Contents();
      pending := Some(pending.value.(state := Recording, decision := h.decision.verdict));
      assert Contents() == Out(o, Record(h.decision.verdict));
      var r := Put(env, w, start, o, Record(h.decision.verdict), ToReceipt(h));
      if !r.Written? {
        return;
      }
      ghost var held := Contents();
      var receiptSeq := 0;
      if env.receiptsEnabled {
        ghost var before, at := w.trace, HumanReceipt(base, held, h);
        r := w.Ask(AppendRequest(HumanEntry(HumanOutcome(h.decision.verdict), h.content.id, h.payload)));
        OneStep(env, start, before, at, Io(RequestOf(at), r));
        if !r.Stored? && env.receiptsRequired {
          pending := Some(pending.value.(state := Idle, decision := ""));
          assert Contents() == SetState(held, Idle, "");
          HoldApproval(env, w, RECEIPT_FAILED, start, held, Release(RECEIPT_FAILED));
          return;
        }
        if r.Stored? {
          receiptSeq := r.seqNo;
          StoreExample(env, w, h, receiptSeq, start);
        }
      }
      Conclude(env, w, h, receiptSeq, input, layers, start, held);
    }

    /** reconcileApproval. */
    method ReconcileApproval(env: Env, w: World, noise: Noise, ghost start: Pc)
      requires phase == PENDING_APPROVAL && pending.Some?
      requires At(env, start, w.trace, AfterGate(env, base, Contents(), noise))
      modifies this, w
      ensures At(env, start, w.trace, Done)
    {
      hide At, Approval.Read, BlockedBy;
      var c := pending.value.content;
      var replay := ApprovalConsumed(c.id);
      if replay {
        var n := Note("ApprovalReplay", AlreadyDecided(c.id));
        HoldApproval(env, w, n, start, Contents(), Hold(n));
        return;
      }
      if pending.value.state == Executing {
        FinishApproval(env, w, pending.value.decision, "unknown", "", 0, FAILED, "ExecutionOutcomeUnknown", start,
                       Contents());
        return;
      }
      var read := Approval.Read(env.codec, env.hashes, ann, RefOf(env.hashes, uid, c), env.key);
      if read.Err? {
        var n := Note(ReadReason(read.error), NotActing(read.error));
        HoldApproval(env, w, n, start, Contents(), Hold(n));
        return;
      }
      if read.value.None? {
        return;
      }
      var d := read.value.value;
      var proposal := env.parseProposal(c.proposal);
      if proposal.None? {
        var n := Note("PendingActionUnreadable", UnreadableProposal);
        HoldApproval(env, w, n, start, Contents(), Hold(n));
        return;
      }
      var t := TargetOf(d, c, proposal.value);
      var input := Observe(env, spec, t.payload);
      var layers := Decision.Layers([], None, [], [], true, []);
      var blocked := false;
      if d.verdict != Approval.REJECT {
        input, layers := EvaluateLayers(env, spec, HistoryOf(executed, proposed), t, ClaimsOf(env, c), noise);
        blocked := Decision.HumanBlocked(layers);
        assert blocked == BlockedBy(env, spec, HistoryOf(executed, proposed), t, c, noise) by {
          BlockedMeans(env, spec, HistoryOf(executed, proposed), t, c, noise);
        }
      }
      var h := Handled(c, d, t, PayloadOf(t, c), noise, blocked);
      ActOn(env, w, h, input, layers, start);
    }

    /** reserveExecution. */
    method ReserveExecution(env: Env, w: World, d: Draft, ghost start: Pc) returns (r: Response)
      requires At(env, start, w.trace, Writing(base, Contents(), Reserve("reserved " + d.id), ToDirectCall(d)))
      modifies this, w
      ensures Contents() == Out(old(Contents()), Reserve("reserved " + d.id))
      ensures if r.Written? then At(env, start, w.trace, DirectCalling(base, Contents(), d))
              else At(env, start, w.trace, Done)
    {
      ghost var o := Contents();
      other := "reserved " + d.id;
      hide At;
      r := Put(env, w, start, o, Reserve("reserved " + d.id), ToDirectCall(d));
    }

    /** The direct action path of Reconcile, from its first tool call on. */
    method ReconcileDirect(env: Env, w: World, noise: Noise, ghost start: Pc)
      requires At(env, start, w.trace, Asking(base, Contents(), noise))
      modifies this, w
      ensures At(env, start, w.trace, Done)
    {
      hide At, AfterDecision, Evaluate, Judge, Decision.AfterReceipt;
      ghost var o, before, at := Contents(), w.trace, Asking(base, Contents(), noise);
      var r := w.Ask(AskRequest(Contents()));
      OneStep(env, start, before, at, Io(RequestOf(at), r));
      if !(r.Answered? && r.answer.Proposed?) {
        phase := FAILED;
        assert Contents() == Out(o, Block(FAILED, o.other));
        r := Put(env, w, start, o, Block(FAILED, o.other), Stop);
        return;
      }
      var p := r.answer.proposal;
      var past := HistoryOf(executed, proposed);
      var input, layers := EvaluateLayers(env, spec, past, DraftTarget(p), DraftClaims(p), noise);
      var judged := Judge(env, spec, past, DraftTarget(p), DraftClaims(p), layers);
      var d := Draft(base, p, r.answer.id, noise, layers, judged);
      assert d == DraftOf(env, base, spec, past, p, d.id, noise);
      ghost var recording := w.trace;
      var final, stored := RecordDecision(env, w, DecisionEntry(judged.outcome, DraftPayload(p)), input, layers,
                                          judged);
      if env.receiptsEnabled {
        at := DecisionReceipt(base, o, d);
        OneStep(env, start, recording, at, Io(RequestOf(at), stored));
      }
      Settle(env, w, d, final, stored.Stored?, if stored.Stored? then stored.seqNo else 0, start);
    }

    /** What the direct path does with its decision: reserve and execute, or hold
        the action, or deny it. */
    method Settle(env: Env, w: World, d: Draft, final: Decision.Result, appended: bool, receiptSeq: nat,
                  ghost start: Pc)
      requires At(env, start, w.trace, AfterDecision(env, base, Contents(), d, appended, receiptSeq))
      requires final == Decision.AfterReceipt(env.receiptsEnabled, env.receiptsRequired, appended,
                                              env.findingText(Invariants.Receipts), d.layers, d.judged)
      modifies this, w
      ensures At(env, start, w.trace, Done)
    {
      hide At, Decision.AfterReceipt, Latest;
      ghost var o := Contents();
      if final.outcome == Decision.Allow {
        var r := ReserveExecution(env, w, d, start);
        if !r.Written? {
          return;
        }
        ExecuteDirectly(env, w, d, start);
        return;
      }
      proposed := Latest(proposed + [Action(d.proposal.action, d.proposal.description, d.proposal.confidenceText,
                                            false)], MAX_ACTIONS);
      if final.outcome == Decision.RequireApproval {
        phase := PENDING_APPROVAL;
      } else if spec.opaPolicy == Some(STRICT) {
        phase := POLICY_DENIED;
      } else {
        phase := PENDING_APPROVAL;
      }
      pending := None;
      if phase == PENDING_APPROVAL {
        var c := ContentOf(d, receiptSeq);
        if c.Some? {
          pending := Some(PendingApproval(c.value, Idle, ""));
        }
      }
      ghost var k := Final(phase, pending, executed, proposed);
      assert Contents() == Out(o, k);
      var r := Put(env, w, start, o, k, Stop);
    }

    method ExecuteDirectly(env: Env, w: World, d: Draft, ghost start: Pc)
      requires At(env, start, w.trace, DirectCalling(base, Contents(), d))
      modifies this, w
      ensures At(env, start, w.trace, Done)
    {
      hide At, Latest;
      ghost var o, before, at := Contents(), w.trace, DirectCalling(base, Contents(), d);
      var r := w.Ask(CallRequest(DraftPayload(d.proposal)));
      OneStep(env, start, before, at, Io(RequestOf(at), r));
      var ok := r.Returned? && r.ok;
      var action := Action(d.proposal.action, d.proposal.description, d.proposal.confidenceText, ok);
      if !ok {
        phase := FAILED;
        proposed := Latest(proposed + [action], MAX_ACTIONS);
      } else {
        executed := Latest(executed + [action], MAX_ACTIONS);
        phase := COMPLETED;
      }
      pending := None;
      assert Contents() == Out(o, AfterDirectCall(o, d, ok));
      r := Put(env, w, start, o, AfterDirectCall(o, d, ok), Stop);
    }

    /** Reconcile once the checks before the action path have passed. */
    method Reconcile(env: Env, w: World, noise: Noise, ghost start: Pc)
      requires At(env, start, w.trace, AfterGate(env, base, Contents(), noise))
      modifies this, w
      ensures At(env, start, w.trace, Done)
    {
      hide At, PlanFor;
      if phase == REJECTED {
        return;
      }
      if phase == PENDING_APPROVAL && pending.Some? {
        ReconcileApproval(env, w, noise, start);
        return;
      }
      ReconcileDirect(env, w, noise, start);
    }
  }

  lemma {:induction false} BlockedMeans(env: Env, s: Spec, past: History, t: Target, c: Content, noise: Noise)
    ensures BlockedBy(env, s, past, t, c, noise) <==>
            Decision.HumanBlocked(Evaluate(env, s, past, t, ClaimsOf(env, c), noise))
  {
    hide Evaluate;
  }

  lemma {:induction false} WriteResumes(env: Env, at: Pc, r: Response)
    requires at.Writing?
    ensures Resume(env, at, r) == if r.Written? then AfterWrite(env, r.version, Out(at.o, at.kind), at.next) else Done
  {
    hide AfterWrite, Out;
  }
}
