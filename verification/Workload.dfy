/** The AgentWorkload object: api/v1alpha1/agentworkload_types.go. */
module Workload {
  import opened Text
  import opened Crypto
  import Approval
  import Invariants

  const PENDING_APPROVAL := "PendingApproval"
  const REJECTED := "Rejected"
  const POLICY_DENIED := "PolicyDenied"
  const FAILED := "Failed"
  const COMPLETED := "Completed"

  const STRICT := "strict"

  datatype ModelSpec = ModelSpec(mode: string, thresholdMicro: Option<int>)

  /** `rest` stands for the fields no decision reads. */
  datatype Spec = Spec(
    intent: Option<Invariants.Declared>, packs: seq<string>, opaPolicy: Option<string>, model: Option<ModelSpec>,
    capture: Option<string>, endpoint: Option<string>, workloadType: Option<string>, rest: string)

  /** The fields that shape the decision on a held action. */
  datatype Frozen = Frozen(
    intent: Option<Invariants.Declared>, packs: seq<string>, opaPolicy: Option<string>, model: Option<ModelSpec>,
    capture: Option<string>, endpoint: Option<string>)

  function FrozenOf(s: Spec): Frozen {
    Frozen(s.intent, s.packs, s.opaPolicy, s.model, s.capture, s.endpoint)
  }

  datatype Action = Action(name: string, description: string, confidence: string, approved: bool)

  /** status.pendingApproval without its state and decision. */
  datatype Content = Content(
    id: string, action: string, description: string, confidence: string, clusterHealth: string, claimedHealth: string,
    proposal: string, record: string, receiptSeq: nat)

  datatype Progress = Idle | Recording | Executing

  datatype PendingApproval = PendingApproval(content: Content, state: Progress, decision: string)

  datatype ApprovalOutcome = ApprovalOutcome(id: string, decision: string, outcome: string, approverSha: string,
                                             receiptSeq: nat)

  /** What the ApprovalDecision condition says. */
  datatype Message =
    | AlreadyDecided(id: string)
    | NotActing(error: Approval.Error)
    | UnreadableProposal
    | ReceiptNotWritten
    | Ended(text: string)

  datatype Note = Note(reason: string, message: Message)

  /** One stored version. `other` stands for the rest of the status: other
      conditions, timestamps, counters and the orchestration fields. */
  datatype Object = Object(
    uid: string, ann: Approval.Annotations, spec: Spec, phase: string, pending: Option<PendingApproval>,
    last: Option<ApprovalOutcome>, consumed: seq<string>, executed: seq<Action>, proposed: seq<Action>,
    note: Option<Note>, other: string)

  /** approvalConsumed. */
  predicate Consumed(last: Option<ApprovalOutcome>, consumed: seq<string>, id: string) {
    (last.Some? && last.value.id == id) || id in consumed
  }

  const MAX_CONSUMED: nat := 32
  const MAX_ACTIONS: nat := 100

  /** The last n elements, or all. */
  function Latest<T>(s: seq<T>, n: nat): (r: seq<T>)
    ensures |s| <= n ==> r == s
  {
    if |s| <= n then s else s[|s| - n..]
  }

  /** Keeping the latest n of a list that was already cut to its latest n loses
      nothing: cutting at every append is cutting once at the end. */
  lemma {:induction false} LatestOfLatest<T>(s: seq<T>, x: T, n: nat)
    requires n > 0
    ensures Latest(Latest(s, n) + [x], n) == Latest(s + [x], n)
  {
  }

  /** observe.History. */
  datatype History = History(total: nat, denied: nat)

  function Denied(proposed: seq<Action>): nat {
    if proposed == [] then 0
    else Denied(proposed[..|proposed| - 1]) + if proposed[|proposed| - 1].approved then 0 else 1
  }

  function HistoryOf(executed: seq<Action>, proposed: seq<Action>): History {
    History(|executed| + |proposed|, Denied(proposed))
  }

  /** pendingRef. */
  function RefOf(h: Hashes, uid: string, c: Content): Approval.Pending {
    Approval.Pending(c.id, uid, Approval.PendingSha(h, c.proposal))
  }
}

/** The admission webhook: api/v1alpha1/agentworkload_admission.go and
    api/v1alpha1/agentworkload_webhook.go.
  */
module Webhook {
  import opened Text
  import opened Crypto
  import opened Workload
  import Approval

  /** Default on the spec. */
  function DefaultSpec(s: Spec): Spec {
    s.(opaPolicy := if s.opaPolicy.None? then Some(STRICT) else s.opaPolicy)
  }

  /** The pending reference Default hands to Admit: only in the pending phase. */
  function AdmissionRef(h: Hashes, o: Object): Approval.Pending {
    if o.pending.Some? && o.phase == PENDING_APPROVAL then RefOf(h, o.uid, o.pending.value.content)
    else Approval.Pending("", "", "")
  }

  /** validateApprovalFreeze guards this stored object. */
  predicate FreezeApplies(o: Object) {
    o.pending.Some? && (o.phase == PENDING_APPROVAL || o.pending.value.state != Idle)
  }

  predicate FreezeAllows(o: Object, s: Spec) {
    FreezeApplies(o) ==>
      o.spec.intent == s.intent && o.spec.packs == s.packs && o.spec.opaPolicy == s.opaPolicy &&
        o.spec.model == s.model && o.spec.capture == s.capture
  }

  /** validateApprovalFreeze: the names of the frozen fields that change. */
  method ValidateApprovalFreeze(o: Object, s: Spec) returns (changed: seq<string>)
    ensures changed == [] <==> FreezeAllows(o, s)
    ensures FreezeApplies(o) ==>
              && ("declaredIntent" in changed <==> o.spec.intent != s.intent)
              && ("policyPacks" in changed <==> o.spec.packs != s.packs)
              && ("opaPolicy" in changed <==> o.spec.opaPolicy != s.opaPolicy)
              && ("decisionModel" in changed <==> o.spec.model != s.model)
              && ("approvalCapture" in changed <==> o.spec.capture != s.capture)
  {
    changed := [];
    if o.pending.None? || (o.phase != PENDING_APPROVAL && o.pending.value.state == Idle) {
      return;
    }
    if o.spec.intent != s.intent {
      changed := changed + ["declaredIntent"];
    }
    if o.spec.packs != s.packs {
      changed := changed + ["policyPacks"];
    }
    if o.spec.opaPolicy != s.opaPolicy {
      changed := changed + ["opaPolicy"];
    }
    if o.spec.model != s.model {
      changed := changed + ["decisionModel"];
    }
    if o.spec.capture != s.capture {
      changed := changed + ["approvalCapture"];
    }
  }

  /** ValidateUpdate, with the field checks of validate as a parameter. */
  predicate ValidateUpdate(valid: Spec -> bool, o: Object, s: Spec) {
    valid(s) && s.workloadType == o.spec.workloadType && s.endpoint == o.spec.endpoint && FreezeAllows(o, s)
  }

  /** An admitted update while an action is held, or is being acted on in any
      phase, keeps every frozen field and the endpoint. */
  lemma {:induction false} HeldSpecIsFrozen(valid: Spec -> bool, o: Object, s: Spec)
    requires FreezeApplies(o) && ValidateUpdate(valid, o, s)
    ensures FrozenOf(s) == FrozenOf(o.spec)
  {
  }

  /** Defaulting runs before validation. So, of these handlers alone, an update
      of a held object that changes nothing passes exactly when the object has a
      policy mode: without one, defaulting is itself a change of a frozen field.
      The API server fills the mode from the schema's default before it calls
      them, which is what keeps the second case from arising. */
  lemma {:induction false} NoOpUpdatePassesIff(valid: Spec -> bool, o: Object)
    requires FreezeApplies(o) && valid(DefaultSpec(o.spec))
    ensures ValidateUpdate(valid, o, DefaultSpec(o.spec)) <==> o.spec.opaPolicy.Some?
  {
  }

  /** A client's request: what it wants the annotations and the spec to be. */
  datatype Request = Request(ann: Approval.Annotations, spec: Spec, username: string, groups: multiset<string>)

  /** The object an admitted update stores: status and uid cannot change. */
  function Admitted(c: Approval.Codec, h: Hashes, key: string, valid: Spec -> bool, o: Object,
                    r: Request): Option<Object> {
    match Approval.Admitted(c, h, o.ann, r.ann, AdmissionRef(h, o), r.username, r.groups, key)
    case Err(_) => None
    case Ok(ann) =>
      if ValidateUpdate(valid, o, DefaultSpec(r.spec)) then Some(o.(ann := ann, spec := DefaultSpec(r.spec))) else None
  }

  // ---------------------------------------------------- the handlers in place

  /** The object in an admission request, changed in place. */
  class Incoming {
    const ann: Approval.AnnotationMap
    var spec: Spec

    constructor (ann: Approval.AnnotationMap, spec: Spec)
      ensures this.ann == ann && this.spec == spec
    {
      this.ann, this.spec := ann, spec;
    }

    /** workloadAdmission.Default. `stored` is the old object of an update. */
    method Default(c: Approval.Codec, h: Hashes, key: string, stored: Option<Object>, username: string,
                   groups: multiset<string>)
      returns (err: Option<Approval.Error>)
      modifies this, ann
      ensures spec == DefaultSpec(old(spec))
      ensures var prev := if stored.Some? then stored.value.ann else map[];
              var p := if stored.Some? then AdmissionRef(h, stored.value) else Approval.Pending("", "", "");
              match Approval.Admitted(c, h, prev, old(ann.m), p, username, groups, key)
              case Ok(out) => err.None? && ann.m == out
              case Err(e) => err == Some(e) && ann.m == old(ann.m)
    {
      hide Approval.Admitted;
      if spec.opaPolicy.None? {
        spec := spec.(opaPolicy := Some(STRICT));
      }
      var prev: Approval.Annotations := map[];
      var p := Approval.Pending("", "", "");
      if stored.Some? {
        prev := stored.value.ann;
        if stored.value.pending.Some? && stored.value.phase == PENDING_APPROVAL {
          p := RefOf(h, stored.value.uid, stored.value.pending.value.content);
        }
      }
      err := Approval.Admit(c, h, prev, ann, p, username, groups, key);
    }
  }

  datatype Refusal = BadSpec | TypeChanged | EndpointChanged | FrozenChanged(fields: seq<string>)

  /** ValidateUpdate, check by check. */
  method Validate(valid: Spec -> bool, o: Object, s: Spec) returns (r: Option<Refusal>)
    ensures r.None? <==> ValidateUpdate(valid, o, s)
    ensures r == Some(EndpointChanged) ==> s.endpoint != o.spec.endpoint
    ensures r.Some? && r.value.FrozenChanged? ==>
            FreezeApplies(o) && r.value.fields != [] && FrozenOf(s) != FrozenOf(o.spec)
  {
    if !valid(s) {
      return Some(BadSpec);
    }
    if s.workloadType != o.spec.workloadType {
      return Some(TypeChanged);
    }
    if s.endpoint != o.spec.endpoint {
      return Some(EndpointChanged);
    }
    var changed := ValidateApprovalFreeze(o, s);
    if |changed| > 0 {
      return Some(FrozenChanged(changed));
    }
    return None;
  }
}
