/** The configuration of one operator, and the layers it runs on an action:
    internal/controller/approvals.go, receipts.go and decision_model.go.
  */
module Governance {
  import opened Text
  import opened Crypto
  import opened Workload
  import Approval
  import DataClass
  import Decision
  import Invariants

  /** The action a decision applies to. */
  datatype Target = Target(name: string, description: string, payload: DataClass.Value)

  /** receipts.ExecutionPayload. */
  datatype Payload = Payload(action: string, params: DataClass.Value, confidence: string)

  /** What the agent claims: numbers read from text. */
  datatype Claims = Claims(confidence: real, health: real, claimedHealth: Option<real>)

  /** What changes between two evaluations of one action: whether the receipt
      writer answers, and which of its results the policy engine gives. */
  datatype Noise = Noise(writerReady: bool, n: nat)

  datatype PackVerdict = PackVerdict(err: Option<string>, deny: seq<string>, approval: seq<string>)

  /** The document handed to policy packs and to the decision model. */
  datatype Document = Document(
    input: Invariants.Input, tool: string, history: History, confidence: real, claimedHealth: Option<real>,
    intent: string)

  datatype ModelInput = ModelInput(
    input: Invariants.Input, action: string, history: History, packs: seq<string>, escalatedBy: Option<Decision.Layer>)

  /** One operator; `capturing` says that a dataset is configured. Libraries are
      arbitrary functions. */
  datatype Env = Env(
    codec: Approval.Codec, hashes: Hashes, key: string,
    receiptsEnabled: bool, receiptsRequired: bool, capturing: bool,
    folding: Invariants.Folding, detector: DataClass.Detector,
    findingText: Invariants.Id -> string,
    parseProposal: string -> Option<DataClass.Value>,
    parseReal: string -> Option<real>,
    packs: (seq<string>, Document, nat) -> PackVerdict,
    threshold: (string, string, real, real) -> (bool, seq<string>),
    model: Decision.Config<ModelInput, seq<int>>,
    modelMode: Option<ModelSpec> -> Decision.Mode,
    validSpec: Spec -> bool)

  /** The laws of the approval libraries, and folding keeps the word credential. */
  ghost predicate Lawful(env: Env) {
    && Approval.Lawful(env.codec)
    && env.folding.lower(CREDENTIAL) == CREDENTIAL
  }

  const CREDENTIAL := "credential"

  function ModeOf(s: Spec): string {
    if s.opaPolicy.Some? then s.opaPolicy.value else STRICT
  }

  function Endpoint(s: Spec): string {
    if s.endpoint.Some? then s.endpoint.value else ""
  }

  /** observe.Observe and observe.Declared. */
  function InputOf(env: Env, s: Spec, payload: DataClass.Value): Invariants.Input {
    var scan := DataClass.Walk(env.detector, payload, 0, DataClass.FULL);
    Invariants.Input(
      if s.intent.Some? then s.intent.value else Invariants.Declared("", "", [], []),
      Invariants.Observed(env.folding.host(Endpoint(s)), DataClass.Sorted(scan.classes), scan.truncated))
  }

  /** receiptContext. */
  function ReceiptContext(env: Env, noise: Noise): Invariants.Context {
    if !env.receiptsEnabled then Invariants.Context(false, false)
    else Invariants.Context(env.receiptsRequired, noise.writerReady)
  }

  function Texts(env: Env, ids: seq<Invariants.Id>): (r: seq<string>)
    ensures |r| == |ids|
  {
    seq(|ids|, i requires 0 <= i < |ids| => env.findingText(ids[i]))
  }

  /** engine.Doc. */
  function DocumentOf(input: Invariants.Input, t: Target, past: History, claims: Claims): Document {
    Document(input, t.name, past, claims.confidence, claims.claimedHealth, t.description)
  }

  /** evaluateLayers, next to the threshold result. */
  function Evaluate(env: Env, s: Spec, past: History, t: Target, claims: Claims, noise: Noise): Decision.Layers {
    var input := InputOf(env, s, t.payload);
    var found := Invariants.Violations(env.folding, input, ReceiptContext(env, noise), Invariants.ALL);
    var verdict := if s.packs == [] then PackVerdict(None, [], [])
                   else env.packs(s.packs, DocumentOf(input, t, past, claims), noise.n);
    var (allowed, why) := env.threshold(ModeOf(s), t.name, claims.confidence, claims.health);
    Decision.Layers(Texts(env, found), verdict.err, verdict.deny, verdict.approval, allowed, why)
  }

  /** What the decision model is asked after this decision of the layers. */
  function FeaturesOf(env: Env, s: Spec, past: History, t: Target, claims: Claims, base: Decision.Result)
    : Decision.FeatureInput<ModelInput>
  {
    Decision.FeatureInput(
      Decision.Claimed(Some(claims.confidence), claims.claimedHealth, t.description),
      ModelInput(InputOf(env, s, t.payload), t.name, past, s.packs,
                 if base.outcome == Decision.Allow then None else Some(base.layer)))
  }

  function OverrideOf(s: Spec): Option<int> {
    if s.model.Some? then s.model.value.thresholdMicro else None
  }

  /** Decide and then the decision model, as on the direct path. */
  function Judge(env: Env, s: Spec, past: History, t: Target, claims: Claims, l: Decision.Layers): Decision.Result {
    var base := Decision.Decide(l);
    Decision.ApplyDecisionModel(env.model, env.modelMode(s.model), OverrideOf(s),
                                FeaturesOf(env, s, past, t, claims, base), base).0
  }

  // ------------------------------------------------- what the layers ask for

  /** What a decision is about: the action, and what is known and claimed of it. */
  datatype Facts = Facts(
    tool: string, description: string, payload: DataClass.Value, total: nat, denied: nat, confidence: real,
    health: real, claimedHealth: Option<real>)

  /** i is what the spec declares and what a scan of the payload finds: the host of
      the endpoint, whether the scan was complete, and if so the classes of every
      leaf in ascending order. */
  ghost predicate Observes(env: Env, s: Spec, payload: DataClass.Value, i: Invariants.Input) {
    && i.declared == (match s.intent case Some(d) => d case None => Invariants.Declared("", "", [], []))
    && i.observed.destination == env.folding.host(match s.endpoint case Some(e) => e case None => "")
    && DataClass.Ascending(i.observed.dataClasses)
    && (i.observed.scanIncomplete <==> !DataClass.Fits(DataClass.Visits(payload, 0)))
    && (!i.observed.scanIncomplete ==>
          forall c :: c in i.observed.dataClasses <==> c in DataClass.AllClasses(env.detector, payload))
  }

  /** The answer of the policy engine on f, observed as i. */
  ghost predicate PacksAnswer(env: Env, s: Spec, f: Facts, i: Invariants.Input, n: nat, v: PackVerdict) {
    if s.packs == [] then v == PackVerdict(None, [], [])
    else v == env.packs(s.packs, Document(i, f.tool, History(f.total, f.denied), f.confidence, f.claimedHealth,
                                          f.description), n)
  }

  /** Nothing that a human cannot resolve stands against f: all six invariants hold
      of it, and the packs, answering v, deny nothing and give no error. */
  ghost predicate NothingHard(env: Env, s: Spec, f: Facts, noise: Noise, i: Invariants.Input, v: PackVerdict) {
    && Observes(env, s, f.payload, i) && PacksAnswer(env, s, f, i, noise.n, v)
    && Invariants.Satisfies(env.folding, i, Invariants.Context(env.receiptsEnabled && env.receiptsRequired,
                                                               env.receiptsEnabled && noise.writerReady))
    && v.err.None? && v.deny == []
  }

  ghost predicate ThresholdPasses(env: Env, s: Spec, f: Facts) {
    env.threshold(match s.opaPolicy case Some(mode) => mode case None => STRICT, f.tool, f.confidence, f.health).0
  }

  /** In escalate mode the model escalates f: it cannot be asked, or its risk
      reaches the threshold. */
  ghost predicate ModelEscalates(env: Env, s: Spec, f: Facts, i: Invariants.Input) {
    && env.modelMode(s.model) == Decision.Escalate
    && Decision.Escalates(env.model, match s.model case Some(m) => m.thresholdMicro case None => None,
                          Decision.FeatureInput(Decision.Claimed(Some(f.confidence), f.claimedHealth, f.description),
                                                ModelInput(i, f.tool, History(f.total, f.denied), s.packs, None)))
  }

  /** Nothing at all stands against f: nor does a pack ask for approval, the
      threshold allows it, and the model does not escalate it. */
  ghost predicate Unopposed(env: Env, s: Spec, f: Facts, noise: Noise, i: Invariants.Input, v: PackVerdict) {
    && NothingHard(env, s, f, noise, i, v) && v.approval == [] && ThresholdPasses(env, s, f)
    && !ModelEscalates(env, s, f, i)
  }

  /** The decision on f: allowed when nothing stands against it, denied when
      something hard or the threshold does, and else in need of an approval. */
  ghost predicate DecidedAs(env: Env, s: Spec, f: Facts, noise: Noise, outcome: Decision.Outcome) {
    match outcome
    case Allow => exists i, v :: Unopposed(env, s, f, noise, i, v)
    case Deny => !(exists i, v :: NothingHard(env, s, f, noise, i, v)) || !ThresholdPasses(env, s, f)
    case RequireApproval =>
      && (exists i, v :: NothingHard(env, s, f, noise, i, v)) && ThresholdPasses(env, s, f)
      && !(exists i, v :: Unopposed(env, s, f, noise, i, v))
  }

  /** The actions among these that were not approved. */
  function NotApproved(proposed: seq<Action>): set<nat> {
    set i: nat | i < |proposed| && !proposed[i].approved
  }

  function FactsOf(s: Spec, past: History, t: Target, claims: Claims): Facts {
    Facts(t.name, t.description, t.payload, past.total, past.denied, claims.confidence, claims.health,
          claims.claimedHealth)
  }

  lemma {:induction false} DeniedCounts(proposed: seq<Action>)
    ensures Denied(proposed) == |NotApproved(proposed)|
  {
    if proposed != [] {
      var init, n := proposed[..|proposed| - 1], |proposed| - 1;
      DeniedCounts(init);
      var last: set<nat> := if proposed[n].approved then {} else {n};
      assert NotApproved(proposed) == NotApproved(init) + last;
    }
  }

  lemma {:induction false} InputObserves(env: Env, s: Spec, payload: DataClass.Value)
    ensures Observes(env, s, payload, InputOf(env, s, payload))
  {
    DataClass.ScanIsExact(env.detector, payload);
    hide DataClass.Walk, DataClass.Visits, DataClass.Fits, DataClass.AllClasses;
  }

  lemma {:induction false} AscendingIsUnique(a: seq<string>, b: seq<string>)
    requires DataClass.Ascending(a) && DataClass.Ascending(b) && forall x :: x in a <==> x in b
    ensures a == b
  {
    assert a != [] ==> a[0] in b;
    assert b != [] ==> b[0] in a;
    if a != [] {
      LeastFirst(a, b[0]);
      LeastFirst(b, a[0]);
      if a[0] != b[0] {
        DataClass.BeforeIsStrict(a[0], b[0]);
      }
      TailMembers(a);
      TailMembers(b);
      AscendingIsUnique(a[1..], b[1..]);
      assert a == [a[0]] + a[1..] && b == [b[0]] + b[1..];
    }
  }

  lemma {:induction false} LeastFirst(a: seq<string>, x: string)
    requires DataClass.Ascending(a) && x in a
    ensures x == a[0] || DataClass.Before(a[0], x)
  {
  }

  lemma {:induction false} TailMembers(a: seq<string>)
    requires DataClass.Ascending(a) && a != []
    ensures DataClass.Ascending(a[1..]) && forall x :: x in a[1..] <==> x in a && x != a[0]
  {
    forall x
      ensures x in a[1..] <==> x in a && x != a[0]
    {
      if x in a[1..] {
        var k :| 0 <= k < |a| - 1 && a[1..][k] == x;
        DataClass.BeforeIsStrict(a[0], a[k + 1]);
      }
    }
  }

  /** What is observed in full is observed in one way. */
  lemma {:induction false} ObservedOnce(env: Env, s: Spec, payload: DataClass.Value, i: Invariants.Input)
    requires Observes(env, s, payload, i) && !i.observed.scanIncomplete
    ensures i == InputOf(env, s, payload)
  {
    InputObserves(env, s, payload);
    var k := InputOf(env, s, payload);
    hide InputOf, DataClass.Visits, DataClass.Fits, DataClass.AllClasses, DataClass.Ascending;
    AscendingIsUnique(i.observed.dataClasses, k.observed.dataClasses);
  }

  /** The answer the packs give on this action. */
  function AnswerOf(env: Env, s: Spec, past: History, t: Target, claims: Claims, noise: Noise): PackVerdict {
    if s.packs == [] then PackVerdict(None, [], [])
    else env.packs(s.packs, DocumentOf(InputOf(env, s, t.payload), t, past, claims), noise.n)
  }

  /** Where nothing hard is found, what was observed and answered is what the code
      observes and is answered. */
  lemma {:induction false} HardIsUnique(env: Env, s: Spec, past: History, t: Target, claims: Claims, noise: Noise,
                                        i: Invariants.Input, v: PackVerdict)
    requires NothingHard(env, s, FactsOf(s, past, t, claims), noise, i, v)
    ensures i == InputOf(env, s, t.payload) && v == AnswerOf(env, s, past, t, claims, noise)
  {
    hide Observes, InputOf;
    ObservedOnce(env, s, t.payload, i);
  }

  /** What a human can get past: the layers let an approved action run exactly when
      nothing hard stands against it. */
  lemma {:induction false} HumanPassesIff(env: Env, s: Spec, past: History, t: Target, claims: Claims, noise: Noise)
    ensures !Decision.HumanBlocked(Evaluate(env, s, past, t, claims, noise)) <==>
            NothingHard(env, s, FactsOf(s, past, t, claims), noise, InputOf(env, s, t.payload),
                        AnswerOf(env, s, past, t, claims, noise))
    ensures !Decision.HumanBlocked(Evaluate(env, s, past, t, claims, noise)) <==>
            exists i, v :: NothingHard(env, s, FactsOf(s, past, t, claims), noise, i, v)
  {
    InputObserves(env, s, t.payload);
    InvariantsFoundIff(env, InputOf(env, s, t.payload), noise);
    hide InputOf, Observes, Invariants.Violations, Invariants.Satisfies;
    assert !Decision.HumanBlocked(Evaluate(env, s, past, t, claims, noise)) <==>
           NothingHard(env, s, FactsOf(s, past, t, claims), noise, InputOf(env, s, t.payload),
                       AnswerOf(env, s, past, t, claims, noise));
    hide NothingHard, Evaluate, FactsOf, AnswerOf, Decision.HumanBlocked;
    forall i, v | NothingHard(env, s, FactsOf(s, past, t, claims), noise, i, v)
      ensures NothingHard(env, s, FactsOf(s, past, t, claims), noise, InputOf(env, s, t.payload),
                          AnswerOf(env, s, past, t, claims, noise))
    {
      HardIsUnique(env, s, past, t, claims, noise, i, v);
    }
  }

  /** No finding is reported exactly when the invariants hold. */
  lemma {:induction false} InvariantsFoundIff(env: Env, input: Invariants.Input, noise: Noise)
    ensures Texts(env, Invariants.Violations(env.folding, input, ReceiptContext(env, noise), Invariants.ALL)) == [] <==>
            Invariants.Satisfies(env.folding, input,
                                 Invariants.Context(env.receiptsEnabled && env.receiptsRequired,
                                                    env.receiptsEnabled && noise.writerReady))
  {
    Invariants.EmptyIffSatisfied(env.folding, input, ReceiptContext(env, noise));
    hide Invariants.Violations, Invariants.Satisfies;
  }

  /** What the other layers ask for, without the code. */
  lemma {:induction false} SoftIff(env: Env, s: Spec, past: History, t: Target, claims: Claims, noise: Noise)
    ensures var l := Evaluate(env, s, past, t, claims, noise);
            && (l.thresholdAllowed <==> ThresholdPasses(env, s, FactsOf(s, past, t, claims)))
            && l.packApproval == AnswerOf(env, s, past, t, claims, noise).approval
  {
    hide InputOf, Invariants.Violations;
  }

  /** And the model, on what the layers allow. */
  lemma {:induction false} ModelIff(env: Env, s: Spec, past: History, t: Target, claims: Claims, base: Decision.Result)
    requires base.outcome == Decision.Allow
    ensures ModelEscalates(env, s, FactsOf(s, past, t, claims), InputOf(env, s, t.payload)) <==>
            env.modelMode(s.model) == Decision.Escalate &&
              Decision.Escalates(env.model, OverrideOf(s), FeaturesOf(env, s, past, t, claims, base))
  {
    hide InputOf, Decision.Escalates;
    assert past == History(past.total, past.denied);
  }

  /** What the direct path decides is what DecidedAs says, without the code: it
      allows exactly what nothing stands against, and denies exactly what something
      hard or the threshold stands against. */
  lemma {:induction false} JudgedIff(env: Env, s: Spec, past: History, t: Target, claims: Claims, noise: Noise)
    ensures var f := FactsOf(s, past, t, claims);
            var r := Judge(env, s, past, t, claims, Evaluate(env, s, past, t, claims, noise));
            forall outcome :: DecidedAs(env, s, f, noise, outcome) <==> r.outcome == outcome
  {
    var f, l := FactsOf(s, past, t, claims), Evaluate(env, s, past, t, claims, noise);
    var i0, v0 := InputOf(env, s, t.payload), AnswerOf(env, s, past, t, claims, noise);
    var base := Decision.Decide(l);
    hide Evaluate, NothingHard, ModelEscalates, ThresholdPasses, FeaturesOf, FactsOf, InputOf, AnswerOf, OverrideOf,
         Decision.ApplyDecisionModel, Decision.Escalates;
    HumanPassesIff(env, s, past, t, claims, noise);
    SoftIff(env, s, past, t, claims, noise);
    Decision.ModelOnlyEscalates(env.model, env.modelMode(s.model), OverrideOf(s),
                                FeaturesOf(env, s, past, t, claims, base), base);
    if base.outcome == Decision.Allow {
      ModelIff(env, s, past, t, claims, base);
    }
    assert Judge(env, s, past, t, claims, l).outcome == Decision.Allow <==> Unopposed(env, s, f, noise, i0, v0);
    forall i, v | Unopposed(env, s, f, noise, i, v)
      ensures Unopposed(env, s, f, noise, i0, v0)
    {
      HardIsUnique(env, s, past, t, claims, noise, i, v);
    }
    forall i, v | NothingHard(env, s, f, noise, i, v)
      ensures !Decision.HumanBlocked(l)
    {
    }
    hide Unopposed;
  }

  /** What no action that was let through can carry: a leaf in which a detector
      sees a credential. */
  ghost predicate CarriesCredential(env: Env, v: DataClass.Value) {
    exists t :: DataClass.HasLeaf(v, t) && CREDENTIAL in env.detector(t)
  }

  /** An action that no invariant denies was scanned in full and carries no
      credential in any leaf, however deep or long. */
  lemma {:induction false} UnblockedCarriesNoCredential(env: Env, s: Spec, past: History, t: Target, claims: Claims,
                                                        noise: Noise)
    requires Lawful(env)
    requires Evaluate(env, s, past, t, claims, noise).invariants == []
    ensures DataClass.Fits(DataClass.Visits(t.payload, 0))
    ensures !CarriesCredential(env, t.payload)
  {
    var input := InputOf(env, s, t.payload);
    var ctx := ReceiptContext(env, noise);
    var scan := DataClass.Walk(env.detector, t.payload, 0, DataClass.FULL);
    Invariants.EmptyIffSatisfied(env.folding, input, ctx);
    DataClass.ScanIsExact(env.detector, t.payload);
    assert Texts(env, Invariants.Violations(env.folding, input, ctx, Invariants.ALL)) == [];
    forall leaf | DataClass.HasLeaf(t.payload, leaf)
      ensures CREDENTIAL !in env.detector(leaf)
    {
      DataClass.LeafClassesFound(env.detector, t.payload, leaf);
      CredentialWouldShow(env, scan.classes, input.observed.dataClasses);
    }
  }

  lemma {:induction false} CredentialWouldShow(env: Env, classes: set<string>, listed: seq<string>)
    requires Lawful(env) && listed == DataClass.Sorted(classes)
    requires forall k | 0 <= k < |listed| :: env.folding.lower(listed[k]) != CREDENTIAL
    ensures CREDENTIAL !in classes
  {
    assert CREDENTIAL !in listed;
  }

  /** Nothing the layers allow, and nothing a human may execute, carries a
      credential. */
  lemma {:induction false} OnlyCleanActionsPass(env: Env, s: Spec, past: History, t: Target, claims: Claims,
                                                noise: Noise)
    requires Lawful(env)
    requires var l := Evaluate(env, s, past, t, claims, noise);
             !Decision.HumanBlocked(l) || Decision.Decide(l).outcome != Decision.Deny ||
               Judge(env, s, past, t, claims, l).outcome != Decision.Deny
    ensures !CarriesCredential(env, t.payload)
  {
    hide Evaluate, CarriesCredential, Lawful;
    JudgeNeverLoosens(env, s, past, t, claims, Evaluate(env, s, past, t, claims, noise));
    hide Judge;
    UnblockedCarriesNoCredential(env, s, past, t, claims, noise);
  }

  lemma {:induction false} JudgeNeverLoosens(env: Env, s: Spec, past: History, t: Target, claims: Claims,
                                             l: Decision.Layers)
    ensures Decision.Strictness(Judge(env, s, past, t, claims, l).outcome) >=
            Decision.Strictness(Decision.Decide(l).outcome)
  {
    var base := Decision.Decide(l);
    Decision.ModelOnlyEscalates(env.model, env.modelMode(s.model), OverrideOf(s),
                                FeaturesOf(env, s, past, t, claims, base), base);
    hide Decision.ApplyDecisionModel, Decision.Decide, FeaturesOf;
  }
}
