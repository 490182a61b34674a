/** pkg/decision and internal/controller/decision_model.go: layers, the decision
    model, and their composition.
  */
module Decision {
  import opened Text

  datatype Outcome = Allow | RequireApproval | Deny

  /** Allow 0, require_approval 1, deny 2. */
  function Strictness(o: Outcome): int {
    match o
    case Allow => 0
    case RequireApproval => 1
    case Deny => 2
  }

  datatype Layer = InvariantLayer | PackLayer | ThresholdLayer | ModelLayer

  datatype Result = Result(outcome: Outcome, layer: Layer, reasons: seq<string>)

  datatype Layers = Layers(
    invariants: seq<string>, packErr: Option<string>, packDeny: seq<string>, packApproval: seq<string>,
    thresholdAllowed: bool, thresholdReasons: seq<string>)

  // ---------------------------------------------------------------- layers

  function ErrReason(e: Option<string>): seq<string> {
    match e
    case None => []
    case Some(msg) => ["policy pack error: " + msg]
  }

  /** Decide. */
  function Decide(l: Layers): Result {
    var reasons := l.invariants + ErrReason(l.packErr) + l.packDeny + l.packApproval + l.thresholdReasons;
    if |l.invariants| > 0 then Result(Deny, InvariantLayer, reasons)
    else if l.packErr.Some? || |l.packDeny| > 0 then Result(Deny, PackLayer, reasons)
    else if !l.thresholdAllowed then Result(Deny, ThresholdLayer, reasons)
    else if |l.packApproval| > 0 then Result(RequireApproval, PackLayer, reasons)
    else Result(Allow, ThresholdLayer, reasons)
  }

  /** humanBlocked. */
  predicate HumanBlocked(l: Layers) {
    |l.invariants| > 0 || l.packErr.Some? || |l.packDeny| > 0
  }

  /** What each layer asks for on its own. */
  function InvariantsAsk(l: Layers): Outcome {
    if l.invariants == [] then Allow else Deny
  }

  function PacksAsk(l: Layers): Outcome {
    if l.packErr.Some? || l.packDeny != [] then Deny else if l.packApproval != [] then RequireApproval else Allow
  }

  function ThresholdAsks(l: Layers): Outcome {
    if l.thresholdAllowed then Allow else Deny
  }

  function Stricter(a: Outcome, b: Outcome): Outcome {
    if Strictness(a) >= Strictness(b) then a else b
  }

  /** The decision is the strictest of what the layers ask for, and it names a
      layer that asked for it. */
  lemma {:induction false} DecideIsStrictest(l: Layers)
    ensures Decide(l).outcome == Stricter(InvariantsAsk(l), Stricter(PacksAsk(l), ThresholdAsks(l)))
    ensures Decide(l).outcome == match Decide(l).layer {
              case InvariantLayer => InvariantsAsk(l)
              case PackLayer => PacksAsk(l)
              case ThresholdLayer => ThresholdAsks(l)
              case ModelLayer => Deny
            }
    ensures Decide(l).outcome == Deny ==>
              Decide(l).layer == if l.invariants != [] then InvariantLayer
                                 else if l.packErr.Some? || l.packDeny != [] then PackLayer else ThresholdLayer
  {
  }

  predicate Within(a: seq<string>, b: seq<string>) {
    forall x | x in a :: x in b
  }

  /** Every finding of l is also a finding of m. */
  predicate Tightens(l: Layers, m: Layers) {
    && Within(l.invariants, m.invariants) && Within(l.packDeny, m.packDeny) && Within(l.packApproval, m.packApproval)
    && (l.packErr.Some? ==> m.packErr.Some?)
    && (m.thresholdAllowed ==> l.thresholdAllowed)
  }

  /** Decide is monotone in every layer. */
  lemma {:induction false} DecideIsMonotone(l: Layers, m: Layers)
    requires Tightens(l, m)
    ensures Strictness(Decide(l).outcome) <= Strictness(Decide(m).outcome)
  {
    assert l.invariants != [] ==> l.invariants[0] in m.invariants;
    assert l.packDeny != [] ==> l.packDeny[0] in m.packDeny;
    assert l.packApproval != [] ==> l.packApproval[0] in m.packApproval;
  }

  /** No finding of any layer is dropped from the reasons. */
  lemma {:induction false} DecideKeepsReasons(l: Layers)
    ensures forall x :: x in Decide(l).reasons <==>
              x in l.invariants || x in ErrReason(l.packErr) || x in l.packDeny || x in l.packApproval ||
                x in l.thresholdReasons
  {
    hide ErrReason;
  }

  /** A human can resolve exactly threshold and pack approval findings: blocked
      means denied even if the threshold allowed it and no pack asked for approval. */
  lemma {:induction false} HumanBlockedIff(l: Layers)
    ensures HumanBlocked(l) <==> Decide(l.(thresholdAllowed := true, packApproval := [])).outcome == Deny
    ensures !HumanBlocked(l) && l.thresholdAllowed <==> Decide(l).outcome != Deny
  {
  }

  // ---------------------------------------------------------------- scores

  const MICRO_SCALE := 1000000

  datatype Options = Options(allow: int, requireApproval: int)

  datatype Score = Score(
    riskMicro: int, options: Options, reasonCodes: seq<string>, thresholdMicro: int,
    claimedRiskMicro: int, baselineRiskMicro: int, baselineFeatureHash: string)

  function ClampMicro(v: int): (r: int)
    ensures 0 <= r <= MICRO_SCALE
  {
    if v < 0 then 0 else if v > MICRO_SCALE then MICRO_SCALE else v
  }

  function OptionsOf(risk: int): (o: Options)
    ensures o.allow + o.requireApproval == MICRO_SCALE && o.allow >= 0 && o.requireApproval >= 0
  {
    Options(MICRO_SCALE - ClampMicro(risk), ClampMicro(risk))
  }

  /** EffectiveThreshold. */
  function EffectiveThreshold(artifactMicro: int, override: Option<int>): (t: int)
    ensures 0 <= t <= ClampMicro(artifactMicro)
  {
    var t := ClampMicro(artifactMicro);
    if override.Some? && override.value >= 0 && override.value < t then override.value else t
  }

  /** The effective threshold is the stricter of the artifact's and the override,
      when the override is a valid one. */
  lemma {:induction false} OverrideOnlyTightens(artifactMicro: int, override: Option<int>)
    ensures var t := EffectiveThreshold(artifactMicro, override);
            && t <= EffectiveThreshold(artifactMicro, None)
            && (override.Some? && override.value >= 0 ==> t <= override.value)
            && (t == EffectiveThreshold(artifactMicro, None) || override == Some(t))
  {
  }

  datatype Claimed = Claimed(confidence: Option<real>, clusterHealth: Option<real>, intent: string)

  /** FeatureInput: what the agent claims, and everything else. */
  datatype FeatureInput<T> = FeatureInput(claimed: Claimed, other: T)

  function NeutralClaims<T>(fi: FeatureInput<T>): FeatureInput<T> {
    fi.(claimed := fi.claimed.(confidence := None, clusterHealth := None))
  }

  /** A deterministic scorer over extracted features. */
  datatype Model<!T, !F> = Model(
    extract: FeatureInput<T> -> F, hash: F -> string, score: F -> Text.Result<Score, string>)

  /** ScoreClaimSafe. */
  function ScoreClaimSafe<T, F>(m: Model<T, F>, fi: FeatureInput<T>): Text.Result<Score, string> {
    var claimed := m.score(m.extract(fi));
    if claimed.Err? then claimed
    else
      var features := m.extract(NeutralClaims(fi));
      var base := m.score(features);
      if base.Err? then base
      else
        var out :=
          if base.value.riskMicro > claimed.value.riskMicro then
            claimed.value.(riskMicro := base.value.riskMicro, options := OptionsOf(base.value.riskMicro),
                           reasonCodes := base.value.reasonCodes)
          else claimed.value;
        Ok(out.(claimedRiskMicro := claimed.value.riskMicro, baselineRiskMicro := base.value.riskMicro,
                baselineFeatureHash := m.hash(features)))
  }

  function Max(a: int, b: int): int {
    if a >= b then a else b
  }

  /** The kept risk is the higher of the two, it never falls below the risk
      without claims, and the options stay those of the kept risk. */
  lemma {:induction false} ClaimSafeRisk<T, F>(m: Model<T, F>, fi: FeatureInput<T>)
    ensures var neutral := m.extract(fi.(claimed := Claimed(None, None, fi.claimed.intent)));
            var c, b, s := m.score(m.extract(fi)), m.score(neutral), ScoreClaimSafe(m, fi);
            && (s.Ok? <==> c.Ok? && b.Ok?)
            && (s.Ok? ==>
                  && s.value.riskMicro == Max(c.value.riskMicro, b.value.riskMicro)
                  && s.value.claimedRiskMicro == c.value.riskMicro && s.value.baselineRiskMicro == b.value.riskMicro
                  && s.value.thresholdMicro == c.value.thresholdMicro
                  && s.value.baselineFeatureHash == m.hash(neutral)
                  && s.value.reasonCodes == (if b.value.riskMicro > c.value.riskMicro then b.value.reasonCodes
                                             else c.value.reasonCodes)
                  && (c.value.options == OptionsOf(c.value.riskMicro) ==>
                      s.value.options == OptionsOf(s.value.riskMicro)))
  {
  }

  // ------------------------------------------------------------- escalation

  datatype Mode = Off | Shadow | Escalate | UnknownMode

  /** ApplyModel. */
  function ApplyModel(base: Result, s: Text.Result<Score, string>, mode: Mode): Result {
    if mode != Escalate || base.outcome != Allow then base
    else
      match s
      case Err(e) => Result(RequireApproval, ModelLayer, base.reasons + ["model:error: " + e])
      case Ok(score) =>
        if ClampMicro(score.riskMicro) >= score.thresholdMicro then
          Result(RequireApproval, ModelLayer, base.reasons + ["model:escalate"])
        else base
  }

  /** DecisionModelConfig: no artifact, one that did not load, or a scorer. */
  datatype Config<!T, !F> = NoModel | Unavailable(error: string) | Loaded(model: Model<T, F>)

  /** applyDecisionModel: the final result, and the score block when it ran. */
  function ApplyDecisionModel<T, F>(cfg: Config<T, F>, mode: Mode, override: Option<int>, fi: FeatureInput<T>,
                                    base: Result)
    : (Result, Option<Text.Result<Score, string>>)
  {
    if cfg.NoModel? || mode == Off then (base, None)
    else
      var used := if mode == Escalate then Escalate else Shadow;
      var scored :=
        match cfg
        case Loaded(m) => ScoreClaimSafe(m, fi)
        case Unavailable(e) => Err(e)
        case NoModel => Err("");
      var s :=
        match scored
        case Ok(v) => Ok(v.(thresholdMicro := EffectiveThreshold(v.thresholdMicro, override)))
        case Err(e) => scored;
      (ApplyModel(base, s, used), Some(s))
  }

  /** The model never loosens, and it changes nothing but an allow, in escalate
      mode, which it turns into require_approval exactly when scoring failed or
      the kept risk reaches the effective threshold. */
  lemma {:induction false} ModelOnlyEscalates<T, F>(cfg: Config<T, F>, mode: Mode, override: Option<int>,
                                                    fi: FeatureInput<T>, base: Result)
    ensures var (final, block) := ApplyDecisionModel(cfg, mode, override, fi, base);
            && Strictness(final.outcome) >= Strictness(base.outcome)
            && (final != base <==> mode == Escalate && base.outcome == Allow && Escalates(cfg, override, fi))
            && (final != base ==> final.outcome == RequireApproval && base.reasons < final.reasons)
            && (block.Some? <==> !cfg.NoModel? && mode != Off)
  {
    if cfg.Loaded? {
      ClaimSafeRisk(cfg.model, fi);
      hide ScoreClaimSafe;
    }
  }

  /** Scoring fails, or the higher of the two risks reaches the threshold that
      the score with claims carries. */
  predicate Escalates<T, F>(cfg: Config<T, F>, override: Option<int>, fi: FeatureInput<T>) {
    match cfg
    case NoModel => false
    case Unavailable(_) => true
    case Loaded(m) =>
      var c, b := m.score(m.extract(fi)), m.score(m.extract(fi.(claimed := Claimed(None, None, fi.claimed.intent))));
      c.Err? || b.Err? ||
      ClampMicro(Max(c.value.riskMicro, b.value.riskMicro)) >= EffectiveThreshold(c.value.thresholdMicro, override)
  }

  /** The scores of fi, with its claims and without, carry one threshold. */
  predicate OneThreshold<T, F>(m: Model<T, F>, fi: FeatureInput<T>) {
    var c, b := m.score(m.extract(fi)), m.score(m.extract(NeutralClaims(fi)));
    c.Ok? && b.Ok? ==> c.value.thresholdMicro == b.value.thresholdMicro
  }

  /** Claims only tighten: with a threshold that does not depend on the claims,
      the outcome with any claims is at least as strict as without them, under
      every mode and override. */
  lemma {:induction false} ClaimsOnlyTighten<T, F>(cfg: Config<T, F>, mode: Mode, override: Option<int>,
                                                   fi: FeatureInput<T>, base: Result)
    requires cfg.Loaded? ==> OneThreshold(cfg.model, fi)
    ensures Strictness(ApplyDecisionModel(cfg, mode, override, fi, base).0.outcome) >=
            Strictness(ApplyDecisionModel(cfg, mode, override, NeutralClaims(fi), base).0.outcome)
  {
    ModelOnlyEscalates(cfg, mode, override, fi, base);
    ModelOnlyEscalates(cfg, mode, override, NeutralClaims(fi), base);
    assert NeutralClaims(NeutralClaims(fi)) == NeutralClaims(fi);
    hide ApplyDecisionModel, EffectiveThreshold;
  }

  /** The threshold compared to is the one carried by the score with claims. So
      the outcome with the claims is looser than without them exactly in escalate
      mode on an allow, when both scores succeed and the one with claims carries a
      threshold that the kept risk does not reach although the risk without claims
      reaches its own. */
  lemma {:induction false} ClaimsLoosenIff<T, F>(cfg: Config<T, F>, mode: Mode, override: Option<int>,
                                                 fi: FeatureInput<T>, base: Result)
    ensures Strictness(ApplyDecisionModel(cfg, mode, override, fi, base).0.outcome) <
            Strictness(ApplyDecisionModel(cfg, mode, override, NeutralClaims(fi), base).0.outcome)
            <==>
            cfg.Loaded? && mode == Escalate && base.outcome == Allow && ThresholdMoves(cfg.model, override, fi)
  {
    ModelOnlyEscalates(cfg, mode, override, fi, base);
    ModelOnlyEscalates(cfg, mode, override, NeutralClaims(fi), base);
    assert NeutralClaims(NeutralClaims(fi)) == NeutralClaims(fi);
    hide ApplyDecisionModel, EffectiveThreshold;
  }

  /** The risk without claims reaches its threshold, and with claims the kept risk
      does not reach the threshold that comes with them. */
  predicate ThresholdMoves<T, F>(m: Model<T, F>, override: Option<int>, fi: FeatureInput<T>) {
    var c, b := m.score(m.extract(fi)), m.score(m.extract(NeutralClaims(fi)));
    && c.Ok? && b.Ok?
    && ClampMicro(b.value.riskMicro) >= EffectiveThreshold(b.value.thresholdMicro, override)
    && ClampMicro(Max(c.value.riskMicro, b.value.riskMicro)) < EffectiveThreshold(c.value.thresholdMicro, override)
  }

  /** A scorer whose threshold depends on its features can be loosened by a claim. */
  lemma {:induction false} VaryingThresholdCanLoosen()
    ensures exists m: Model<(), bool>, fi: FeatureInput<()> ::
              Strictness(ApplyDecisionModel(Loaded(m), Escalate, None, fi,
                                            Decide(Layers([], None, [], [], true, []))).0.outcome) <
              Strictness(ApplyDecisionModel(Loaded(m), Escalate, None, NeutralClaims(fi),
                                            Decide(Layers([], None, [], [], true, []))).0.outcome)
  {
    var low := Score(500000, OptionsOf(500000), [], 400000, 0, 0, "");
    var score := (f: bool) => if f then Ok(low.(thresholdMicro := 600000)) else Ok(low);
    var m := Model((fi: FeatureInput<()>) => fi.claimed.confidence.Some?, (f: bool) => "", score);
    var fi := FeatureInput(Claimed(Some(0.9), None, ""), ());
    ClaimsLoosenIff(Loaded(m), Escalate, None, fi, Decide(Layers([], None, [], [], true, [])));
  }

  // ------------------------------------------------------ write-ahead record

  /** recordDecision: the outcome that stands after the receipt was appended, or
      not, for an action the layers and the model decided. `inv05` is the text of
      the INV-05 finding. */
  function AfterReceipt(enabled: bool, required: bool, appended: bool, inv05: string, l: Layers, r: Result): Result {
    if !enabled || appended || !required then r
    else Decide(if inv05 in l.invariants then l else l.(invariants := l.invariants + [inv05]))
  }

  /** The receipt step never loosens. When receipts are required, what is left
      undenied has its receipt; otherwise nothing changes. */
  lemma {:induction false} ReceiptOnlyTightens(enabled: bool, required: bool, appended: bool, inv05: string, l: Layers,
                                               r: Result)
    ensures var after := AfterReceipt(enabled, required, appended, inv05, l, r);
            && Strictness(after.outcome) >= Strictness(r.outcome)
            && (enabled && required && after.outcome != Deny ==> appended && after == r)
            && (!enabled || !required || appended ==> after == r)
            && (enabled && required && !appended ==>
                after.outcome == Deny && after.layer == InvariantLayer && inv05 in after.reasons)
  {
  }
}
