/** The auditable risk score: a severity weight, an evidence confidence, a phenotype factor
    and a patient-context multiplier are multiplied, reduced by a capped missing-data
    penalty, clamped to [0, 1] and bucketed into five categories. Scores are exact reals. */
module RiskScoring {
  import opened Text

  // ---------------------------------------------------------------------------
  // Tables
  // ---------------------------------------------------------------------------

  /** Lower-cased severity to weight; the default (the table's None key) is 0.40. */
  const SeverityWeights: map<string, real> := map[
    "critical" := 1.0, "high" := 0.8, "moderate" := 0.6, "low" := 0.3,
    "minimal" := 0.1, "none" := 0.0, "unknown" := 0.4]
  const DefaultSeverityWeight: real := 0.4

  /** Upper-cased evidence level to confidence; the default is 0.60. */
  const EvidenceConfidences: map<string, real> := map[
    "A" := 0.95, "B" := 0.75, "C" := 0.55, "N/A" := 0.6, "unknown" := 0.6]
  const DefaultEvidenceConfidence: real := 0.6

  /** Phenotype to factor; a phenotype outside the table counts as "Unknown". */
  const PhenotypeFactors: map<string, real> := map[
    "PM" := 1.0, "UM" := 1.0, "IM" := 0.7, "RM" := 0.7, "NM" := 0.3, "Unknown" := 0.5]

  /** Quality flag to penalty; any other flag costs nothing. */
  const Penalties: map<string, real> := map[
    "missing_cnv" := 0.2, "unknown_star" := 0.25, "no_phase" := 0.15,
    "compound_uncertain" := 0.15, "HapB3_proxy_only" := 0.1, "pipeline_error" := 0.9]

  const PenaltyCap: real := 0.9

  /** The categories from lowest to highest, and the score each one starts at. */
  const Categories: seq<string> := ["minimal", "low", "moderate", "high", "critical"]
  const Thresholds: seq<real> := [0.2, 0.4, 0.6, 0.8]

  // ---------------------------------------------------------------------------
  // _score_to_category and _clamp
  // ---------------------------------------------------------------------------

  /** The position of a category in ascending order. */
  function Rank(c: string): nat {
    if c == "critical" then 4 else if c == "high" then 3 else if c == "moderate" then 2
    else if c == "low" then 1 else 0
  }

  /** _score_to_category: the category is the one whose rank counts the thresholds the
      score reaches. */
  function ScoreToCategory(score: real): (c: string)
    ensures c in Categories && Categories[Rank(c)] == c
    ensures forall k :: 0 <= k < |Thresholds| ==> (Thresholds[k] <= score <==> k < Rank(c))
  {
    if score >= 0.8 then "critical"
    else if score >= 0.6 then "high"
    else if score >= 0.4 then "moderate"
    else if score >= 0.2 then "low"
    else "minimal"
  }

  /** A higher score never gets a lower category. */
  lemma CategoryMonotone(a: real, b: real)
    requires a <= b
    ensures Rank(ScoreToCategory(a)) <= Rank(ScoreToCategory(b))
  {
  }

  /** _clamp to [0, 1]: values inside are kept, values outside go to the nearer end. */
  function Clamp(x: real): (r: real)
    ensures 0.0 <= r <= 1.0
    ensures 0.0 <= x <= 1.0 ==> r == x
    ensures x < 0.0 ==> r == 0.0
    ensures x > 1.0 ==> r == 1.0
  {
    if x < 0.0 then 0.0 else if x > 1.0 then 1.0 else x
  }

  lemma ClampMonotone(x: real, y: real)
    requires x <= y
    ensures Clamp(x) <= Clamp(y)
  {
  }

  // ---------------------------------------------------------------------------
  // compute_missing_data_penalty
  // ---------------------------------------------------------------------------

  function PenaltyOf(flag: string): (p: real)
    ensures 0.0 <= p <= 0.9
  {
    if flag in Penalties then Penalties[flag] else 0.0
  }

  /** The uncapped sum of the flags' penalties, one term per occurrence. */
  function PenaltySum(flags: seq<string>): (r: real)
    ensures r >= 0.0
  {
    if |flags| == 0 then 0.0 else PenaltySum(flags[..|flags| - 1]) + PenaltyOf(flags[|flags| - 1])
  }

  /** The penalty of `flags or []`: the sum, capped at 0.90. */
  function MissingDataPenalty(flags: Option<seq<string>>): (r: real)
    ensures 0.0 <= r <= PenaltyCap
    ensures flags.None? ==> r == 0.0
    ensures flags.Some? && PenaltySum(flags.value) <= PenaltyCap ==> r == PenaltySum(flags.value)
    ensures flags.Some? && PenaltySum(flags.value) >= PenaltyCap ==> r == PenaltyCap
  {
    var fs := if flags.Some? then flags.value else [];
    var total := PenaltySum(fs);
    if total < PenaltyCap then total else PenaltyCap
  }

  /** compute_missing_data_penalty: the loop that accumulates the penalties. */
  method ComputeMissingDataPenalty(flags: Option<seq<string>>) returns (p: real)
    ensures p == MissingDataPenalty(flags)
  {
    var fs := if flags.Some? then flags.value else [];
    var total := 0.0;
    var i := 0;
    while i < |fs|
      invariant 0 <= i <= |fs|
      invariant total == PenaltySum(fs[..i])
    {
      assert fs[..i + 1][..i] == fs[..i];
      total := total + PenaltyOf(fs[i]);
      i := i + 1;
    }
    assert fs[..i] == fs;
    p := if total < PenaltyCap then total else PenaltyCap;
  }

  /** The sum of two flag lists is the sum of their sums, so order does not matter. */
  lemma {:induction false} PenaltySumAppend(a: seq<string>, b: seq<string>)
    ensures PenaltySum(a + b) == PenaltySum(a) + PenaltySum(b)
  {
    if |b| == 0 {
      assert a + b == a;
    } else {
      var b' := b[..|b| - 1];
      assert (a + b)[..|a + b| - 1] == a + b';
      PenaltySumAppend(a, b');
    }
  }

  lemma PenaltyOrderFree(a: seq<string>, b: seq<string>)
    ensures MissingDataPenalty(Some(a + b)) == MissingDataPenalty(Some(b + a))
  {
    PenaltySumAppend(a, b);
    PenaltySumAppend(b, a);
  }

  /** More flags never lower the penalty. */
  lemma PenaltyMonotone(a: seq<string>, b: seq<string>)
    ensures MissingDataPenalty(Some(a)) <= MissingDataPenalty(Some(a + b))
  {
    PenaltySumAppend(a, b);
  }

  /** Flags outside the penalty table cost nothing. */
  lemma {:induction false} UnknownFlagsFree(flags: seq<string>)
    requires forall i :: 0 <= i < |flags| ==> flags[i] !in Penalties
    ensures MissingDataPenalty(Some(flags)) == 0.0
  {
    if |flags| > 0 {
      UnknownFlagsFree(flags[..|flags| - 1]);
    }
  }

  // ---------------------------------------------------------------------------
  // compute_context_multiplier
  // ---------------------------------------------------------------------------

  /** The patient context keys the score reads; a missing list is empty, a missing flag
      false, a missing age None. A context that is None or an empty dict is None here. */
  datatype PatientContext = PatientContext(
    coMedications: seq<string>, strongRelevantInhibitors: seq<string>,
    renalImpairment: bool, hepaticImpairment: bool, age: Option<int>)

  /** The four context rules, in the order compute_context_multiplier applies them. */
  datatype Rule = CoMed | Renal | Hepatic | Age

  const RuleOrder: seq<Rule> := [CoMed, Renal, Hepatic, Age]

  /** The note a rule appends to the context notes. */
  function NoteText(r: Rule): string {
    match r
    case CoMed => "strong_interacting_co_med"
    case Renal => "renal_impairment"
    case Hepatic => "hepatic_impairment"
    case Age => "advanced_age"
  }

  /** The position of a rule in RuleOrder. */
  function OrderOf(r: Rule): nat {
    match r
    case CoMed => 0
    case Renal => 1
    case Hepatic => 2
    case Age => 3
  }

  /** `set(co_medications) & set(strong_relevant_inhibitors)` is non-empty. */
  predicate SharesInhibitor(ctx: PatientContext) {
    exists x :: x in ctx.coMedications && x in ctx.strongRelevantInhibitors
  }

  /** Whether a context rule applies: a shared co-medication and inhibitor, either
      impairment flag, or an age of at least 75. */
  predicate Fires(ctx: PatientContext, r: Rule) {
    match r
    case CoMed => SharesInhibitor(ctx)
    case Renal => ctx.renalImpairment
    case Hepatic => ctx.hepaticImpairment
    case Age => ctx.age.Some? && ctx.age.value >= 75
  }

  /** The rules that apply, in the fixed order; none without a context. */
  function ContextRules(ctx: Option<PatientContext>): (rules: seq<Rule>)
    ensures forall r :: r in rules <==> ctx.Some? && Fires(ctx.value, r)
    ensures Ordered(rules)
  {
    if ctx.None? then [] else
      FiringFacts(ctx.value, |RuleOrder|);
      FiringUpTo(ctx.value, |RuleOrder|)
  }

  /** The rules among the first k of RuleOrder that fire, in order. */
  function FiringUpTo(ctx: PatientContext, k: nat): seq<Rule>
    requires k <= |RuleOrder|
  {
    if k == 0 then []
    else FiringUpTo(ctx, k - 1) + (if Fires(ctx, RuleOrder[k - 1]) then [RuleOrder[k - 1]] else [])
  }

  lemma {:induction false} FiringFacts(ctx: PatientContext, k: nat)
    requires k <= |RuleOrder|
    ensures forall r :: r in FiringUpTo(ctx, k) <==> OrderOf(r) < k && Fires(ctx, r)
    ensures Ordered(FiringUpTo(ctx, k))
    ensures forall i :: 0 <= i < |FiringUpTo(ctx, k)| ==> OrderOf(FiringUpTo(ctx, k)[i]) < k
  {
    if k > 0 {
      FiringFacts(ctx, k - 1);
      assert OrderOf(RuleOrder[k - 1]) == k - 1;
    }
  }

  /** Rules in strictly increasing order: each at most once, in the fixed order. */
  predicate Ordered(rules: seq<Rule>) {
    forall i, j :: 0 <= i < j < |rules| ==> OrderOf(rules[i]) < OrderOf(rules[j])
  }

  /** The notes of a sequence of rules. */
  function Notes(rules: seq<Rule>): seq<string> {
    if |rules| == 0 then [] else Notes(rules[..|rules| - 1]) + [NoteText(rules[|rules| - 1])]
  }

  /** The notes compute_risk_score reports: those of the rules that apply. */
  function ContextNotes(ctx: Option<PatientContext>): seq<string> {
    Notes(ContextRules(ctx))
  }

  /** Different rules leave different notes, so the notes name the rules that applied. */
  lemma NoteTextInjective(r: Rule, r': Rule)
    ensures NoteText(r) == NoteText(r') <==> r == r'
  {
    if r != r' {
      assert NoteText(r)[..3] != NoteText(r')[..3] || |NoteText(r)| != |NoteText(r')|;
    }
  }

  /** The product of the factors of the rules. */
  function Product(rules: seq<Rule>): real {
    if |rules| == 0 then 1.0 else Scale(Product(rules[..|rules| - 1]), rules[|rules| - 1])
  }

  /** m multiplied by the factor of a rule. */
  function Scale(m: real, r: Rule): real {
    match r
    case CoMed => m * 1.25
    case Renal => m * 1.1
    case Hepatic => m * 1.1
    case Age => m * 1.05
  }

  /** The multiplier of a context: the product of the factors of the rules that apply. */
  function ContextMultiplier(ctx: Option<PatientContext>): real {
    Product(ContextRules(ctx))
  }

  /** Scaling by factors of at least 1 never lowers 1. */
  lemma {:induction false} ProductAtLeastOne(rules: seq<Rule>)
    ensures Product(rules) >= 1.0
  {
    if |rules| > 0 {
      ProductAtLeastOne(rules[..|rules| - 1]);
    }
  }

  /** compute_context_multiplier's promise: a multiplier of at least 1, exactly 1 for no
      context. */
  lemma MultiplierAtLeastOne(ctx: Option<PatientContext>)
    ensures ContextMultiplier(ctx) >= 1.0
    ensures ctx.None? ==> ContextMultiplier(ctx) == 1.0
  {
    ProductAtLeastOne(ContextRules(ctx));
  }

  /** compute_context_multiplier: starting from 1 and no notes, the four rules applied
      one after another. */
  method ComputeContextMultiplier(ctx: Option<PatientContext>) returns (m: real, notes: seq<string>)
    ensures notes == ContextNotes(ctx)
    ensures m == ContextMultiplier(ctx)
  {
    m := 1.0;
    notes := [];
    if ctx.None? {
      return;
    }
    var c := ctx.value;
    m, notes := ApplyRule(c, 0, m, notes);
    m, notes := ApplyRule(c, 1, m, notes);
    m, notes := ApplyRule(c, 2, m, notes);
    m, notes := ApplyRule(c, 3, m, notes);
    RulesOfContext(c);
  }

  lemma RulesOfContext(c: PatientContext)
    ensures ContextMultiplier(Some(c)) == Product(FiringUpTo(c, |RuleOrder|))
    ensures ContextNotes(Some(c)) == Notes(FiringUpTo(c, |RuleOrder|))
  {
  }

  /** One rule of compute_context_multiplier: when it applies, its factor is multiplied
      in and its note appended; otherwise nothing changes. */
  method ApplyRule(c: PatientContext, k: nat, m: real, notes: seq<string>) returns (m': real, notes': seq<string>)
    requires k < |RuleOrder|
    requires m == Product(FiringUpTo(c, k)) && notes == Notes(FiringUpTo(c, k))
    ensures m' == Product(FiringUpTo(c, k + 1)) && notes' == Notes(FiringUpTo(c, k + 1))
  {
    var rule := RuleOrder[k];
    ghost var before := FiringUpTo(c, k);
    if Fires(c, rule) {
      m' := Scale(m, rule);
      notes' := notes + [NoteText(rule)];
      assert FiringUpTo(c, k + 1) == before + [rule];
      assert (before + [rule])[..|before|] == before;
    } else {
      m', notes' := m, notes;
      assert FiringUpTo(c, k + 1) == before;
    }
  }

  // ---------------------------------------------------------------------------
  // compute_risk_score
  // ---------------------------------------------------------------------------

  /** The severity weight of `severity.lower()`, 0.40 for a severity outside the table. */
  function SeverityWeight(severity: string): (w: real)
    ensures 0.0 <= w <= 1.0
  {
    var key := Lower(severity);
    if key in SeverityWeights then SeverityWeights[key] else DefaultSeverityWeight
  }

  /** The confidence of `evidence_level.upper()`, 0.60 for a level outside the table. */
  function EvidenceConfidence(level: string): (c: real)
    ensures 0.55 <= c <= 0.95
  {
    var key := Upper(level);
    if key in EvidenceConfidences then EvidenceConfidences[key] else DefaultEvidenceConfidence
  }

  /** The factor of a phenotype, matched exactly; anything else counts as "Unknown". */
  function PhenotypeFactor(phenotype: string): (f: real)
    ensures 0.3 <= f <= 1.0
  {
    var key := if phenotype in PhenotypeFactors then phenotype else "Unknown";
    PhenotypeFactors[key]
  }

  /** Every intermediate value of the score. */
  datatype Components = Components(
    severityWeight: real, evidenceConfidence: real, phenotypeFactor: real,
    contextMultiplier: real, missingDataPenalty: real, raw: real, adjusted: real)

  /** The result of compute_risk_score. */
  datatype RiskResult = RiskResult(
    riskScore: real, category: string, components: Components,
    flags: seq<string>, contextNotes: seq<string>)

  /** The part of the raw score the patient context does not touch. */
  function Base(severity: string, evidenceLevel: string, phenotype: string): (b: real)
    ensures 0.0 <= b <= 1.0
  {
    var w, c, f := SeverityWeight(severity), EvidenceConfidence(evidenceLevel), PhenotypeFactor(phenotype);
    Bounded3(w, c, f);
    w * c * f
  }

  lemma Bounded3(a: real, b: real, c: real)
    requires 0.0 <= a <= 1.0 && 0.0 <= b <= 1.0 && 0.0 <= c <= 1.0
    ensures 0.0 <= a * b * c <= 1.0
  {
    Bounded(a, b);
    Bounded(a * b, c);
  }

  lemma Bounded(a: real, b: real)
    requires 0.0 <= a <= 1.0 && 0.0 <= b <= 1.0
    ensures 0.0 <= a * b <= 1.0
  {
    MulNonNegative(a, b);
    MulLeft(a, b, 1.0);
    assert a * 1.0 == a;
    assert a * b <= a;
  }

  lemma MulNonNegative(a: real, b: real)
    requires a >= 0.0
    ensures b >= 0.0 ==> a * b >= 0.0
  {
  }

  lemma MulLeft(a: real, b: real, c: real)
    requires a >= 0.0 && b <= c
    ensures a * b <= a * c
  {
  }

  /** The penalised, clamped score of a raw value. */
  function Adjusted(raw: real, penalty: real): (r: real)
    ensures 0.0 <= r <= 1.0
  {
    Clamp(raw * (1.0 - penalty))
  }

  /** The penalty and the clamp never raise a non-negative raw value. */
  lemma AdjustedAtMostRaw(raw: real, penalty: real)
    requires raw >= 0.0 && penalty >= 0.0
    ensures Adjusted(raw, penalty) <= raw
  {
    MulNonNegative(raw, penalty);
  }

  /** A higher penalty never raises the adjusted score of a non-negative raw value. */
  lemma AdjustedAntitone(raw: real, p: real, q: real)
    requires raw >= 0.0 && p <= q
    ensures Adjusted(raw, q) <= Adjusted(raw, p)
  {
    MulLeft(raw, 1.0 - q, 1.0 - p);
    ClampMonotone(raw * (1.0 - q), raw * (1.0 - p));
  }

  /** A higher raw value never lowers the adjusted score while the penalty is below 1. */
  lemma AdjustedMonotone(raw: real, raw': real, p: real)
    requires raw <= raw' && p <= 1.0
    ensures Adjusted(raw, p) <= Adjusted(raw', p)
  {
    MulLeft(1.0 - p, raw, raw');
    assert raw * (1.0 - p) == (1.0 - p) * raw;
    assert raw' * (1.0 - p) == (1.0 - p) * raw';
    ClampMonotone(raw * (1.0 - p), raw' * (1.0 - p));
  }

  /** The raw score: the base value scaled by a context multiplier. */
  function Raw(severity: string, evidenceLevel: string, phenotype: string, m: real): (r: real)
    ensures m >= 0.0 ==> r >= 0.0
  {
    var b := Base(severity, evidenceLevel, phenotype);
    MulNonNegative(b, m);
    b * m
  }

  /** A larger multiplier never lowers the raw score. */
  lemma RawMonotone(severity: string, evidenceLevel: string, phenotype: string, m: real, m': real)
    requires m <= m'
    ensures Raw(severity, evidenceLevel, phenotype, m) <= Raw(severity, evidenceLevel, phenotype, m')
  {
    MulLeft(Base(severity, evidenceLevel, phenotype), m, m');
  }

  /** compute_risk_score: raw = weight x confidence x factor x multiplier, the score is
      raw x (1 - penalty) clamped to [0, 1], and the category buckets the score. None
      for the severity or the evidence level is the empty text here, as `or ""` makes it. */
  function ComputeRiskScore(severity: string, evidenceLevel: string, phenotype: string,
                            flags: Option<seq<string>>, ctx: Option<PatientContext>): (r: RiskResult)
    ensures 0.0 <= r.riskScore <= 1.0 && r.riskScore == r.components.adjusted
    ensures r.category == ScoreToCategory(r.riskScore)
    ensures r.components.contextMultiplier >= 1.0
    ensures 0.0 <= r.components.missingDataPenalty <= PenaltyCap
    ensures 0.0 <= r.riskScore <= r.components.raw
    ensures r.flags == (if flags.Some? then flags.value else [])
    ensures r.contextNotes == ContextNotes(ctx)
  {
    var w := SeverityWeight(severity);
    var c := EvidenceConfidence(evidenceLevel);
    var f := PhenotypeFactor(phenotype);
    var m := ContextMultiplier(ctx);
    var penalty := MissingDataPenalty(flags);
    var raw := Raw(severity, evidenceLevel, phenotype, m);
    var adjusted := Adjusted(raw, penalty);
    MultiplierAtLeastOne(ctx);
    AdjustedAtMostRaw(raw, penalty);
    RiskResult(adjusted, ScoreToCategory(adjusted),
      Components(w, c, f, m, penalty, raw, adjusted),
      if flags.Some? then flags.value else [], ContextNotes(ctx))
  }

  /** More quality flags never raise the score: the penalty only grows. */
  lemma FlagsNeverRaise(severity: string, evidenceLevel: string, phenotype: string,
                        a: seq<string>, b: seq<string>, ctx: Option<PatientContext>)
    ensures ComputeRiskScore(severity, evidenceLevel, phenotype, Some(a + b), ctx).riskScore
            <= ComputeRiskScore(severity, evidenceLevel, phenotype, Some(a), ctx).riskScore
  {
    MultiplierAtLeastOne(ctx);
    PenaltyMonotone(a, b);
    AdjustedAntitone(Raw(severity, evidenceLevel, phenotype, ContextMultiplier(ctx)),
      MissingDataPenalty(Some(a)), MissingDataPenalty(Some(a + b)));
  }

  /** A patient context never lowers the score: its multiplier is at least 1. */
  lemma ContextNeverLowers(severity: string, evidenceLevel: string, phenotype: string,
                           flags: Option<seq<string>>, ctx: Option<PatientContext>)
    ensures ComputeRiskScore(severity, evidenceLevel, phenotype, flags, None).riskScore
            <= ComputeRiskScore(severity, evidenceLevel, phenotype, flags, ctx).riskScore
  {
    MultiplierAtLeastOne(None);
    MultiplierAtLeastOne(ctx);
    RawMonotone(severity, evidenceLevel, phenotype, ContextMultiplier(None), ContextMultiplier(ctx));
    AdjustedMonotone(Raw(severity, evidenceLevel, phenotype, ContextMultiplier(None)),
      Raw(severity, evidenceLevel, phenotype, ContextMultiplier(ctx)), MissingDataPenalty(flags));
  }

  /** Severity "none" (in any case) weighs nothing: the score is 0 and the category
      "minimal". */
  lemma NoneSeverityMinimal(severity: string, evidenceLevel: string, phenotype: string,
                            flags: Option<seq<string>>, ctx: Option<PatientContext>)
    requires Lower(severity) == "none"
    ensures ComputeRiskScore(severity, evidenceLevel, phenotype, flags, ctx).riskScore == 0.0
    ensures ComputeRiskScore(severity, evidenceLevel, phenotype, flags, ctx).category == "minimal"
  {
    assert SeverityWeight(severity) == 0.0;
    assert Base(severity, evidenceLevel, phenotype) == 0.0;
  }

  /** The self-test rows whose expectation follows from the formula: 0.95, 0.3192, 0.95,
      0.171 and 0.57. */
  lemma SelfTestRows()
    ensures ComputeRiskScore("critical", "A", "PM", Some([]), None).category == "critical"
    ensures ComputeRiskScore("moderate", "A", "IM", Some(["missing_cnv"]), None).category == "low"
    ensures ComputeRiskScore("critical", "A", "UM", Some([]), None).category == "critical"
    ensures ComputeRiskScore("moderate", "A", "NM", Some([]), None).category == "minimal"
    ensures ComputeRiskScore("high", "A", "PM", Some(["unknown_star"]), None).category == "moderate"
  {
    Weights();
    MultiplierAtLeastOne(None);
    PenaltyOfOne("missing_cnv");
    PenaltyOfOne("unknown_star");
    assert PenaltySum([]) == 0.0;
    assert Base("critical", "A", "PM") == 0.95;
    assert Base("critical", "A", "UM") == 0.95;
    assert Base("moderate", "A", "IM") == 0.399;
    assert Base("moderate", "A", "NM") == 0.171;
    assert Base("high", "A", "PM") == 0.76;
  }

  /** The self-test row (high, B, PM, ["no_phase"]) expects "high", but the formula gives
      0.8 * 0.75 * 1.0 * (1 - 0.15) = 0.51, which is "moderate". */
  lemma SelfTestRowDisagrees()
    ensures ComputeRiskScore("high", "B", "PM", Some(["no_phase"]), None).riskScore == 0.51
    ensures ComputeRiskScore("high", "B", "PM", Some(["no_phase"]), None).category == "moderate"
  {
    Weights();
    UpperKeeps("B");
    MultiplierAtLeastOne(None);
    PenaltyOfOne("no_phase");
    assert Base("high", "B", "PM") == 0.6;
  }

  /** The renal-impairment-only context fires the renal rule alone: a multiplier of 1.1. */
  const RenalOnly: PatientContext := PatientContext([], [], true, false, None)

  lemma RenalOnlyMultiplier()
    ensures ContextMultiplier(Some(RenalOnly)) == 1.1
    ensures ContextNotes(Some(RenalOnly)) == ["renal_impairment"]
  {
    RenalOnlyRules();
    assert Product([Renal]) == Scale(Product([]), Renal);
    assert Notes([Renal]) == Notes([]) + [NoteText(Renal)];
  }

  lemma RenalOnlyRules()
    ensures ContextRules(Some(RenalOnly)) == [Renal]
  {
    var c := RenalOnly;
    assert !Fires(c, CoMed) && Fires(c, Renal) && !Fires(c, Hepatic) && !Fires(c, Age);
    assert FiringUpTo(c, 1) == FiringUpTo(c, 0) == [];
    assert FiringUpTo(c, 2) == [] + [Renal];
    assert FiringUpTo(c, 3) == [Renal];
    assert FiringUpTo(c, 4) == [Renal];
  }

  /** The module's usage example, (moderate, A, IM, ["missing_cnv"]) with renal impairment,
      scores 0.6 * 0.95 * 0.7 * 1.1 * (1 - 0.2) = 0.35112, category "low", with the renal
      note; the 0.319 written beside it leaves out the renal multiplier. */
  lemma UsageExample()
    ensures var r := ComputeRiskScore("moderate", "A", "IM", Some(["missing_cnv"]), Some(RenalOnly));
      r.riskScore == 0.35112 && r.category == "low" && r.contextNotes == ["renal_impairment"]
  {
    Weights();
    RenalOnlyMultiplier();
    PenaltyOfOne("missing_cnv");
    assert Base("moderate", "A", "IM") == 0.399;
    assert Raw("moderate", "A", "IM", 1.1) == 0.4389;
    assert Adjusted(0.4389, 0.2) == 0.35112;
  }

  lemma Weights()
    ensures SeverityWeight("critical") == 1.0 && SeverityWeight("moderate") == 0.6
    ensures SeverityWeight("high") == 0.8 && EvidenceConfidence("A") == 0.95
  {
    LowerKeeps("critical");
    LowerKeeps("moderate");
    LowerKeeps("high");
    UpperKeeps("A");
  }

  lemma PenaltyOfOne(flag: string)
    ensures MissingDataPenalty(Some([flag])) == if PenaltyOf(flag) < PenaltyCap then PenaltyOf(flag) else PenaltyCap
  {
    assert [flag][..0] == [];
    assert PenaltySum([flag]) == PenaltySum([]) + PenaltyOf(flag);
  }
}
