/** The report assembly of the pipeline orchestrator: the drug-to-gene map, the label and
    severity vocabularies, the quality flags, the assembled and the error report, the
    removal of internal keys, and the one-report-per-drug loop over a VCF parsed once.
    Clock reads, the LLM explanation and file I/O are parameters. */
module Pipeline {
  import opened Text
  import opened Frames
  import V = VcfToTable
  import P = PhenotypeCalculator
  import DV = DetectedVariants
  import DRM = DrugRiskMap
  import RS = RiskScoring

  // ---------------------------------------------------------------------------
  // The drug-to-gene map
  // ---------------------------------------------------------------------------

  /** Upper-cased drug name to the gene whose phenotype decides its risk. */
  const DrugToGene: map<string, string> := map[
    "CODEINE" := "CYP2D6", "CLOPIDOGREL" := "CYP2C19", "WARFARIN" := "CYP2C9",
    "SIMVASTATIN" := "SLCO1B1", "AZATHIOPRINE" := "TPMT", "FLUOROURACIL" := "DPYD",
    "5-FU" := "DPYD"]

  /** Genes whose phenotype needs copy-number data a SNP-only VCF lacks. */
  const GenesNeedCnv: set<string> := {"CYP2D6"}

  /** The drug names in sorted() order, as the error message lists them. */
  const SortedDrugs: seq<string> := ["5-FU", "AZATHIOPRINE", "CLOPIDOGREL", "CODEINE", "FLUOROURACIL", "SIMVASTATIN", "WARFARIN"]

  /** SortedDrugs is the key set of the map, in ascending order. */
  lemma SortedDrugsListsMap()
    ensures Sorted(SortedDrugs)
    ensures forall d :: d in SortedDrugs <==> d in DrugToGene
  {
    assert StrLess("5-FU", "AZATHIOPRINE");
    assert StrLess("AZATHIOPRINE", "CLOPIDOGREL");
    assert StrLess("CLOPIDOGREL", "CODEINE");
    assert StrLess("CODEINE", "FLUOROURACIL");
    assert StrLess("FLUOROURACIL", "SIMVASTATIN");
    assert StrLess("SIMVASTATIN", "WARFARIN");
    ChainSorted(SortedDrugs);
  }

  /** The drug key: the name stripped and upper-cased. */
  function DrugKey(drug: string): string {
    Upper(Strip(drug))
  }

  /** The message of the report for a drug outside the map. */
  function UnmappedMessage(drugKey: string): string {
    "Drug '" + drugKey + "' is not in the CPIC drug-gene map. Supported drugs: " + Join(SortedDrugs, ", ") + "."
  }

  const ParseFailedMessage: string := "VCF parsing failed."

  // ---------------------------------------------------------------------------
  // _map_risk_label and _severity_from_risk_category
  // ---------------------------------------------------------------------------

  /** The output vocabulary of the clinical action. */
  const Actions: set<string> := {"Safe", "Adjust Dosage", "Toxic", "Unknown"}

  /** _map_risk_label on `label or ""`, stripped: Safe stays Safe, the two dose labels
      become Adjust Dosage, the two avoidance labels become Toxic, anything else Unknown;
      an absent label is Unknown. */
  function MapRiskLabel(riskLabel: Option<string>): (r: string)
    ensures r in Actions
    ensures riskLabel.None? ==> r == "Unknown"
  {
    match riskLabel
    case None => "Unknown"
    case Some(l) => ActionOf(Strip(l))
  }

  /** The action of a stripped label, one clause per output. */
  function ActionOf(l: string): (r: string)
    ensures r == "Safe" <==> l == "Safe"
    ensures r == "Adjust Dosage" <==> l == "Adjust Dose" || l == "Reduced Efficacy"
    ensures r == "Toxic" <==> l == "Avoid" || l == "Contraindicated"
    ensures r == "Unknown" <==> l !in {"Safe", "Adjust Dose", "Reduced Efficacy", "Avoid", "Contraindicated"}
  {
    if l == "Safe" then "Safe"
    else if l in {"Adjust Dose", "Reduced Efficacy"} then "Adjust Dosage"
    else if l in {"Avoid", "Contraindicated"} then "Toxic"
    else "Unknown"
  }

  /** The labels that pass through the risk lookup map to a known action; "Unknown"
      stays Unknown, so the action is Unknown exactly when the lookup missed. */
  lemma LookupActions(g: string, p: string, d: string)
    ensures var r := DRM.Lookup(g, p, d);
      MapRiskLabel(Some(r.riskLabel)) == "Unknown" <==> DRM.EntryAt(g, d, p).None?
  {
    DRM.HitOrUnknown(g, p, d);
    var l := DRM.Lookup(g, p, d).riskLabel;
    LabelAction(l);
  }

  lemma LabelAction(l: string)
    requires l in DRM.TableLabels || l == "Unknown"
    ensures ActionOf(Strip(l)) == "Unknown" <==> l == "Unknown"
  {
    StripKeeps(l);
  }

  /** The output severities. */
  const OutputSeverities: set<string> := {"none", "low", "moderate", "high", "critical"}

  /** _severity_from_risk_category on `category or ""`, stripped and lower-cased: the four
      upper categories pass through, "minimal" and anything else become "none". */
  function SeverityFromRiskCategory(category: Option<string>): (r: string)
    ensures r in OutputSeverities
    ensures r != "none" <==> category.Some? && Lower(Strip(category.value)) in {"low", "moderate", "high", "critical"}
    ensures r != "none" ==> r == Lower(Strip(category.value))
  {
    var c := Lower(Strip(if category.Some? then category.value else ""));
    if c == "minimal" then "none"
    else if c in {"low", "moderate", "high", "critical"} then c
    else "none"
  }

  /** Every category of the score maps to its own name, except minimal, which maps to none. */
  lemma CategorySeverity(score: real)
    ensures var c := RS.ScoreToCategory(score);
      SeverityFromRiskCategory(Some(c)) == (if c == "minimal" then "none" else c)
  {
    var c := RS.ScoreToCategory(score);
    LowerWord(c);
  }

  /** A word of small letters is its own stripped, lower-cased form. */
  lemma LowerWord(s: string)
    requires s != [] && forall i :: 0 <= i < |s| ==> 'a' <= s[i] <= 'z'
    ensures Lower(Strip(s)) == s
  {
    StripKeeps(s);
    LowerKeeps(s);
  }

  // ---------------------------------------------------------------------------
  // _compute_flags
  // ---------------------------------------------------------------------------

  /** The quality flags, in the order _compute_flags appends them; their names are the
      penalty keys of the risk score. */
  datatype Flag = MissingCnv | NoPhase | HapB3ProxyOnly | UnknownStar

  function FlagName(f: Flag): string {
    match f
    case MissingCnv => "missing_cnv"
    case NoPhase => "no_phase"
    case HapB3ProxyOnly => "HapB3_proxy_only"
    case UnknownStar => "unknown_star"
  }

  /** The position of a flag in the append order. */
  function Rank(f: Flag): nat {
    match f
    case MissingCnv => 0
    case NoPhase => 1
    case HapB3ProxyOnly => 2
    case UnknownStar => 3
  }

  lemma FlagNameInjective(f: Flag, g: Flag)
    ensures FlagName(f) == FlagName(g) <==> f == g
  {
    if f != g {
      assert |FlagName(f)| != |FlagName(g)|;
    }
  }

  /** The flags appear in append order, so none appears twice. */
  predicate Ranked(s: seq<Flag>) {
    forall i, j :: 0 <= i < j < |s| ==> Rank(s[i]) < Rank(s[j])
  }

  /** The flag list as the strings the source holds. */
  function Names(fs: seq<Flag>): (r: seq<string>)
    ensures |r| == |fs| && forall i :: 0 <= i < |fs| ==> r[i] == FlagName(fs[i])
  {
    seq(|fs|, i requires 0 <= i < |fs| => FlagName(fs[i]))
  }

  lemma NamesSnoc(fs: seq<Flag>, f: Flag)
    ensures Names(fs + [f]) == Names(fs) + [FlagName(f)]
  {
  }

  /** A flag's name is in the string list exactly when the flag is in the list. */
  lemma NamesIn(fs: seq<Flag>, f: Flag)
    ensures FlagName(f) in Names(fs) <==> f in fs
  {
    if FlagName(f) in Names(fs) {
      var i :| 0 <= i < |fs| && Names(fs)[i] == FlagName(f);
      FlagNameInjective(f, fs[i]);
    }
  }

  predicate Unphased(note: Option<string>) {
    note.Some? && note.value != "" && Contains(note.value, "Unphased")
  }

  predicate ProxyCalled(note: Option<string>) {
    note.Some? && note.value != "" && Contains(Lower(note.value), "proxy")
  }

  /** One check of _compute_flags: append the flag when the condition holds. */
  function Check(s: seq<Flag>, cond: bool, f: Flag): seq<Flag> {
    if cond then s + [f] else s
  }

  lemma CheckFacts(s: seq<Flag>, cond: bool, f: Flag)
    requires Ranked(s) && forall i :: 0 <= i < |s| ==> Rank(s[i]) < Rank(f)
    ensures Ranked(Check(s, cond, f))
    ensures forall g :: g in Check(s, cond, f) <==> g in s || (cond && g == f)
    ensures forall i :: 0 <= i < |Check(s, cond, f)| ==> Rank(Check(s, cond, f)[i]) <= Rank(f)
  {
  }

  /** The flags for the outcomes of the four checks: each flag exactly when its check
      holds, in append order. */
  function Flags(cnv: bool, unphased: bool, proxy: bool, unknown: bool): (r: seq<Flag>)
    ensures MissingCnv in r <==> cnv
    ensures NoPhase in r <==> unphased
    ensures HapB3ProxyOnly in r <==> proxy
    ensures UnknownStar in r <==> unknown
    ensures Ranked(r)
  {
    var a := Check([], cnv, MissingCnv);
    CheckFacts([], cnv, MissingCnv);
    var b := Check(a, unphased, NoPhase);
    CheckFacts(a, unphased, NoPhase);
    var c := Check(b, proxy, HapB3ProxyOnly);
    CheckFacts(b, proxy, HapB3ProxyOnly);
    var d := Check(c, unknown, UnknownStar);
    CheckFacts(c, unknown, UnknownStar);
    d
  }

  /** The flags of a gene call: missing_cnv for a gene that needs CNV data (upper-cased),
      no_phase for an "Unphased" note, HapB3_proxy_only for a note mentioning a proxy in
      any case, unknown_star for an Unknown phenotype. */
  function FlagsOf(gene: string, phenotype: string, note: Option<string>): seq<Flag> {
    Flags(Upper(gene) in GenesNeedCnv, Unphased(note), ProxyCalled(note), phenotype == "Unknown")
  }

  /** _compute_flags: the list the four checks append to. */
  method ComputeFlags(gene: string, diplotype: string, phenotype: string, note: Option<string>) returns (flags: seq<string>)
    ensures flags == Names(FlagsOf(gene, phenotype, note))
  {
    ghost var fs: seq<Flag> := [];
    flags := [];
    assert flags == Names(fs);
    if Upper(gene) in GenesNeedCnv {
      NamesSnoc(fs, MissingCnv);
      flags, fs := flags + ["missing_cnv"], fs + [MissingCnv];
    }
    if note.Some? && note.value != "" && Contains(note.value, "Unphased") {
      NamesSnoc(fs, NoPhase);
      flags, fs := flags + ["no_phase"], fs + [NoPhase];
    }
    if note.Some? && note.value != "" && Contains(Lower(note.value), "proxy") {
      NamesSnoc(fs, HapB3ProxyOnly);
      flags, fs := flags + ["HapB3_proxy_only"], fs + [HapB3ProxyOnly];
    }
    if phenotype == "Unknown" {
      NamesSnoc(fs, UnknownStar);
      flags, fs := flags + ["unknown_star"], fs + [UnknownStar];
    }
    assert fs == FlagsOf(gene, phenotype, note);
  }

  // ---------------------------------------------------------------------------
  // The report
  // ---------------------------------------------------------------------------

  datatype Assessment = Assessment(riskLabel: string, confidenceScore: real, severity: string)

  /** The pharmacogenomic profile. The internal-only keys flags, notes and activity_score
      are fields holding None when the key is absent; the source never sets
      activity_score. */
  datatype Profile = Profile(
    primaryGene: string, diplotype: string, phenotype: string,
    detectedVariants: seq<DV.DetectedVariant>,
    flags: Option<seq<string>>, notes: Option<Option<string>>, activityScore: Option<Option<nat>>)

  /** What the clinical recommendation text is built from; the wording is not modelled.
      The activity score is in quarter units, as PhenotypeCalculator.ActivityScore gives it. */
  datatype Guideline = Guideline(
    drug: string, gene: string, diplotype: string, phenotype: string, activityScore: Option<nat>,
    action: string,
    severity: string, confidenceScore: real, evidenceLevel: string, cpicRecommendation: DRM.Guidance,
    dataQualityNotes: Option<string>, flags: seq<string>, cpicVersion: string)

  datatype Recommendation = Recommendation(
    cpicGuideline: Option<Guideline>, dataQualityNotes: Option<string>, action: string)

  /** The LLM explanation: the fields of the model's JSON answer, or an error message. */
  datatype Explanation = Explained(fields: map<string, string>) | ExplanationError(message: string)

  datatype Quality = Quality(vcfParsingSuccess: bool, totalVariants: nat, genesCovered: nat)

  datatype Report = Report(
    patientId: string, drug: string, timestamp: string,
    assessment: Assessment, profile: Profile, recommendation: Recommendation,
    explanation: Option<Explanation>, quality: Quality)

  /** What every report keeps: the action is one of the four and is the same in the
      assessment and the recommendation, the severity is one of the five, the
      confidence lies in [0, 1]. */
  predicate WellFormed(r: Report) {
    && r.assessment.riskLabel in Actions
    && r.recommendation.action == r.assessment.riskLabel
    && r.assessment.severity in OutputSeverities
    && 0.0 <= r.assessment.confidenceScore <= 1.0
  }

  /** _error_report: the minimal report for a drug that cannot be assessed. */
  function ErrorReport(patientId: string, drug: string, timestamp: string, message: string): (r: Report)
    ensures WellFormed(r)
    ensures r.patientId == patientId && r.drug == drug && r.timestamp == timestamp
    ensures r.assessment.riskLabel == "Unknown" && r.recommendation.action == "Unknown"
    ensures r.assessment.severity == "none" && r.assessment.confidenceScore == 0.0
    ensures r.profile.phenotype == "Unknown" && r.profile.detectedVariants == []
    ensures r.recommendation.cpicGuideline.None? && r.recommendation.dataQualityNotes == Some(message)
    ensures r.explanation == Some(ExplanationError(message))
    ensures !r.quality.vcfParsingSuccess && r.quality.totalVariants == 0 && r.quality.genesCovered == 0
    ensures Final(r.profile)
  {
    Report(patientId, drug, timestamp,
      Assessment("Unknown", 0.0, "none"),
      Profile("", "", "Unknown", [], None, None, None),
      Recommendation(None, Some(message), "Unknown"),
      Some(ExplanationError(message)),
      Quality(false, 0, 0))
  }

  /** Whether the profile holds none of the internal-only keys. */
  predicate Final(p: Profile) {
    p.flags.None? && p.notes.None? && p.activityScore.None?
  }

  /** _finalize_report_for_output: drop flags, notes and activity_score from the profile
      and change nothing else. */
  function Finalize(r: Report): (f: Report)
    ensures Final(f.profile)
    ensures f.(profile := r.profile) == r
    ensures f.profile.(flags := r.profile.flags, notes := r.profile.notes, activityScore := r.profile.activityScore) == r.profile
  {
    r.(profile := r.profile.(flags := None, notes := None, activityScore := None))
  }

  /** Finalizing twice is finalizing once; a finalized report is left as it is, and a
      well-formed one stays well-formed. */
  lemma FinalizeIdempotent(r: Report)
    ensures Finalize(Finalize(r)) == Finalize(r)
    ensures Final(r.profile) ==> Finalize(r) == r
    ensures WellFormed(r) ==> WellFormed(Finalize(r))
  {
  }

  // ---------------------------------------------------------------------------
  // The parts of _build_report: notes, manual review, confidence
  // ---------------------------------------------------------------------------

  const CnvNote: string := "CYP2D6 copy number not assessed (SNP-only VCF). CNV can change effective activity score."
  const UnphasedNote: string := "Diplotype is unphased; trans configuration assumed."
  const ProxyNote: string := "DPYD HapB3 called from proxy SNP rs56038477 only; confirm rs75017182."
  const UnknownStarNote: string := "One or more star alleles not in CPIC activity table; phenotype set to Unknown."

  /** The sentence a raised flag contributes; no_phase repeats the diplotype note when
      there is a non-empty one. */
  function NoteOf(f: Flag, diplotypeNote: Option<string>): string {
    match f
    case MissingCnv => CnvNote
    case NoPhase => if diplotypeNote.Some? && diplotypeNote.value != "" then diplotypeNote.value else UnphasedNote
    case HapB3ProxyOnly => ProxyNote
    case UnknownStar => UnknownStarNote
  }

  /** The note parts: one sentence per raised flag, in flag order, then the context notes. */
  function NoteParts(fs: seq<Flag>, diplotypeNote: Option<string>, contextNotes: seq<string>): (r: seq<string>)
    ensures |r| == |fs| + |contextNotes|
    ensures forall i :: 0 <= i < |fs| ==> r[i] == NoteOf(fs[i], diplotypeNote)
    ensures r[|fs|..] == contextNotes
  {
    seq(|fs|, i requires 0 <= i < |fs| => NoteOf(fs[i], diplotypeNote)) + contextNotes
  }

  /** The notes: the parts joined by single spaces, None when there are none. */
  function Notes(parts: seq<string>): (r: Option<string>)
    ensures r.None? <==> parts == []
  {
    if parts == [] then None else Some(Join(parts, " "))
  }

  /** Without a patient context the report has notes exactly when a flag is raised. */
  lemma NotesIffFlagged(gene: string, phenotype: string, note: Option<string>)
    ensures var fs := FlagsOf(gene, phenotype, note);
      Notes(NoteParts(fs, note, RS.ContextNotes(None))).None? <==> Names(fs) == []
  {
  }

  /** require_manual_review: a Contraindicated or Unknown label, any flag, or a high or
      critical category. */
  predicate ManualReview(riskLabel: string, flags: seq<string>, category: string) {
    riskLabel in {"Contraindicated", "Unknown"} || flags != [] || category in {"critical", "high"}
  }

  /** A CYP2D6 call always needs review: its missing_cnv flag is always raised. */
  lemma Cyp2d6Reviewed(gene: string, phenotype: string, note: Option<string>, riskLabel: string, category: string)
    requires Upper(gene) == "CYP2D6"
    ensures ManualReview(riskLabel, Names(FlagsOf(gene, phenotype, note)), category)
  {
    var fs := FlagsOf(gene, phenotype, note);
    assert MissingCnv in fs;
  }

  /** A lookup miss always needs review, through its Unknown label. */
  lemma MissReviewed(g: string, p: string, d: string, flags: seq<string>, category: string)
    requires DRM.EntryAt(g, d, p).None?
    ensures ManualReview(DRM.Lookup(g, p, d).riskLabel, flags, category)
  {
  }

  /** The confidence of the report: the lookup's confidence scaled by one minus the
      penalty of the flags, clamped to [0, 1]. */
  function AdjustedConfidence(base: real, flags: seq<string>): (r: real)
    ensures 0.0 <= r <= 1.0
    ensures 0.0 <= base ==> r <= base
    ensures 0.0 <= base <= 1.0 && RS.PenaltySum(flags) == 0.0 ==> r == base
  {
    var p := RS.MissingDataPenalty(Some(flags));
    assert 0.0 <= base ==> base * (1.0 - p) <= base by {
      if 0.0 <= base {
        RS.MulLeft(base, 1.0 - p, 1.0);
      }
    }
    RS.Clamp(base * (1.0 - p))
  }

  /** The missing_cnv penalty caps a CYP2D6 confidence at 0.95 x 0.8. */
  lemma Cyp2d6Confidence(gene: string, phenotype: string, note: Option<string>, base: real)
    requires Upper(gene) == "CYP2D6" && 0.0 <= base <= 0.95
    ensures AdjustedConfidence(base, Names(FlagsOf(gene, phenotype, note))) <= 0.76
  {
    var flags := Names(FlagsOf(gene, phenotype, note));
    CnvFirst(gene, phenotype, note);
    CnvCapped(base, flags[1..]);
  }

  lemma CnvCapped(base: real, rest: seq<string>)
    requires 0.0 <= base <= 0.95
    ensures AdjustedConfidence(base, ["missing_cnv"] + rest) <= 0.76
  {
    CnvPenalty(rest);
    var p := RS.MissingDataPenalty(Some(["missing_cnv"] + rest));
    var q := 1.0 - p;
    RS.MulLeft(base, q, 0.8);
    assert base * q <= base * 0.8 <= 0.76;
    RS.MulNonNegative(base, q);
    assert AdjustedConfidence(base, ["missing_cnv"] + rest) == RS.Clamp(base * q);
  }

  /** missing_cnv heads the flags of a CYP2D6 call. */
  lemma CnvFirst(gene: string, phenotype: string, note: Option<string>)
    requires Upper(gene) == "CYP2D6"
    ensures |Names(FlagsOf(gene, phenotype, note))| > 0
    ensures Names(FlagsOf(gene, phenotype, note)) == ["missing_cnv"] + Names(FlagsOf(gene, phenotype, note))[1..]
  {
    var fs := FlagsOf(gene, phenotype, note);
    assert MissingCnv in fs;
    var i :| 0 <= i < |fs| && fs[i] == MissingCnv;
  }

  /** A flag list headed by missing_cnv costs at least its 0.20. */
  lemma CnvPenalty(rest: seq<string>)
    ensures RS.MissingDataPenalty(Some(["missing_cnv"] + rest)) >= 0.2
  {
    RS.PenaltySumAppend(["missing_cnv"], rest);
    RS.PenaltyOfOne("missing_cnv");
  }

  // ---------------------------------------------------------------------------
  // _build_report
  // ---------------------------------------------------------------------------

  /** The index of the first row whose Gene, upper-cased, is the gene upper-cased. */
  function FirstGeneRow(rows: seq<Row>, gene: string): (r: Option<nat>)
    ensures r.None? <==> forall i :: 0 <= i < |rows| ==> Upper(rows[i].gene) != Upper(gene)
    ensures r.Some? ==> r.value < |rows| && Upper(rows[r.value].gene) == Upper(gene)
    ensures r.Some? ==> forall i :: 0 <= i < r.value ==> Upper(rows[i].gene) != Upper(gene)
  {
    if rows == [] then None
    else if Upper(rows[0].gene) == Upper(gene) then Some(0)
    else
      var r := FirstGeneRow(rows[1..], gene);
      if r.None? then None else Some(r.value + 1)
  }

  /** str(cell or default): an empty cell takes the default, and an NA cell raises, as
      its truth value is taken. */
  function CellOr(cell: Option<string>, default: string): (r: Result<string>)
    ensures cell.None? <==> r.Err?
    ensures r.Ok? ==> r.value == (if cell.value == "" then default else cell.value)
  {
    if cell.None? then Err(P.NaTruthError)
    else if cell.value == "" then Ok(default)
    else Ok(cell.value)
  }

  /** The diplotype, phenotype and diplotype note the report uses for the gene. */
  datatype GeneCall = GeneCall(diplotype: string, phenotype: string, note: Option<string>)

  const DefaultCall: GeneCall := GeneCall("*1/*1", "Unknown", None)

  /** The first row of the gene gives the call; no row of the gene gives the reference call, Unknown. */
  function GeneCallOf(rows: seq<Row>, gene: string): (r: Result<GeneCall>)
    ensures FirstGeneRow(rows, gene).None? ==> r == Ok(DefaultCall)
    ensures (var i := FirstGeneRow(rows, gene); i.Some? ==>
      (r.Err? <==> rows[i.value].diplotype.None? || rows[i.value].phenotype.None?))
  {
    match FirstGeneRow(rows, gene)
    case None => Ok(DefaultCall)
    case Some(i) =>
      var row := rows[i];
      var d := CellOr(row.diplotype, "*1/*1");
      var p := CellOr(row.phenotype, "Unknown");
      if d.Err? then Err(d.message)
      else if p.Err? then Err(p.message)
      else Ok(GeneCall(d.value, p.value, row.note))
  }

  /** _build_report without a patient context: the report of the primary gene's call
      and of the drug risk of its phenotype, or the error of an NA cell in its first row. */
  function BuildReport(patientId: string, drugKey: string, timestamp: string, primaryGene: string,
                       f: Frame, detected: seq<DV.DetectedVariant>, total: nat, genes: nat, vcfOk: bool): Result<Report>
  {
    match GeneCallOf(f.rows, primaryGene)
    case Err(m) => Err(m)
    case Ok(c) =>
      var risk := DRM.GetDrugRisk(primaryGene, c.phenotype, drugKey);
      Ok(Assemble(patientId, drugKey, timestamp, primaryGene, c, risk, detected, total, genes, vcfOk))
  }

  /** The report of a gene call and its drug risk: the flags of the call, the action of
      the risk label, the penalised confidence and the notes, which are present exactly
      when a flag is raised. */
  function Assemble(patientId: string, drugKey: string, timestamp: string, primaryGene: string,
                    c: GeneCall, risk: DRM.DrugRisk, detected: seq<DV.DetectedVariant>,
                    total: nat, genes: nat, vcfOk: bool): (r: Report)
    ensures WellFormed(r)
    ensures r.patientId == patientId && r.drug == drugKey && r.timestamp == timestamp
    ensures r.assessment.riskLabel == MapRiskLabel(Some(risk.riskLabel))
    ensures r.profile.flags == Some(Names(FlagsOf(primaryGene, c.phenotype, c.note)))
    ensures r.assessment.confidenceScore == AdjustedConfidence(risk.confidenceScore, r.profile.flags.value)
    ensures r.profile.notes.Some? && (r.profile.notes.value.None? <==> r.profile.flags.value == [])
    ensures r.recommendation.dataQualityNotes == r.profile.notes.value
    ensures r.profile.diplotype == c.diplotype && r.profile.phenotype == c.phenotype
    ensures r.profile.detectedVariants == detected && r.explanation.None?
    ensures r.quality == Quality(vcfOk, total, genes)
    ensures r.recommendation.cpicGuideline.Some?
    ensures r.recommendation.cpicGuideline.value.activityScore == P.ActivityScore(primaryGene, c.diplotype)
    ensures Upper(Strip(primaryGene)) !in {"CYP2D6", "DPYD"} ==> r.recommendation.cpicGuideline.value.activityScore.None?
  {
    var fs := FlagsOf(primaryGene, c.phenotype, c.note);
    var flags := Names(fs);
    var a := AssessmentOf(risk, c.phenotype, flags);
    var notes := Notes(NoteParts(fs, c.note, RS.ContextNotes(None)));
    NotesIffFlagged(primaryGene, c.phenotype, c.note);
    var guideline := Guideline(drugKey, primaryGene, c.diplotype, c.phenotype,
      P.ActivityScore(primaryGene, c.diplotype), a.riskLabel, a.severity,
      a.confidenceScore, risk.evidenceLevel, risk.recommendation, notes, flags, risk.cpicVersion);
    Report(patientId, drugKey, timestamp, a,
      Profile(primaryGene, c.diplotype, c.phenotype, detected, Some(flags), Some(notes), None),
      Recommendation(Some(guideline), notes, a.riskLabel),
      None,
      Quality(vcfOk, total, genes))
  }

  /** The risk assessment of a lookup: its label mapped to an action, its confidence
      penalised by the flags, and the severity of the score's category. */
  function AssessmentOf(risk: DRM.DrugRisk, phenotype: string, flags: seq<string>): (a: Assessment)
    ensures a.riskLabel == MapRiskLabel(Some(risk.riskLabel))
    ensures a.confidenceScore == AdjustedConfidence(risk.confidenceScore, flags)
    ensures a.riskLabel in Actions && a.severity in OutputSeverities && 0.0 <= a.confidenceScore <= 1.0
    ensures a.severity == SeverityFromRiskCategory(Some(
      RS.ComputeRiskScore(risk.severity, risk.evidenceLevel, phenotype, Some(flags), None).category))
  {
    var score := RS.ComputeRiskScore(risk.severity, risk.evidenceLevel, phenotype, Some(flags), None);
    Assessment(MapRiskLabel(Some(risk.riskLabel)), AdjustedConfidence(risk.confidenceScore, flags),
      SeverityFromRiskCategory(Some(score.category)))
  }

  // ---------------------------------------------------------------------------
  // _parse_vcf_once, run_pipeline and run_pipeline_multi
  // ---------------------------------------------------------------------------

  /** What _parse_vcf_once returns: whether the VCF was read, the annotated frame, the
      detected variants, the number of kept records and the number of genes. */
  datatype Parsed = Parsed(vcfOk: bool, frame: Frame, detected: seq<DV.DetectedVariant>,
                           totalVariants: nat, genesCovered: nat)

  /** The result of an unreadable VCF: an empty frame and nothing detected. */
  const NotParsed: Parsed := Parsed(false, Frame({}, []), [], 0, 0)

  /** _parse_vcf_once as a value: NotParsed when the file cannot be read; otherwise the
      diplotyped and annotated table, whose errors propagate, with its detected variants,
      or none when generating them fails. */
  function ParsedOf(file: Option<seq<V.Variant>>): Result<Parsed> {
    match file
    case None => Ok(NotParsed)
    case Some(vs) =>
      var g := V.ParsePgx(vs);
      match P.Diplotyped(V.JsonToFrame(V.GroupsToJson(g)))
      case Err(m) => Err(m)
      case Ok(d) =>
        match P.AnnotatePhenotype(d)
        case Err(m) => Err(m)
        case Ok(a) =>
          var detected := match DV.Detected(a) case Ok(det) => det case Err(_) => [];
          Ok(Parsed(true, a, detected, V.TotalRecords(g), |g|))
  }

  /** Every row has a diplotype and a phenotype. */
  predicate Called(f: Frame) {
    forall j :: 0 <= j < |f.rows| ==> f.rows[j].diplotype.Some? && f.rows[j].phenotype.Some?
  }

  /** The table of a read VCF is diplotyped without error, and every row, being of a
      pharmacogene, gets a diplotype. */
  lemma TableDiplotyped(vs: seq<V.Variant>)
    ensures var d := P.Diplotyped(V.JsonToFrame(V.GroupsToJson(V.ParsePgx(vs))));
      && d.Ok? && "Diplotype" in d.value.columns
      && forall j :: 0 <= j < |d.value.rows| ==> d.value.rows[j].diplotype.Some?
  {
    var f := V.JsonToFrame(V.GroupsToJson(V.ParsePgx(vs)));
    TableHasRequired();
    var d := P.Diplotyped(f).value;
    assert |d.rows| == |f.rows|;
    forall j | 0 <= j < |d.rows|
      ensures d.rows[j].diplotype.Some?
    {
      assert d.rows[j] == P.CalledRow("STAR" in f.columns, f.rows, f.rows[j]);
      TableRowGene(vs, j);
      P.OneCallPerGene("STAR" in f.columns, f.rows, j, j);
    }
  }

  /** Each row of the table of a read VCF is of a pharmacogene. */
  lemma TableRowGene(vs: seq<V.Variant>, j: nat)
    requires j < |V.JsonToFrame(V.GroupsToJson(V.ParsePgx(vs))).rows|
    ensures V.JsonToFrame(V.GroupsToJson(V.ParsePgx(vs))).rows[j].gene in P.PgxGenes
  {
    V.TableGenes(vs);
    assert V.PgxGenes == P.PgxGenes;
  }

  /** A diplotyped table whose rows all have a diplotype is annotated without error, and
      then every row has a diplotype and a phenotype. */
  lemma AnnotatedCalled(d: Frame)
    requires "Diplotype" in d.columns
    requires forall j :: 0 <= j < |d.rows| ==> d.rows[j].diplotype.Some?
    ensures P.AnnotatePhenotype(d).Ok? && Called(P.AnnotatePhenotype(d).value)
  {
    var a := P.AnnotatePhenotype(d);
    assert a.Ok?;
    forall j | 0 <= j < |a.value.rows|
      ensures a.value.rows[j].diplotype.Some?
    {
      assert a.value.rows[j] == d.rows[j].(phenotype := a.value.rows[j].phenotype);
    }
  }

  /** Once the VCF is read, nothing after it raises: every row of the table is of a
      pharmacogene, so every row gets a diplotype, and then a phenotype. */
  lemma ParsedCalled(file: Option<seq<V.Variant>>)
    ensures ParsedOf(file).Ok?
    ensures Called(ParsedOf(file).value.frame)
  {
    if file.Some? {
      TableDiplotyped(file.value);
      AnnotatedCalled(P.Diplotyped(V.JsonToFrame(V.GroupsToJson(V.ParsePgx(file.value)))).value);
    }
  }

  /** _parse_vcf_once, which never raises. */
  method ParseVcfOnce(file: Option<seq<V.Variant>>) returns (parsed: Parsed)
    ensures Ok(parsed) == ParsedOf(file)
    ensures Called(parsed.frame)
  {
    var groups := V.ParsePgxVcf(file);
    if groups.None? {
      return NotParsed;
    }
    var g := groups.value;
    var df := V.JsonToDataFrame(V.GroupsToJson(g));
    var d := P.ComputeDiplotype(df);
    P.DiplotypedUnique(df, d);
    TableDiplotyped(file.value);
    AnnotatedCalled(d.value);
    var a := P.AnnotatePhenotype(d.value);
    var det := DV.GenerateDetectedVariants(a.value);
    var detected := if det.Ok? then det.value else [];
    return Parsed(true, a.value, detected, V.TotalRecords(g), |g|);
  }

  /** patient_id or the VCF file's stem: an empty identifier takes the stem. */
  function PatientOf(patientId: Option<string>, stem: string): (r: string)
    ensures patientId.Some? && patientId.value != "" ==> r == patientId.value
    ensures patientId.None? || patientId.value == "" ==> r == stem
  {
    if patientId.Some? && patientId.value != "" then patientId.value else stem
  }

  /** The gene of a drug key, if the map has one. */
  function GeneOf(key: string): (r: Option<string>)
    ensures r.Some? <==> key in DrugToGene
    ensures r.Some? ==> r.value == DrugToGene[key]
  {
    if key in DrugToGene then Some(DrugToGene[key]) else None
  }

  /** The finalized report of one drug over a parsed VCF: the error report of a drug
      outside the map, then of an unread VCF, else the built report with the explanation
      added when the LLM is enabled. */
  function ReportFor(parsed: Parsed, patientId: string, timestamp: string, drug: string,
                     enableLlm: bool, explain: Report -> Explanation): Result<Report>
  {
    var key := DrugKey(drug);
    match GeneOf(key)
    case None => Ok(Finalize(ErrorReport(patientId, key, timestamp, UnmappedMessage(key))))
    case Some(gene) =>
      if !parsed.vcfOk then Ok(Finalize(ErrorReport(patientId, key, timestamp, ParseFailedMessage)))
      else
        match BuildReport(patientId, key, timestamp, gene, parsed.frame,
                          parsed.detected, parsed.totalVariants, parsed.genesCovered, true)
        case Err(m) => Err(m)
        case Ok(rep) => Ok(Finalize(if enableLlm then rep.(explanation := Some(explain(rep))) else rep))
  }

  /** Over a table whose rows all have a diplotype and a phenotype, every drug gets a report. */
  lemma CalledReports(parsed: Parsed, patientId: string, timestamp: string, drug: string,
                      enableLlm: bool, explain: Report -> Explanation)
    requires Called(parsed.frame)
    ensures ReportFor(parsed, patientId, timestamp, drug, enableLlm, explain).Ok?
  {
  }

  /** Every report run_pipeline gives is finalized and well formed, and echoes the
      patient, the normalised drug key and the timestamp. */
  lemma ReportForEchoes(parsed: Parsed, patientId: string, timestamp: string, drug: string,
                        enableLlm: bool, explain: Report -> Explanation)
    requires ReportFor(parsed, patientId, timestamp, drug, enableLlm, explain).Ok?
    ensures var r := ReportFor(parsed, patientId, timestamp, drug, enableLlm, explain).value;
      && WellFormed(r) && Final(r.profile)
      && r.patientId == patientId && r.drug == DrugKey(drug) && r.timestamp == timestamp
  {
    var key := DrugKey(drug);
    if key in DrugToGene && parsed.vcfOk {
      var b := BuildReport(patientId, key, timestamp, DrugToGene[key], parsed.frame,
                           parsed.detected, parsed.totalVariants, parsed.genesCovered, true);
      var rep := if enableLlm then b.value.(explanation := Some(explain(b.value))) else b.value;
      assert WellFormed(rep);
    }
  }

  /** A drug outside the map gets the unsupported-drug error report, whatever the VCF. */
  lemma UnmappedReport(parsed: Parsed, patientId: string, timestamp: string, drug: string,
                       enableLlm: bool, explain: Report -> Explanation)
    requires DrugKey(drug) !in DrugToGene
    ensures ReportFor(parsed, patientId, timestamp, drug, enableLlm, explain)
      == Ok(Finalize(ErrorReport(patientId, DrugKey(drug), timestamp, UnmappedMessage(DrugKey(drug)))))
  {
  }

  /** A mapped drug over an unread VCF gets the parse-failure error report. */
  lemma UnreadReport(parsed: Parsed, patientId: string, timestamp: string, drug: string,
                     enableLlm: bool, explain: Report -> Explanation)
    requires DrugKey(drug) in DrugToGene && !parsed.vcfOk
    ensures ReportFor(parsed, patientId, timestamp, drug, enableLlm, explain)
      == Ok(Finalize(ErrorReport(patientId, DrugKey(drug), timestamp, ParseFailedMessage)))
  {
  }

  /** The results of f over xs, in order, or the first error. */
  function Collect<T, R>(xs: seq<T>, f: T -> Result<R>): Result<seq<R>> {
    if xs == [] then Ok([])
    else
      match Collect(xs[..|xs| - 1], f)
      case Err(m) => Err(m)
      case Ok(rs) =>
        match f(xs[|xs| - 1])
        case Err(m) => Err(m)
        case Ok(r) => Ok(rs + [r])
  }

  /** Collect fails exactly when f fails on some element, with the first such error;
      otherwise it holds f's result for each element, in order. */
  lemma {:induction false} CollectFacts<T, R>(xs: seq<T>, f: T -> Result<R>)
    ensures Collect(xs, f).Ok? <==> forall i :: 0 <= i < |xs| ==> f(xs[i]).Ok?
    ensures Collect(xs, f).Ok? ==> |Collect(xs, f).value| == |xs|
    ensures Collect(xs, f).Ok? ==> forall i :: 0 <= i < |xs| ==> f(xs[i]) == Ok(Collect(xs, f).value[i])
    ensures Collect(xs, f).Err? ==>
      exists i :: 0 <= i < |xs| && f(xs[i]) == Err(Collect(xs, f).message) && forall k :: 0 <= k < i ==> f(xs[k]).Ok?
  {
    if xs != [] {
      var init := xs[..|xs| - 1];
      CollectFacts(init, f);
      assert forall i :: 0 <= i < |init| ==> xs[i] == init[i];
      if Collect(init, f).Err? {
        var i :| 0 <= i < |init| && f(init[i]) == Err(Collect(init, f).message)
          && forall k :: 0 <= k < i ==> f(init[k]).Ok?;
        assert f(xs[i]) == Err(Collect(xs, f).message);
      } else if f(xs[|xs| - 1]).Err? {
        assert f(xs[|xs| - 1]) == Err(Collect(xs, f).message);
      }
    }
  }

  /** The report of each drug, in order, over one parse; the first error raised stops the run. */
  function Reports(parsed: Parsed, patientId: string, timestamp: string, drugs: seq<string>,
                   enableLlm: bool, explain: Report -> Explanation): Result<seq<Report>>
  {
    Collect(drugs, drug => ReportFor(parsed, patientId, timestamp, drug, enableLlm, explain))
  }

  /** Over a table whose rows all have a diplotype and a phenotype, no drug's report raises. */
  lemma CalledCollects(parsed: Parsed, patientId: string, timestamp: string, drugs: seq<string>,
                       enableLlm: bool, explain: Report -> Explanation)
    requires Called(parsed.frame)
    ensures Reports(parsed, patientId, timestamp, drugs, enableLlm, explain).Ok?
  {
    var f := drug => ReportFor(parsed, patientId, timestamp, drug, enableLlm, explain);
    forall i | 0 <= i < |drugs|
      ensures f(drugs[i]).Ok?
    {
      CalledReports(parsed, patientId, timestamp, drugs[i], enableLlm, explain);
    }
    CollectFacts(drugs, f);
  }

  /** run_pipeline_multi answers each drug once, in input order: the i-th report is the
      well-formed, finalized report of the i-th drug's key, and a drug outside the map
      gets the unsupported-drug error report. */
  lemma ReportsPerDrug(parsed: Parsed, patientId: string, timestamp: string, drugs: seq<string>,
                       enableLlm: bool, explain: Report -> Explanation)
    requires Reports(parsed, patientId, timestamp, drugs, enableLlm, explain).Ok?
    ensures var rs := Reports(parsed, patientId, timestamp, drugs, enableLlm, explain).value;
      && |rs| == |drugs|
      && (forall i :: 0 <= i < |rs| ==>
            WellFormed(rs[i]) && Final(rs[i].profile) && rs[i].drug == DrugKey(drugs[i]) && rs[i].patientId == patientId)
      && (forall i :: 0 <= i < |rs| && DrugKey(drugs[i]) !in DrugToGene ==>
            rs[i] == Finalize(ErrorReport(patientId, DrugKey(drugs[i]), timestamp, UnmappedMessage(DrugKey(drugs[i])))))
  {
    var f := drug => ReportFor(parsed, patientId, timestamp, drug, enableLlm, explain);
    CollectFacts(drugs, f);
    var rs := Reports(parsed, patientId, timestamp, drugs, enableLlm, explain).value;
    forall i | 0 <= i < |rs|
      ensures WellFormed(rs[i]) && Final(rs[i].profile) && rs[i].drug == DrugKey(drugs[i]) && rs[i].patientId == patientId
      ensures DrugKey(drugs[i]) !in DrugToGene ==>
        rs[i] == Finalize(ErrorReport(patientId, DrugKey(drugs[i]), timestamp, UnmappedMessage(DrugKey(drugs[i]))))
    {
      assert f(drugs[i]) == Ok(rs[i]);
      ReportForEchoes(parsed, patientId, timestamp, drugs[i], enableLlm, explain);
      if DrugKey(drugs[i]) !in DrugToGene {
        UnmappedReport(parsed, patientId, timestamp, drugs[i], enableLlm, explain);
      }
    }
  }

  /** The for loop of run_pipeline_multi: f applied to each element in turn, its results
      appended, when no application fails. */
  method CollectAll<T, R>(xs: seq<T>, f: T -> Result<R>) returns (rs: seq<R>)
    requires Collect(xs, f).Ok?
    ensures Ok(rs) == Collect(xs, f)
  {
    CollectFacts(xs, f);
    rs := [];
    for i := 0 to |xs|
      invariant Ok(rs) == Collect(xs[..i], f)
    {
      assert xs[..i + 1][..i] == xs[..i];
      var r := f(xs[i]);
      rs := rs + [r.value];
    }
    assert xs[..|xs|] == xs;
  }

  /** run_pipeline_multi: the VCF is parsed once, without error, and the drugs get their
      reports over that parse, in order; nothing raises. */
  method RunPipelineMulti(file: Option<seq<V.Variant>>, stem: string, drugs: seq<string>,
                          patientId: Option<string>, timestamp: string, enableLlm: bool,
                          explain: Report -> Explanation)
    returns (reports: seq<Report>)
    ensures ParsedOf(file).Ok?
    ensures Ok(reports) == Reports(ParsedOf(file).value, PatientOf(patientId, stem), timestamp, drugs, enableLlm, explain)
  {
    var parsed := ParseVcfOnce(file);
    var patient := PatientOf(patientId, stem);
    CalledCollects(parsed, patient, timestamp, drugs, enableLlm, explain);
    reports := CollectAll(drugs, drug => ReportFor(parsed, patient, timestamp, drug, enableLlm, explain));
  }

  /** run_pipeline: a drug outside the map is answered before the VCF is read; otherwise
      the report is the one run_pipeline_multi gives the drug. */
  method RunPipeline(file: Option<seq<V.Variant>>, stem: string, drug: string,
                     patientId: Option<string>, timestamp: string, enableLlm: bool,
                     explain: Report -> Explanation)
    returns (report: Report)
    ensures ParsedOf(file).Ok?
    ensures Ok(report) == ReportFor(ParsedOf(file).value, PatientOf(patientId, stem), timestamp, drug, enableLlm, explain)
  {
    var patient := PatientOf(patientId, stem);
    var key := DrugKey(drug);
    ParsedCalled(file);
    var gene := GeneOf(key);
    if gene.None? {
      return Finalize(ErrorReport(patient, key, timestamp, UnmappedMessage(key)));
    }
    var p := ParseVcfOnce(file);
    if !p.vcfOk {
      return Finalize(ErrorReport(patient, key, timestamp, ParseFailedMessage));
    }
    CalledReports(p, patient, timestamp, drug, enableLlm, explain);
    var built := BuildReport(patient, key, timestamp, gene.value, p.frame, p.detected,
                             p.totalVariants, p.genesCovered, true);
    var rep := built.value;
    if enableLlm {
      rep := rep.(explanation := Some(explain(rep)));
    }
    return Finalize(rep);
  }
}
