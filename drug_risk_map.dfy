/** The offline CPIC drug-risk table: a three-level map from gene, drug and phenotype to
    a guideline entry, looked up with stripped, upper-cased keys, with an explicit
    "Unknown" result on any miss. */
module DrugRiskMap {
  import opened Text

  /** One guideline entry of the table. */
  datatype Entry = Entry(riskLabel: string, evidenceLevel: string, cpicVersion: string, advice: Advice)

  /** gene to drug to phenotype to entry. */
  const CpicDrugRiskMap: map<string, map<string, map<string, Entry>>> := map[
    "CYP2D6" := map["CODEINE" := CodeineEntries],
    "CYP2C19" := map["CLOPIDOGREL" := ClopidogrelEntries],
    "CYP2C9" := map["WARFARIN" := WarfarinEntries],
    "SLCO1B1" := map["SIMVASTATIN" := SimvastatinEntries],
    "TPMT" := map["AZATHIOPRINE" := AzathioprineEntries],
    "DPYD" := map["FLUOROURACIL" := FluorouracilEntries]]

  const CodeineEntries: map<string, Entry> := map[
    "NM" := Entry("Safe", "A", "CPIC 2020 (DOI:10.1002/cpt.1680)", CodeineNM),
    "IM" := Entry("Adjust Dose", "A", "CPIC 2020 (DOI:10.1002/cpt.1680)", CodeineIM),
    "PM" := Entry("Avoid", "A", "CPIC 2020 (DOI:10.1002/cpt.1680)", CodeinePM),
    "UM" := Entry("Contraindicated", "A", "CPIC 2020 (DOI:10.1002/cpt.1680)", CodeineUM)]

  const ClopidogrelEntries: map<string, Entry> := map[
    "NM" := Entry("Safe", "A", "CPIC 2022 (DOI:10.1002/cpt.2526)", ClopidogrelNM),
    "IM" := Entry("Avoid", "A", "CPIC 2022 (DOI:10.1002/cpt.2526)", ClopidogrelIM),
    "PM" := Entry("Avoid", "A", "CPIC 2022 (DOI:10.1002/cpt.2526)", ClopidogrelPM),
    "RM" := Entry("Safe", "B", "CPIC 2022 (DOI:10.1002/cpt.2526)", ClopidogrelRM),
    "UM" := Entry("Safe", "B", "CPIC 2022 (DOI:10.1002/cpt.2526)", ClopidogrelUM)]

  const WarfarinEntries: map<string, Entry> := map[
    "NM" := Entry("Safe", "A", "CPIC 2017 (DOI:10.1002/cpt.668)", WarfarinNM),
    "IM" := Entry("Adjust Dose", "A", "CPIC 2017 (DOI:10.1002/cpt.668)", WarfarinIM),
    "PM" := Entry("Adjust Dose", "B", "CPIC 2017 (DOI:10.1002/cpt.668)", WarfarinPM)]

  const SimvastatinEntries: map<string, Entry> := map[
    "NM" := Entry("Safe", "A", "CPIC 2022 (DOI:10.1002/cpt.2557)", SimvastatinNM),
    "IM" := Entry("Avoid", "A", "CPIC 2022 (DOI:10.1002/cpt.2557)", SimvastatinIM),
    "PM" := Entry("Contraindicated", "A", "CPIC 2022 (DOI:10.1002/cpt.2557)", SimvastatinPM)]

  const AzathioprineEntries: map<string, Entry> := map[
    "NM" := Entry("Safe", "A", "CPIC 2019+2025 (DOI:10.1002/cpt.1172)", AzathioprineNM),
    "IM" := Entry("Adjust Dose", "A", "CPIC 2019+2025 (DOI:10.1002/cpt.1172)", AzathioprineIM),
    "PM" := Entry("Contraindicated", "A", "CPIC 2019+2025 (DOI:10.1002/cpt.1172)", AzathioprinePM)]

  const FluorouracilEntries: map<string, Entry> := map[
    "NM" := Entry("Safe", "A", "CPIC 2024 update (DOI:10.1002/cpt.2450)", FluorouracilNM),
    "IM" := Entry("Adjust Dose", "B", "CPIC 2024 update (DOI:10.1002/cpt.2450)", FluorouracilIM),
    "PM" := Entry("Contraindicated", "A", "CPIC 2024 update (DOI:10.1002/cpt.2450)", FluorouracilPM)]

  /** Which recommendation text a table entry carries. */
  datatype Advice =
    CodeineNM | CodeineIM | CodeinePM | CodeineUM
    | ClopidogrelNM | ClopidogrelIM | ClopidogrelPM | ClopidogrelRM
    | ClopidogrelUM | WarfarinNM | WarfarinIM | WarfarinPM
    | SimvastatinNM | SimvastatinIM | SimvastatinPM | AzathioprineNM
    | AzathioprineIM | AzathioprinePM | FluorouracilNM | FluorouracilIM
    | FluorouracilPM

  /** The verbatim recommendation text of an entry. */
  function AdviceText(a: Advice): string {
    match a
    case CodeineNM =>
      "Label-recommended, age- or weight-specific starting dose is warranted. Normal CYP2D6 activity; standard morphine conversion."
    case CodeineIM =>
      "Label-recommended starting dose is recommended. Monitor closely for suboptimal analgesic response. If response is inadequate, consider an alternative non-opioid or CYP2D6-independent opioid (e.g., morphine, hydromorphone)."
    case CodeinePM =>
      "Avoid codeine use. Negligible CYP2D6 activity results in insufficient conversion to active morphine, leading to lack of analgesic effect. Use an alternative non-opioid or a CYP2D6-independent opioid (e.g., morphine, hydromorphone, oxycodone)."
    case CodeineUM =>
      "Avoid codeine use. Ultrarapid CYP2D6 activity results in excessive morphine formation, causing life-threatening respiratory depression and CNS toxicity. Use an alternative non-opioid or a CYP2D6-independent opioid (e.g., morphine, hydromorphone)."
    case ClopidogrelNM =>
      "Initiate clopidogrel at standard label-recommended dose. Normal CYP2C19 activity provides adequate conversion to active metabolite and expected platelet inhibition."
    case ClopidogrelIM =>
      "CYP2C19 intermediate metabolizers have reduced platelet inhibition and increased risk of major adverse cardiovascular events (MACE). For ACS patients undergoing PCI, use an alternative P2Y12 inhibitor (prasugrel or ticagrelor) if no contraindications exist."
    case ClopidogrelPM =>
      "CYP2C19 poor metabolizers have significantly reduced platelet inhibition and substantially increased risk of MACE. Use an alternative P2Y12 inhibitor (prasugrel or ticagrelor) if no contraindications exist. Clopidogrel should not be used."
    case ClopidogrelRM =>
      "Initiate clopidogrel at standard label-recommended dose. Rapid CYP2C19 metabolizers generally achieve adequate platelet inhibition. No dose adjustment required."
    case ClopidogrelUM =>
      "Initiate clopidogrel at standard label-recommended dose. Ultrarapid CYP2C19 metabolizers achieve at least normal levels of active metabolite. No dose adjustment required based on CPIC guidance."
    case WarfarinNM =>
      "Initiate warfarin using a validated pharmacogenetic dosing algorithm incorporating CYP2C9, VKORC1, and clinical factors. Standard starting dose is appropriate for CYP2C9 *1/*1 (normal metabolizers). Monitor INR closely during initiation."
    case WarfarinIM =>
      "CYP2C9 intermediate metabolizers have reduced S-warfarin clearance. Use a validated pharmacogenetic dosing algorithm. Anticipate lower dose requirements (approximately 15\U{2013}30% reduction vs. average), especially for *2/*2 or *1/*3 diplotypes. Monitor INR closely. Allow longer time to achieve stable INR."
    case WarfarinPM =>
      "CYP2C9 poor metabolizers (e.g., *2/*3, *3/*3) require significantly lower warfarin doses and face substantially increased bleeding risk. Use a validated pharmacogenetic dosing algorithm. If algorithm is unavailable and a VKORC1-sensitive genotype is also present, consider an alternative anticoagulant (e.g., DOAC). Intensive INR monitoring is mandatory during initiation."
    case SimvastatinNM =>
      "Normal SLCO1B1 function. Prescribe desired statin intensity per current standard of care and ACC/AHA guidelines. No SLCO1B1-driven dose limitation for simvastatin."
    case SimvastatinIM =>
      "Decreased SLCO1B1 function. Prescribe an alternative statin with lower SAMS risk (e.g., rosuvastatin, pravastatin, or fluvastatin at clinically appropriate doses). If simvastatin is necessary, limit the dose to \U{2264}20 mg/day and increase clinical monitoring for myopathy symptoms (muscle pain, weakness, CK elevation)."
    case SimvastatinPM =>
      "Poor SLCO1B1 function. Prescribe an alternative statin with lower SAMS risk (e.g., rosuvastatin, pravastatin, or fluvastatin). Simvastatin is associated with a substantially increased risk of myopathy and rhabdomyolysis at standard doses. Do not use simvastatin unless no alternatives exist; if unavoidable, use the lowest possible dose with intensive monitoring."
    case AzathioprineNM =>
      "Normal TPMT activity. Start azathioprine at the normal starting dose (2\U{2013}3 mg/kg/day for IBD/rheumatology indications). Adjust doses per disease-specific guidelines. Allow \U{2265}2 weeks to reach steady-state after each dose adjustment. Monitor CBC regularly."
    case AzathioprineIM =>
      "Reduced TPMT activity. Start at 30\U{2013}80% of the normal azathioprine dose (e.g., ~0.6\U{2013}2.4 mg/kg/day). Adjust dose based on myelosuppression and disease-specific guidelines. Allow 2\U{2013}4 weeks to reach steady-state after each dose adjustment. Monitor CBC frequently. If the initial dose is already low for the indication, dose reduction may not be necessary."
    case AzathioprinePM =>
      "Absent TPMT activity. For non-malignant conditions, use an alternative non-thiopurine immunosuppressant (e.g., mycophenolate mofetil). If thiopurine must be used for a malignant indication, use a drastically reduced dose (10-fold reduction, administered 3\U{d7}/week instead of daily) with intensive myelosuppression monitoring. Allow 4\U{2013}6 weeks per dose adjustment. Risk of fatal myelosuppression is extremely high."
    case FluorouracilNM =>
      "Normal DPD activity (activity score = 2.0). Administer 5-fluorouracil at the full label-recommended starting dose per disease protocol. No DPYD-based dose modification required."
    case FluorouracilIM =>
      "Decreased DPD activity (activity score 1.0 or 1.5). Start at 50% of the normal 5-fluorouracil dose. Titrate dose based on clinical tolerability and, ideally, therapeutic drug monitoring. If the first two cycles are tolerated, dose escalation (\U{2264}10% per cycle) may be considered. For homozygous c.[2846A>T];[2846A>T] (AS=1.0), a reduction exceeding 50% may be warranted."
    case FluorouracilPM =>
      "Severely reduced or absent DPD activity (activity score 0.0 or 0.5). Avoid 5-fluorouracil and all fluoropyrimidine-based regimens (including capecitabine). No safe dose has been established for complete DPD deficiency (AS=0). If AS=0.5 and no alternative exists, a strongly reduced dose (>75% reduction from standard) with early therapeutic drug monitoring may be considered only after careful risk-benefit assessment. FDA label updated 2024 to reflect DPD deficiency risk."
  }

  /** Risk label to severity. */
  const SeverityMap: map<string, string> := map[
    "Safe" := "none", "Adjust Dose" := "moderate", "Avoid" := "high",
    "Reduced Efficacy" := "low", "Contraindicated" := "critical", "Unknown" := "none"]

  /** Evidence level to confidence. */
  const ConfidenceMap: map<string, real> := map["A" := 0.95, "B" := 0.75, "N/A" := 0.0]

  const Severities: set<string> := {"none", "low", "moderate", "high", "critical"}

  /** The labels a table entry can carry. */
  const TableLabels: set<string> := {"Safe", "Adjust Dose", "Avoid", "Contraindicated"}

  /** The recommendation of a lookup: the advice of an entry, or the level at which the
      lookup missed, with the keys its message names. */
  datatype Guidance =
    | Advised(advice: Advice)
    | GeneMissing(gene: string)
    | DrugMissing(drug: string, gene: string)
    | PhenotypeMissing(phenotype: string, gene: string, drug: string)

  /** The recommendation text the source returns for a guidance. */
  function GuidanceText(r: Guidance): string {
    match r
    case Advised(a) => AdviceText(a)
    case GeneMissing(g) => "Gene '" + g + "' not in CPIC drug risk map."
    case DrugMissing(d, g) => "Drug '" + d + "' not covered for gene '" + g + "' in CPIC drug risk map."
    case PhenotypeMissing(p, g, d) => "Phenotype '" + p + "' not explicitly defined by CPIC for " + g + "/" + d + "."
  }

  /** The result of a lookup; its recommendation text is GuidanceText(recommendation). */
  datatype DrugRisk = DrugRisk(
    gene: string, drug: string, phenotype: string,
    riskLabel: string, severity: string, confidenceScore: real,
    recommendation: Guidance, evidenceLevel: string, cpicVersion: string)

  /** A lookup key: the text stripped and upper-cased. */
  function Key(s: string): string {
    Upper(Strip(s))
  }

  /** The entry for normalised keys, if the table has one. */
  function EntryAt(g: string, d: string, p: string): Option<Entry> {
    if g in CpicDrugRiskMap && d in CpicDrugRiskMap[g] && p in CpicDrugRiskMap[g][d]
    then Some(CpicDrugRiskMap[g][d][p]) else None
  }

  /** _unknown_result. */
  function UnknownResult(gene: string, drug: string, phenotype: string, reason: Guidance): DrugRisk {
    DrugRisk(gene, drug, phenotype, "Unknown", "none", 0.0, reason, "N/A", "N/A")
  }

  /** Severity of a label, "none" for a label outside the map. */
  function SeverityOf(riskLabel: string): (r: string)
    ensures r in Severities
    ensures riskLabel in TableLabels ==> r == SeverityMap[riskLabel] && r != "low"
    ensures riskLabel == "Unknown" ==> r == "none"
  {
    if riskLabel in SeverityMap then SeverityMap[riskLabel] else "none"
  }

  /** Confidence of an evidence level, 0.0 for a level outside the map. */
  function ConfidenceOf(evidence: string): (r: real)
    ensures evidence == "A" ==> r == 0.95
    ensures evidence == "B" ==> r == 0.75
    ensures evidence !in {"A", "B"} ==> r == 0.0
  {
    if evidence in ConfidenceMap then ConfidenceMap[evidence] else 0.0
  }

  /** get_drug_risk: the lookup on stripped, upper-cased keys. */
  function GetDrugRisk(gene: string, phenotype: string, drug: string): (r: DrugRisk)
    ensures r.gene == Key(gene) && r.drug == Key(drug) && r.phenotype == Key(phenotype)
  {
    Lookup(Key(gene), Key(phenotype), Key(drug))
  }

  /** The lookup on normalised keys: a miss at the gene, the drug or the phenotype level
      gives the Unknown result with a reason naming that level; a hit gives the entry's
      label, recommendation, evidence and version, with the severity and confidence
      derived from them. */
  function Lookup(g: string, p: string, d: string): (r: DrugRisk)
    ensures r.gene == g && r.drug == d && r.phenotype == p
    ensures EntryAt(g, d, p).None? ==>
      (&& r.riskLabel == "Unknown" && r.severity == "none" && r.confidenceScore == 0.0
       && r.evidenceLevel == "N/A" && r.cpicVersion == "N/A")
    ensures g !in CpicDrugRiskMap ==> r.recommendation == GeneMissing(g)
    ensures g in CpicDrugRiskMap && d !in CpicDrugRiskMap[g] ==> r.recommendation == DrugMissing(d, g)
    ensures g in CpicDrugRiskMap && d in CpicDrugRiskMap[g] && p !in CpicDrugRiskMap[g][d] ==>
      r.recommendation == PhenotypeMissing(p, g, d)
    ensures (var e := EntryAt(g, d, p);
      e.Some? ==> (&& r.riskLabel == e.value.riskLabel
                   && r.recommendation == Advised(e.value.advice)
                   && r.evidenceLevel == e.value.evidenceLevel
                   && r.cpicVersion == e.value.cpicVersion
                   && r.severity == SeverityOf(e.value.riskLabel)
                   && r.confidenceScore == ConfidenceOf(e.value.evidenceLevel)))
  {
    if g !in CpicDrugRiskMap then
      UnknownResult(g, d, p, GeneMissing(g))
    else if d !in CpicDrugRiskMap[g] then
      UnknownResult(g, d, p, DrugMissing(d, g))
    else if p !in CpicDrugRiskMap[g][d] then
      UnknownResult(g, d, p, PhenotypeMissing(p, g, d))
    else
      var e := CpicDrugRiskMap[g][d][p];
      DrugRisk(g, d, p, e.riskLabel, SeverityOf(e.riskLabel), ConfidenceOf(e.evidenceLevel),
        Advised(e.advice), e.evidenceLevel, e.cpicVersion)
  }

  // ---------------------------------------------------------------------------
  // Properties of the table and the lookup
  // ---------------------------------------------------------------------------

  /** Every entry of the table carries one of four real labels and evidence A or B. */
  lemma TableClassified(g: string, d: string, p: string)
    requires EntryAt(g, d, p).Some?
    ensures EntryAt(g, d, p).value.riskLabel in TableLabels
    ensures EntryAt(g, d, p).value.evidenceLevel in {"A", "B"}
  {
    var m := CpicDrugRiskMap[g][d];
    assert m in {CodeineEntries, ClopidogrelEntries, WarfarinEntries, SimvastatinEntries, AzathioprineEntries, FluorouracilEntries};
    EntriesClassified(m);
  }

  lemma EntriesClassified(m: map<string, Entry>)
    requires m in {CodeineEntries, ClopidogrelEntries, WarfarinEntries, SimvastatinEntries, AzathioprineEntries, FluorouracilEntries}
    ensures forall p :: p in m ==> m[p].riskLabel in TableLabels && m[p].evidenceLevel in {"A", "B"}
  {
  }

  /** The result is Unknown exactly on a miss; a hit has a severity from the table's
      vocabulary and confidence 0.95 for evidence A, 0.75 for evidence B. */
  lemma HitOrUnknown(g: string, p: string, d: string)
    ensures var r := Lookup(g, p, d);
      var e := EntryAt(g, d, p);
      && (r.riskLabel == "Unknown" <==> e.None?)
      && r.severity in Severities
      && (e.Some? ==> r.riskLabel in TableLabels && r.severity == SeverityMap[r.riskLabel]
                      && r.severity != "low")
      && (e.Some? ==> (r.evidenceLevel == "A" <==> r.confidenceScore == 0.95))
      && (e.Some? ==> (r.evidenceLevel == "B" <==> r.confidenceScore == 0.75))
      && (r.confidenceScore == 0.0 <==> e.None?)
  {
    if EntryAt(g, d, p).Some? {
      TableClassified(g, d, p);
    }
  }

  /** Looking the echoed keys up again gives the same result, and so does any casing
      of the inputs: the lookup is case-insensitive. */
  lemma KeysNormalised(gene: string, phenotype: string, drug: string)
    ensures var r := GetDrugRisk(gene, phenotype, drug);
      GetDrugRisk(r.gene, r.phenotype, r.drug) == r
    ensures GetDrugRisk(Lower(gene), Lower(phenotype), Lower(drug)) == GetDrugRisk(gene, phenotype, drug)
  {
    KeyIdempotent(gene);
    KeyIdempotent(phenotype);
    KeyIdempotent(drug);
    KeyOfLower(gene);
    KeyOfLower(phenotype);
    KeyOfLower(drug);
  }

  lemma KeyIdempotent(s: string)
    ensures Key(Key(s)) == Key(s)
  {
    StripUpper(Strip(s));
    StripIdempotent(s);
    UpperIdempotent(Strip(s));
  }

  lemma KeyOfLower(s: string)
    ensures Key(Lower(s)) == Key(s)
  {
    StripLower(s);
    UpperOfLower(Strip(s));
  }

  /** The documented example: an ultrarapid CYP2D6 metaboliser on codeine, however the
      three inputs are spaced or cased. */
  lemma CodeineUltrarapid(gene: string, phenotype: string, drug: string)
    ensures Key(gene) == "CYP2D6" && Key(phenotype) == "UM" && Key(drug) == "CODEINE" ==>
      GetDrugRisk(gene, phenotype, drug) == CodeineUltrarapidRisk
  {
    CodeineUltrarapidLookup();
  }

  /** What the table says for an ultrarapid CYP2D6 metaboliser on codeine. */
  const CodeineUltrarapidRisk: DrugRisk := DrugRisk("CYP2D6", "CODEINE", "UM",
    "Contraindicated", "critical", 0.95, Advised(CodeineUM), "A", "CPIC 2020 (DOI:10.1002/cpt.1680)")

  lemma CodeineUltrarapidLookup()
    ensures Lookup("CYP2D6", "UM", "CODEINE") == CodeineUltrarapidRisk
  {
    var e := Entry("Contraindicated", "A", "CPIC 2020 (DOI:10.1002/cpt.1680)", CodeineUM);
    assert CpicDrugRiskMap["CYP2D6"]["CODEINE"] == CodeineEntries;
    assert CodeineEntries["UM"] == e;
    assert SeverityOf(e.riskLabel) == "critical";
  }

  /** CPIC defines no rapid-metaboliser entry for CYP2D6, so RM is Unknown for every drug. */
  lemma Cyp2d6RapidUnknown(gene: string, phenotype: string, drug: string)
    ensures Key(gene) == "CYP2D6" && Key(phenotype) == "RM" ==>
      GetDrugRisk(gene, phenotype, drug).riskLabel == "Unknown"
  {
    if Key(gene) == "CYP2D6" && Key(phenotype) == "RM" {
      Cyp2d6NoRapidEntry(Key(drug));
    }
  }

  lemma Cyp2d6NoRapidEntry(d: string)
    ensures EntryAt("CYP2D6", d, "RM").None?
  {
    assert CpicDrugRiskMap["CYP2D6"] == map["CODEINE" := CodeineEntries];
    assert "RM" !in CodeineEntries;
  }
}
