# PharmaGuard pharmacogenomics core, modelled in Dafny

This project models the core of the PharmaGuard pharmacogenomics pipeline. The pipeline
turns a patient's VCF file and a list of drugs into CPIC-based risk reports. The model
follows the chain a request takes:

- **VCF to gene table** (`vcf_to_table.dfy`). Records whose FILTER is PASS are kept when
  their INFO GENE tag names one of the six pharmacogenes. Each kept record becomes an
  (rsid, chrom, position, genotype, star) record, grouped by gene in first-seen order.
  The groups are then flattened into the Gene/Chrom/Position/RSID/Genotype/STAR table.
- **Diplotype calling** (`phenotype_calculator.dfy`). Genotypes are normalised to
  0/0, 0/1 or 1/1. Star-allele events are deduplicated, and a zygosity is never
  downgraded. The first homozygous star, or the first two heterozygous stars, give the
  diplotype, with unphased and DPYD HapB3-proxy notes.
- **The legacy diplotype caller** (`diplotype_calculator.dfy`). In this caller the last
  homozygous hit wins, and its genotype normalisation agrees with the current one on
  every input.
- **Phenotype rules** (`phenotype_calculator.dfy`):
  - CYP2C19 uses a fixed table;
  - CYP2C9, TPMT, DPYD and CYP2D6 use activity-score thresholds, with scores counted in
    quarter units so that they are exact;
  - SLCO1B1 uses function classes.
- **Detected variants** (`detected_variants.dfy`): the non-reference rows with a known
  star allele and its function.
- **The CPIC drug–gene–phenotype risk table and its lookup** (`drug_risk_map.dfy`).
- **The deterministic risk score** (`risk_scoring.dfy`): severity × evidence ×
  phenotype factor × context multiplier, reduced by the missing-data penalty, then
  clamped and categorised. Five of the six self-test rows get their expected category.
  The row for (high, B, PM, no_phase) scores 0.51 and so is "moderate", not the
  "high" it expects (`SelfTestRowDisagrees`). The usage example in the module's
  docstring scores 0.35112, "low", with its renal multiplier of 1.1 (`UsageExample`).
  The 0.319 written beside it leaves that multiplier out.
- **Report assembly** (`pipeline.dfy`). This covers the flags, the notes, the adjusted
  confidence, error reports and the output finalisation. The VCF is parsed once, and
  one report is built per drug.
- **The command line and the `.env` loader** (`pipeline_entry.dfy`).
- **The `/analyze` upload endpoint** (`analyze_service.dfy`). It makes its guards in
  order, and its temporary file is removed on every path.
- **The `/validate` VCF validator service** (`validator_service.dfy`).

Shared pieces:

- `text.dfy` models the Python string builtins the code relies on: `strip`, `split`,
  `splitlines`, `upper`, `lower`, `in`, `find` and `int()`.
- `frames.dfy` models the pandas table the stages pass to each other. Its columns are a
  set, and each row is a record of optional cells. A missing or NaN cell is `None`.

Scores and confidences are exact reals. The activity scores are naturals counted in
quarter units.

## Model

| member | source | states |
|---|---|---|
| VcfToTable.TagText | pharma_ml/vcf_to_table.py:174-183 | an INFO tag is absent exactly when it is missing, empty or "."; otherwise it is its text |
| VcfToTable.ExtractPrimaryGene | pharma_ml/vcf_to_table.py:28-36 | no primary gene exactly when GENE is missing, "" or "."; otherwise GENE's text |
| VcfToTable.ReplaceDelimiters | pharma_ml/vcf_to_table.py:94-96 | same length; every ',', '\|', '&' and ';' becomes a space and every other character is kept |
| VcfToTable.ItemTokens | pharma_ml/vcf_to_table.py:87-92 | a missing item, or one that is blank or "." once stripped, yields no tokens |
| VcfToTable.ItemTokensGood | pharma_ml/vcf_to_table.py:94-101 | every token yielded is non-empty and holds no whitespace and no delimiter |
| VcfToTable.GeneTokens | pharma_ml/vcf_to_table.py:73-101 | no value gives no tokens; every token of a scalar or list value is a clean token |
| VcfToTable.IterGeneTokens | pharma_ml/vcf_to_table.py:73-101 | the loop over the items yields exactly GeneTokens |
| VcfToTable.FirstPgx | pharma_ml/vcf_to_table.py:113-116 | the result is the first token that is a pharmacogene; none iff no token is one |
| VcfToTable.FirstPgxAt | pharma_ml/vcf_to_table.py:113-115 | a pharmacogene token preceded only by non-pharmacogene tokens is the one returned |
| VcfToTable.ExtractGene | pharma_ml/vcf_to_table.py:104-116 | without INFO no gene; otherwise the first pharmacogene among the GENE tokens, always one of the six genes |
| VcfToTable.FindGene | pharma_ml/vcf_to_table.py:104-116 | the token loop returns ExtractGene |
| VcfToTable.AlleleText | pharma_ml/vcf_to_table.py:134-135 | "." exactly for a missing or negative allele; otherwise its decimal text, which reads back as the allele |
| VcfToTable.FormatGt | pharma_ml/vcf_to_table.py:119-137 | "./." without a usable first sample; otherwise allele, separator, allele, and '\|' appears exactly when the sample is phased |
| VcfToTable.ChooseRsid | pharma_ml/vcf_to_table.py:170-177 | a non-blank INFO RS wins; else the record ID unless empty or "."; else none |
| VcfToTable.KeptGene | pharma_ml/vcf_to_table.py:159-166 | a record is kept exactly when FILTER passes and a pharmacogene is found, and its key is a pharmacogene |
| VcfToTable.Append | pharma_ml/vcf_to_table.py:192 | setdefault-append keeps the existing keys in order and adds a new group at the end exactly when the gene is new |
| VcfToTable.AppendFacts | pharma_ml/vcf_to_table.py:192 | appending keeps keys distinct, adds the record to its own gene's list only, and adds one record in total |
| VcfToTable.ParsePgxVcf | pharma_ml/vcf_to_table.py:140-194 | a missing file gives no result; otherwise the groups of ParsePgx |
| VcfToTable.ParsePgxFacts | pharma_ml/vcf_to_table.py:154-194 | the groups have distinct pharmacogene keys, a gene is a key iff some kept record names it, each group is that gene's kept records in order, and the total equals the kept count |
| VcfToTable.JsonToFrame | pharma_ml/vcf_to_table.py:197-203 | the table always has the six columns, and an empty input gives no rows |
| VcfToTable.JsonToDataFrame | pharma_ml/vcf_to_table.py:197-226 | the nested loops build exactly JsonToFrame |
| VcfToTable.ElemRowsFacts | pharma_ml/vcf_to_table.py:209-224 | one row per dictionary element, each tagged with its gene; other elements are skipped |
| VcfToTable.DataRowsConcat | pharma_ml/vcf_to_table.py:205-224 | the rows of concatenated gene groups are the concatenated rows, so the group order is kept |
| VcfToTable.DataRowsGenes | pharma_ml/vcf_to_table.py:205-224 | every row's gene is one of the input's keys |
| VcfToTable.TableGenes | pharma_ml/vcf_to_table.py:159-226 | every row of the parsed table names a pharmacogene |
| VcfToTable.ParsedRowCount | pharma_ml/vcf_to_table.py:159-226 | the parsed table has exactly one row per kept VCF record |
| VcfToTable.GroupsRowCount | pharma_ml/vcf_to_table.py:205-224 | flattening the groups yields as many rows as records |
| Frames.MissingColumns | pharma_ml/phenotype_calculator.py:101-105 | a column is reported iff it is required and absent; the sorted order of the requirement is kept |
| Frames.DiplotypeRequiredSorted | pharma_ml/phenotype_calculator.py:101-105 | the required columns are listed in sorted order, as `sorted(missing)` reports them |
| PhenotypeCalculator.FieldBit | pharma_ml/phenotype_calculator.py:70-80 | an allele field counts as alternate iff it parses as a positive integer |
| PhenotypeCalculator.AlleleBit | pharma_ml/phenotype_calculator.py:70-80 | the stripped allele text counts as alternate iff it parses as a positive integer |
| PhenotypeCalculator.Normalized | pharma_ml/phenotype_calculator.py:53-83 | always one of 0/0, 0/1, 1/1; 0/0 for a missing, blank or "./." genotype and for one with no separator |
| PhenotypeCalculator.NormalizeGenotype | pharma_ml/phenotype_calculator.py:53-83 | the step-by-step normalisation returns Normalized |
| PhenotypeCalculator.AlleleBits | pharma_ml/phenotype_calculator.py:69-80 | one 0/1 value per allele field, each that field's AlleleBit |
| PhenotypeCalculator.NormalizedParts | pharma_ml/phenotype_calculator.py:61-83 | a genotype that does not split into exactly two parts is 0/0; otherwise it is the zygosity of its two alleles |
| PhenotypeCalculator.ZygosityText | pharma_ml/phenotype_calculator.py:82-83 | the sorted allele pair is written as the zygosity text |
| PhenotypeCalculator.NormalizeJoined | pharma_ml/phenotype_calculator.py:61-83 | a genotype a/b or a\|b normalises to the zygosity of a and b |
| PhenotypeCalculator.NormalizeOrderBlind | pharma_ml/phenotype_calculator.py:82-83 | a/b and b/a normalise alike |
| PhenotypeCalculator.NormalizePhaseBlind | pharma_ml/phenotype_calculator.py:61-83 | a\|b and a/b normalise alike |
| PhenotypeCalculator.NormalizeFixed | pharma_ml/phenotype_calculator.py:53-83 | 0/0, 0/1 and 1/1 are left unchanged |
| PhenotypeCalculator.NormalizeIdempotent | pharma_ml/phenotype_calculator.py:53-83 | normalising twice equals normalising once |
| PhenotypeCalculator.ParseDiplotype | pharma_ml/phenotype_calculator.py:86-97 | an empty diplotype has no alleles; a parsed pair has two non-empty alleles, the first without '/' |
| PhenotypeCalculator.ParseJoined | pharma_ml/phenotype_calculator.py:86-97 | a/b parses to the stripped pair unless either side is blank |
| PhenotypeCalculator.ParseSwapped | pharma_ml/phenotype_calculator.py:86-97 | b/a parses to the swapped pair of a/b |
| PhenotypeCalculator.PairScoreSymmetric | pharma_ml/phenotype_calculator.py:238-405 | the activity sum of a diplotype does not depend on the allele order |
| PhenotypeCalculator.PairValueSwap | pharma_ml/phenotype_calculator.py:238-405 | swapping the pair keeps its activity sum |
| PhenotypeCalculator.Cyp2c19Phenotype | pharma_ml/phenotype_calculator.py:216-235 | always a phenotype word, and "Unknown" iff the diplotype is not in the CYP2C19 table |
| PhenotypeCalculator.Cyp2c19Symmetric | pharma_ml/phenotype_calculator.py:216-235 | the CYP2C19 table gives a/b and b/a the same phenotype |
| PhenotypeCalculator.Cyp2c9Category | pharma_ml/phenotype_calculator.py:268-273 | NM iff score ≥ 2, IM iff 1 ≤ score < 2, PM below, Unknown iff no score |
| PhenotypeCalculator.TpmtCategory | pharma_ml/phenotype_calculator.py:308-313 | NM iff score ≥ 2, IM iff 0 < score < 2, PM iff 0, Unknown iff no score |
| PhenotypeCalculator.DpydAllele | pharma_ml/phenotype_calculator.py:329-330 | a DPYD allele's activity comes from the table, and an unlisted allele counts as fully active |
| PhenotypeCalculator.DpydValue | pharma_ml/phenotype_calculator.py:321-332 | every parsed DPYD diplotype has a score of at most 2 |
| PhenotypeCalculator.DpydCategory | pharma_ml/phenotype_calculator.py:332-339 | NM iff score ≥ 1.5, IM iff 0.5 < score < 1.5, PM iff ≤ 0.5, Unknown iff unparsed |
| PhenotypeCalculator.Slco1b1Category | pharma_ml/phenotype_calculator.py:355-375 | PM iff one allele is no-function and the other no- or decreased-function; NM iff neither allele is reduced; Unknown iff unparsed |
| PhenotypeCalculator.Cyp2d6Category | pharma_ml/phenotype_calculator.py:396-405 | PM iff 0, IM iff 0 < s ≤ 1, NM iff 1 < s ≤ 2.25, UM iff above, Unknown iff no score |
| PhenotypeCalculator.Cyp2d6NeverUltrarapid | pharma_ml/phenotype_calculator.py:383-404 | with the table's maximum allele activity of 1, no CYP2D6 diplotype is called UM |
| PhenotypeCalculator.ScoreRulesSymmetric | pharma_ml/phenotype_calculator.py:238-405 | the CYP2C9, TPMT, CYP2D6, DPYD and SLCO1B1 rules give a/b and b/a the same phenotype |
| PhenotypeCalculator.AlwaysClassified | pharma_ml/phenotype_calculator.py:316-375 | a parseable DPYD or SLCO1B1 diplotype is never Unknown |
| PhenotypeCalculator.ComputePhenotype | pharma_ml/phenotype_calculator.py:408-425 | always a phenotype word; Unknown for an empty diplotype or a gene outside the six |
| PhenotypeCalculator.PhenotypeSymmetric | pharma_ml/phenotype_calculator.py:408-425 | for every gene, a/b and b/a get the same phenotype |
| PhenotypeCalculator.ActivityScore | pharma_ml/phenotype_calculator.py:442-477 | only CYP2D6 and DPYD have a score, and an unparseable diplotype has none |
| PhenotypeCalculator.Cyp2d6ScoreAgrees | pharma_ml/phenotype_calculator.py:451-465 | the reported CYP2D6 score exists iff the phenotype is known, and the phenotype is the score's category |
| PhenotypeCalculator.DpydScoreAgrees | pharma_ml/phenotype_calculator.py:467-474 | the reported DPYD score exists iff the phenotype is known, and the phenotype is the score's category |
| PhenotypeCalculator.Annotation | pharma_ml/phenotype_calculator.py:139-142 | a STAR annotation is used only when present and neither "" nor "." |
| PhenotypeCalculator.RowEvent | pharma_ml/phenotype_calculator.py:132-151 | a reference row gives no event; an annotated row gives its STAR; a row with an unknown rsid and no annotation gives none; the event's zygosity is the normalised genotype |
| PhenotypeCalculator.Events | pharma_ml/phenotype_calculator.py:132-151 | at most one event per row, each heterozygous or homozygous |
| PhenotypeCalculator.KeyIndex | pharma_ml/phenotype_calculator.py:160-163 | finds the star's entry in the seen list, or reports that it is absent |
| PhenotypeCalculator.Dedup | pharma_ml/phenotype_calculator.py:160-168 | keeps every star exactly once |
| PhenotypeCalculator.SeenDescribed | pharma_ml/phenotype_calculator.py:160-163 | the seen list holds each distinct star once, in first-seen order, with the zygosity observed |
| PhenotypeCalculator.NeverDowngraded | pharma_ml/phenotype_calculator.py:161-163 | a star is recorded homozygous iff some row showed it homozygous |
| PhenotypeCalculator.StarLists | pharma_ml/phenotype_calculator.py:167-168 | the homozygous and heterozygous lists are the distinct non-*1 stars of each kind, in first-seen order |
| PhenotypeCalculator.FirstHomozygousWins | pharma_ml/phenotype_calculator.py:167-176 | when some non-*1 star is homozygous, the call is the first such star on both alleles, phased |
| PhenotypeCalculator.HeterozygousCall | pharma_ml/phenotype_calculator.py:177-183 | with no homozygous star: *1/*1, *1/x, or the first two heterozygous stars flagged unphased |
| PhenotypeCalculator.NoteOf | pharma_ml/phenotype_calculator.py:203-211 | a note exists iff the call is unphased, DPYD HapB3 is proxy-only, or SLCO1B1 carries *15; an unphased note begins with the unphased text |
| PhenotypeCalculator.RowStar | pharma_ml/phenotype_calculator.py:133-151 | a row yields a star iff it belongs to the gene and has an event, and the star is that event's |
| PhenotypeCalculator.RecordStar | pharma_ml/phenotype_calculator.py:161-163 | updating the seen list is Record |
| PhenotypeCalculator.ResolveGene | pharma_ml/phenotype_calculator.py:122-211 | the per-gene loop returns CallGene, the model of one gene's call (first homozygous star, else the heterozygous rules, with its note) |
| PhenotypeCalculator.DiplotypedUnique | pharma_ml/phenotype_calculator.py:100-213 | the contract of ComputeDiplotype pins its result down completely |
| PhenotypeCalculator.ComputeDiplotype | pharma_ml/phenotype_calculator.py:100-213 | an error iff a required column is missing, naming the missing columns sorted; otherwise two columns are added and every row carries its gene's call |
| PhenotypeCalculator.OneCallPerGene | pharma_ml/phenotype_calculator.py:111-202 | rows of the same gene get the same diplotype and note, and a row gets a diplotype iff its gene is a pharmacogene |
| PhenotypeCalculator.AnnotatePhenotype | pharma_ml/phenotype_calculator.py:428-439 | without a Diplotype column every row is Unknown; otherwise an error iff some diplotype cell is missing; each row keeps its other cells and gains a phenotype word |
| DiplotypeCalculator.StarsNamed | pharma_ml/diplotype_calculator.py:13-40 | no star table maps an rsid to "" or "." |
| DiplotypeCalculator.TablesStarred | pharma_ml/diplotype_calculator.py:13-40 | every star table's values are star-allele names |
| DiplotypeCalculator.LegacyNormalized | pharma_ml/diplotype_calculator.py:43-69 | always a zygosity; 0/0 for "", "./." and a genotype without a separator |
| DiplotypeCalculator.LegacyNormalize | pharma_ml/diplotype_calculator.py:43-69 | the step-by-step normalisation returns LegacyNormalized |
| DiplotypeCalculator.LegacyOneSeparator | pharma_ml/diplotype_calculator.py:47-69 | a/b and a\|b give the zygosity of their two alleles |
| DiplotypeCalculator.LegacyManySeparators | pharma_ml/diplotype_calculator.py:51-53 | a genotype with more than two fields is 0/0 |
| DiplotypeCalculator.LegacyNormalizeAgrees | pharma_ml/diplotype_calculator.py:43-69 | the legacy normalisation equals the current one on every genotype string |
| DiplotypeCalculator.LegacyHit | pharma_ml/diplotype_calculator.py:85-96 | a row is a hit iff its rsid is in the star map and its genotype is not reference; the hit is that star with its zygosity |
| DiplotypeCalculator.Hits | pharma_ml/diplotype_calculator.py:85-96 | at most one hit per row, each heterozygous or homozygous |
| DiplotypeCalculator.ComputeGeneDiplotype | pharma_ml/diplotype_calculator.py:72-110 | the row loop returns LegacyCall |
| DiplotypeCalculator.ScanMeaning | pharma_ml/diplotype_calculator.py:81-101 | the scan keeps the heterozygous stars in order, and the alleles are the last homozygous star, or *1 when there is none |
| DiplotypeCalculator.LastHomozygousWins | pharma_ml/diplotype_calculator.py:97-99 | with a homozygous hit, the call is the last homozygous star on both alleles |
| DiplotypeCalculator.HeterozygousOnly | pharma_ml/diplotype_calculator.py:103-108 | with no homozygous hit: *1/*1, *1/x, or the first two heterozygous stars |
| DiplotypeCalculator.SilentRowsIgnored | pharma_ml/diplotype_calculator.py:85-94 | a row that is not a hit does not change the hits |
| DiplotypeCalculator.GeneRows | pharma_ml/diplotype_calculator.py:124-128 | the gene's rows, a sub-list of the table |
| DiplotypeCalculator.CalculateDiplotype | pharma_ml/diplotype_calculator.py:113-132 | an error iff a required column is missing, naming them sorted; otherwise the Diplotype column is added and each row carries its gene's legacy call |
| DetectedVariants.StarAllele | pharma_ml/detected_variants.py:79-87 | no star for a missing or empty rsid or an unknown gene; otherwise the gene table's entry for the stripped rsid |
| DetectedVariants.AlleleFunction | pharma_ml/detected_variants.py:90-97 | always a function word; "unknown" without a star or a known gene; otherwise the gene's function entry |
| DetectedVariants.FunctionsNamed | pharma_ml/detected_variants.py:39-76 | every function table value is one of the function words |
| DetectedVariants.RequiredSorted | pharma_ml/detected_variants.py:101-105 | the required columns are listed in the order `sorted(missing)` reports them |
| DetectedVariants.RowStar | pharma_ml/detected_variants.py:122-129 | a present STAR cell other than "" and "." wins; otherwise the star looked up from the rsid |
| DetectedVariants.KeptRows | pharma_ml/detected_variants.py:116-131 | a sub-list of the rows, every one of them kept |
| DetectedVariants.Records | pharma_ml/detected_variants.py:135-145 | one record per kept row, each built from that row |
| DetectedVariants.GenerateDetectedVariants | pharma_ml/detected_variants.py:100-147 | the missing-columns error, else the row loop's result; together, Detected |
| DetectedVariants.VisitRow | pharma_ml/detected_variants.py:109-145 | skips exactly the rows that are not kept; a kept row fails without a Position, else yields its record |
| DetectedVariants.CollectRecords | pharma_ml/detected_variants.py:107-147 | the row loop returns the records of the kept rows, or fails at a kept row without a Position |
| DetectedVariants.BuildDetectedVariantsJson | pharma_ml/detected_variants.py:150-151 | fails exactly as Detected does; otherwise the single key detected_variants holds the list |
| DetectedVariants.DetectedErrors | pharma_ml/detected_variants.py:101-145 | Detected, the model of generate_detected_variants: missing columns give the sorted message; otherwise it fails iff some kept row has no position |
| DetectedVariants.RecordsDescribed | pharma_ml/detected_variants.py:109-145 | each output is a non-reference row with a named star and that star's function, in table order |
| DetectedVariants.TableStarsNamed | pharma_ml/detected_variants.py:9-36 | a star found from the table is never "" or "." |
| DetectedVariants.PhasedReferenceKept | pharma_ml/detected_variants.py:116-117 | a phased reference genotype "0\|0" is not filtered out, since only "0/0" is compared |
| DrugRiskMap.SeverityOf | pharma_ml/drug_risk_map.py:386-393 | every label the table uses maps to its severity, never "low" (Reduced Efficacy is not used); "Unknown" maps to none |
| DrugRiskMap.ConfidenceOf | pharma_ml/drug_risk_map.py:395-399 | evidence A is 0.95, B is 0.75, anything else 0 |
| DrugRiskMap.GetDrugRisk | pharma_ml/drug_risk_map.py:406-469 | the result echoes the gene, drug and phenotype stripped and upper-cased |
| DrugRiskMap.Lookup | pharma_ml/drug_risk_map.py:436-484 | a miss gives the Unknown result with the reason for the first missing level; a hit gives the entry's label, advice, evidence, version, severity and confidence |
| DrugRiskMap.TableClassified | pharma_ml/drug_risk_map.py:42-377 | every table entry has a known risk label and evidence level A or B |
| DrugRiskMap.HitOrUnknown | pharma_ml/drug_risk_map.py:436-469 | the label is Unknown iff there is no entry; a hit has a table label, its mapped severity and a positive confidence |
| DrugRiskMap.KeysNormalised | pharma_ml/drug_risk_map.py:432-434 | the lookup is case-insensitive, and looking up its own echoed keys gives the same result |
| DrugRiskMap.CodeineUltrarapid | pharma_ml/drug_risk_map.py:425-429 | CYP2D6 UM with codeine is Contraindicated, critical, evidence A, 0.95 |
| DrugRiskMap.Cyp2d6RapidUnknown | pharma_ml/drug_risk_map.py:53-98 | CYP2D6 RM has no entry, so its result is Unknown for every drug |
| RiskScoring.ScoreToCategory | pharma_ml/risk_scoring.py:90-99 | the category's rank counts the thresholds the score reaches |
| RiskScoring.CategoryMonotone | pharma_ml/risk_scoring.py:90-99 | a higher score never gets a lower category |
| RiskScoring.Clamp | pharma_ml/risk_scoring.py:102-103 | the result lies in [0, 1] and equals the input when the input is already there |
| RiskScoring.ClampMonotone | pharma_ml/risk_scoring.py:102-103 | clamping keeps order |
| RiskScoring.PenaltyOf | pharma_ml/risk_scoring.py:79-86 | each flag's penalty lies in [0, 0.9] |
| RiskScoring.MissingDataPenalty | pharma_ml/risk_scoring.py:108-117 | 0 without flags; otherwise the sum of the flags' penalties, capped |
| RiskScoring.ComputeMissingDataPenalty | pharma_ml/risk_scoring.py:108-117 | the flag loop returns MissingDataPenalty |
| RiskScoring.PenaltySumAppend | pharma_ml/risk_scoring.py:114-116 | the penalty of two flag lists is the sum of their penalties |
| RiskScoring.PenaltyOrderFree | pharma_ml/risk_scoring.py:108-117 | the flag order does not change the penalty |
| RiskScoring.PenaltyMonotone | pharma_ml/risk_scoring.py:108-117 | more flags never lower the penalty |
| RiskScoring.UnknownFlagsFree | pharma_ml/risk_scoring.py:114-116 | flags outside the penalty map cost nothing |
| RiskScoring.ContextRules | pharma_ml/risk_scoring.py:143-164 | a rule applies iff there is a context and its condition holds, in the source's order |
| RiskScoring.NoteTextInjective | pharma_ml/risk_scoring.py:147-164 | each rule has its own context note |
| RiskScoring.MultiplierAtLeastOne | pharma_ml/risk_scoring.py:122-166 | ContextMultiplier, the product of the factors of the rules that fire, is at least 1, and exactly 1 without a context |
| RiskScoring.ComputeContextMultiplier | pharma_ml/risk_scoring.py:122-166 | the rule sequence returns the multiplier and notes of the firing rules |
| RiskScoring.SeverityWeight | pharma_ml/risk_scoring.py:40-49 | each severity weight lies in [0, 1] |
| RiskScoring.EvidenceConfidence | pharma_ml/risk_scoring.py:53-60 | each evidence confidence lies in [0.55, 0.95] |
| RiskScoring.PhenotypeFactor | pharma_ml/risk_scoring.py:67-74 | each phenotype factor lies in [0.3, 1] |
| RiskScoring.Adjusted | pharma_ml/risk_scoring.py:217 | the adjusted score lies in [0, 1] |
| RiskScoring.AdjustedAtMostRaw | pharma_ml/risk_scoring.py:216-217 | a penalty never raises the score above the raw score |
| RiskScoring.AdjustedAntitone | pharma_ml/risk_scoring.py:214-217 | a larger penalty never raises the score |
| RiskScoring.AdjustedMonotone | pharma_ml/risk_scoring.py:216-217 | a larger raw score never lowers the adjusted score |
| RiskScoring.RawMonotone | pharma_ml/risk_scoring.py:213-216 | a larger context multiplier never lowers the raw score |
| RiskScoring.ComputeRiskScore | pharma_ml/risk_scoring.py:171-242 | the score lies in [0, raw] and its category is the score's; multiplier ≥ 1; penalty within the cap; the flags and context notes are echoed |
| RiskScoring.FlagsNeverRaise | pharma_ml/risk_scoring.py:171-242 | adding flags never raises the risk score |
| RiskScoring.ContextNeverLowers | pharma_ml/risk_scoring.py:171-242 | a patient context never lowers the risk score |
| RiskScoring.NoneSeverityMinimal | pharma_ml/risk_scoring.py:204-218 | severity none always scores 0 and is minimal |
| RiskScoring.SelfTestRows | pharma_ml/risk_scoring.py:247-255 | the self-test rows that agree with the formula get their expected categories |
| RiskScoring.SelfTestRowDisagrees | pharma_ml/risk_scoring.py:253 | the formula scores the (high, B, PM, no_phase) row 0.51, "moderate", against the "high" the row expects |
| RiskScoring.RenalOnlyMultiplier | pharma_ml/risk_scoring.py:153-155 | a context with only renal impairment fires the renal rule alone: multiplier 1.1 and the single renal note |
| RiskScoring.RenalOnlyRules | pharma_ml/risk_scoring.py:122-166 | with only renal impairment, the renal rule is the one rule that fires |
| RiskScoring.UsageExample | pharma_ml/risk_scoring.py:18-29 | the docstring's inputs score 0.35112, category "low", with the renal note; the 0.319 written there omits the renal multiplier |
| RiskScoring.PenaltyOfOne | pharma_ml/risk_scoring.py:108-117 | a single flag costs its own penalty, up to the cap |
| Pipeline.SortedDrugsListsMap | pharma_ml/pipeline.py:418-419 | the supported-drug list in the message is the map's keys in sorted order |
| Pipeline.MapRiskLabel | pharma_ml/pipeline.py:74-83 | always one of the four actions; a missing label is Unknown |
| Pipeline.ActionOf | pharma_ml/pipeline.py:76-83 | Safe, Adjust Dosage and Toxic each iff the label is in its group; Unknown iff in none |
| Pipeline.LookupActions | pharma_ml/pipeline.py:589-630 | the action of a lookup is Unknown iff the risk table has no entry |
| Pipeline.LabelAction | pharma_ml/pipeline.py:74-83 | every table label maps to a known action, and only Unknown maps to Unknown |
| Pipeline.SeverityFromRiskCategory | pharma_ml/pipeline.py:86-93 | the severity is the cleaned category when that is low, moderate, high or critical, and none otherwise |
| Pipeline.CategorySeverity | pharma_ml/pipeline.py:86-93 | a score category maps to itself, except minimal, which maps to none |
| Pipeline.FlagNameInjective | pharma_ml/pipeline.py:509-527 | the four flags have distinct names |
| Pipeline.Flags | pharma_ml/pipeline.py:509-527 | FlagsOf, the model of _compute_flags: each flag is present iff its condition holds, once each, in the fixed order |
| Pipeline.ComputeFlags | pharma_ml/pipeline.py:498-527 | the flag-by-flag construction returns the names of FlagsOf |
| Pipeline.ErrorReport | pharma_ml/pipeline.py:707-737 | a well-formed report echoing patient, drug and timestamp, with Unknown label and action, severity none, confidence 0, the message as note and explanation error, and failed quality metrics |
| Pipeline.Finalize | pharma_ml/pipeline.py:343-350 | the profile loses flags, notes and activity score, and nothing else changes |
| Pipeline.FinalizeIdempotent | pharma_ml/pipeline.py:343-350 | finalising twice equals once, a final report is unchanged, and well-formedness is kept |
| Pipeline.NoteParts | pharma_ml/pipeline.py:615-627 | one note per flag in flag order, then the context notes |
| Pipeline.Notes | pharma_ml/pipeline.py:628 | no notes iff there are no parts |
| Pipeline.NotesIffFlagged | pharma_ml/pipeline.py:615-628 | without a patient context, a report has notes iff it has flags |
| Pipeline.Cyp2d6Reviewed | pharma_ml/pipeline.py:608-612 | ManualReview (the require_manual_review value) holds for every CYP2D6 report, because missing_cnv is flagged |
| Pipeline.MissReviewed | pharma_ml/pipeline.py:608-612 | ManualReview holds for every risk-table miss |
| Pipeline.AdjustedConfidence | pharma_ml/pipeline.py:604-605 | the confidence lies in [0, 1], never exceeds the base, and equals it when the flags cost nothing |
| Pipeline.Cyp2d6Confidence | pharma_ml/pipeline.py:604-605 | a CYP2D6 confidence never exceeds 0.76, because of the CNV penalty |
| Pipeline.FirstGeneRow | pharma_ml/pipeline.py:569-571 | the first row whose gene matches case-insensitively; none iff no row matches |
| Pipeline.CellOr | pharma_ml/pipeline.py:572-573 | a missing cell is an error; an empty one takes the default |
| Pipeline.GeneCallOf | pharma_ml/pipeline.py:565-580 | no matching row gives *1/*1, Unknown and no note; otherwise an error iff the diplotype or phenotype cell is missing |
| Pipeline.Assemble | pharma_ml/pipeline.py:583-678 | a well-formed report echoing patient, drug and timestamp; the label is the mapped action; the flags are those of the call; notes exist iff flags do; the confidence is adjusted by the flags; the guideline carries the gene's activity score, which is absent for genes other than CYP2D6 and DPYD |
| Pipeline.AssessmentOf | pharma_ml/pipeline.py:594-605 | the action, the adjusted confidence in [0, 1], and the severity of the risk-score category |
| Pipeline.TableDiplotyped | pharma_ml/pipeline.py:376-380 | diplotyping the parsed table never fails, and every row gets a diplotype |
| Pipeline.AnnotatedCalled | pharma_ml/pipeline.py:381 | annotating a fully diplotyped table never fails, and every row gets a phenotype |
| Pipeline.ParsedCalled | pharma_ml/pipeline.py:357-389 | parsing once never fails, and every row of its table is called |
| Pipeline.ParseVcfOnce | pharma_ml/pipeline.py:357-389 | the parse returns ParsedOf with a fully called table |
| Pipeline.PatientOf | pharma_ml/pipeline.py:412 | the given patient id unless it is missing or empty, else the file stem |
| Pipeline.GeneOf | pharma_ml/pipeline.py:414 | a gene iff the drug key is in the map, and it is the map's gene |
| Pipeline.CalledReports | pharma_ml/pipeline.py:428-431 | with a called table, building a report never fails |
| Pipeline.ReportForEchoes | pharma_ml/pipeline.py:409-438 | every ReportFor result (the model of one drug's report) is well-formed and final, and echoes the patient, the cleaned drug key and the timestamp |
| Pipeline.UnmappedReport | pharma_ml/pipeline.py:414-420 | an unmapped drug gives the finalised error report naming the supported drugs |
| Pipeline.UnreadReport | pharma_ml/pipeline.py:425-426 | a mapped drug with an unread VCF gives the finalised "VCF parsing failed." report |
| Pipeline.CollectFacts | pharma_ml/pipeline.py:466-493 | collecting succeeds iff every item does, with one result per item in order; otherwise the first failure is reported |
| Pipeline.CalledCollects | pharma_ml/pipeline.py:483-486 | with a called table, the per-drug loop never fails |
| Pipeline.ReportsPerDrug | pharma_ml/pipeline.py:466-495 | one well-formed final report per drug, in the input order, each echoing its drug key, patient and timestamp |
| Pipeline.CollectAll | pharma_ml/pipeline.py:466-493 | the loop returns Collect's list |
| Pipeline.RunPipelineMulti | pharma_ml/pipeline.py:441-495 | parses once and returns the per-drug reports for the resolved patient |
| Pipeline.RunPipeline | pharma_ml/pipeline.py:393-438 | parses and returns the single report for the resolved patient |
| PipelineEntry.EnvKeyClean | pharma_ml/pipeline.py:173-181 | every key set from .env is non-empty, stripped, and free of '=' |
| PipelineEntry.EnvEntryRoundTrip | pharma_ml/pipeline.py:172-182 | a plain KEY=VALUE line reads back as that key and value |
| PipelineEntry.Environment.LoadDotenv | pharma_ml/pipeline.py:165-184 | no file leaves the environment unchanged; otherwise the lines' entries are assigned in order |
| PipelineEntry.AssignedKeeps | pharma_ml/pipeline.py:181-182 | a variable already set is never overwritten |
| PipelineEntry.AssignedFrom | pharma_ml/pipeline.py:181-182 | every newly set variable comes from some line |
| PipelineEntry.AssignedFirst | pharma_ml/pipeline.py:181-182 | the first line that sets a new variable wins |
| PipelineEntry.SafeTimestamp | pharma_ml/pipeline.py:689-691 | at most 19 characters, with no ':', '+' or '.', and every other character kept in place |
| PipelineEntry.SafeIsoTimestamp | pharma_ml/pipeline.py:689-691 | an ISO timestamp becomes its date and time with dashes |
| PipelineEntry.ReportFileName | pharma_ml/pipeline.py:689-696 | the patient id and the drug character by character with each space as '_', then the safe timestamp, separated by '_' and ending in .json |
| PipelineEntry.ReportFileNameNames | pharma_ml/pipeline.py:693-696 | a patient id and a drug without spaces appear in the file name unchanged |
| PipelineEntry.ScanArgs | pharma_ml/pipeline.py:764-778 | the argument loop returns Scan |
| PipelineEntry.TokensRender | pharma_ml/pipeline.py:764-778 | the tokens the loop reads render back to the arguments, so none is lost or reordered |
| PipelineEntry.TokensShape | pharma_ml/pipeline.py:767-777 | --llm and --no-llm are never drugs, and --patient is a drug only as the last argument |
| PipelineEntry.ScanReadsTokens | pharma_ml/pipeline.py:764-778 | the drugs are the drug tokens in order; the patient is the last --patient value; the LLM switch is the last switch |
| PipelineEntry.ParseCommand | pharma_ml/pipeline.py:744-809 | the command-line reading returns CommandOf, the model of the `__main__` block's argument handling |
| PipelineEntry.CommandReadsTokens | pharma_ml/pipeline.py:744-809 | usage iff fewer than two arguments or no drug; one drug runs single, several run multi; the vcf, patient and switch come from the tokens |
| AnalyzeService.RFind | pharma_ml/app.py:17 | the last occurrence of the character, or none iff it does not occur |
| AnalyzeService.SplitExtParts | pharma_ml/app.py:17 | root and extension rebuild the name, and the extension is empty or one dot with no further dot or '/' |
| AnalyzeService.AllowedIff | pharma_ml/app.py:16-18 | AllowedFilename, the model of _allowed_filename: a name is allowed iff its lower-cased form ends in ".vcf" after a base name that is not only dots |
| AnalyzeService.UpperVcfAllowed | pharma_ml/app.py:16-18 | an upper-case .VCF name is allowed |
| AnalyzeService.GzRejected | pharma_ml/app.py:16-18 | a .vcf.gz name is rejected |
| AnalyzeService.HiddenRejected | pharma_ml/app.py:16-18 | a bare ".vcf", an empty name and no name are rejected |
| AnalyzeService.SniffFacts | pharma_ml/app.py:21-38 | LooksLikeVcf, the model of _looks_like_vcf: a head with both markers looks like a VCF, and an unreadable file does not |
| AnalyzeService.SniffRejects | pharma_ml/app.py:21-38 | a head without a '#' or shorter than the file-format line is never taken for a VCF |
| AnalyzeService.DrugsClean | pharma_ml/app.py:41-56 | every drug ParseDrugsField (the model of _parse_drugs_field) gives is non-empty and stripped; no field or a blank one gives no drugs |
| AnalyzeService.DrugsRoundTrip | pharma_ml/app.py:41-56 | a comma-joined list of plain drug names parses back to the list |
| AnalyzeService.PatientIdOf | pharma_ml/app.py:82 | the stripped id, or none iff it is blank or missing |
| AnalyzeService.LlmSetting | pharma_ml/app.py:88 | the form value wins, then the environment, then "true" |
| AnalyzeService.LlmOnByDefault | pharma_ml/app.py:87-89 | with neither form value nor environment set, LLM reasoning is on |
| AnalyzeService.LlmFormWins | pharma_ml/app.py:88-89 | a non-empty form value alone decides the switch |
| AnalyzeService.LlmBlankOff | pharma_ml/app.py:88-89 | a blank form value turns the switch off |
| AnalyzeService.Respond | pharma_ml/app.py:71-103 | 200 iff success; the first failed early check gives 400 with its message; success implies every guard passed and the pipeline returned the results |
| AnalyzeService.EarlyPassedDrugs | pharma_ml/app.py:71-85 | passing the early checks means an allowed file and at least one drug |
| AnalyzeService.CheckRequest | pharma_ml/app.py:71-89 | the checks return EarlyError, and on success the pipeline inputs |
| AnalyzeService.TempDir.Create | pharma_ml/app.py:93-95 | the new temporary file is added to the directory |
| AnalyzeService.TempDir.Remove | pharma_ml/app.py:104-109 | the temporary file is removed from the directory |
| AnalyzeService.Analyze | pharma_ml/app.py:70-109 | the response is AnalyzeOf, the model of the /analyze handler; a file is created iff the early checks pass and creation succeeds; the directory ends as it began |
| ValidatorService.CheckHeader | backend/python_validator/app.py:39-42 | passes iff every required column occurs in the header, and names a missing one otherwise |
| ValidatorService.InfoKey | backend/python_validator/app.py:45-55 | a key is read iff the line starts with ##INFO and contains "ID=" |
| ValidatorService.InfoKeysIff | backend/python_validator/app.py:45-55 | a key is collected iff some header line declares it |
| ValidatorService.CollectInfoKeys | backend/python_validator/app.py:45-55 | the header loop returns InfoKeys |
| ValidatorService.InfoKeyOfDeclaration | backend/python_validator/app.py:49-53 | ##INFO=<ID=key,… yields the key stripped and upper-cased |
| ValidatorService.Missing | backend/python_validator/app.py:57 | a recommended field is reported iff it was not declared |
| ValidatorService.AbsenteesIff | backend/python_validator/app.py:57 | the list comprehension keeps exactly the absent words |
| ValidatorService.AllMissing | backend/python_validator/app.py:57 | with no field declared, all of GENE, RS and STAR are reported in order |
| ValidatorService.Reached | backend/python_validator/app.py:63-67 | at most five records are read, taken from the start |
| ValidatorService.ReadRecords | backend/python_validator/app.py:61-67 | the record loop returns ReadOutcome |
| ValidatorService.ReadStopsAtCap | backend/python_validator/app.py:63-67 | records after the fifth are never read |
| ValidatorService.ReadFailsWithinCap | backend/python_validator/app.py:61-67 | a broken record among the first five fails the read, and no records reads as empty |
| ValidatorService.Warnings | backend/python_validator/app.py:57-75 | one warning for missing fields, listing them, and one when no record was read |
| ValidatorService.ValidateOf | backend/python_validator/app.py:19-81 | 500 iff the path is usable and pysam is missing, else 200; a failure carries one of the two messages; a warnings list is never empty |
| ValidatorService.PassedIff | backend/python_validator/app.py:19-81 | validation passes iff the path is usable, pysam is present, the file opens, the header has all columns, and the records read |
| ValidatorService.UnusablePath | backend/python_validator/app.py:20-27 | a missing, non-string or non-file path fails with 200 |
| ValidatorService.MissingColumn | backend/python_validator/app.py:39-42 | a header missing a required column fails with 200 |
| ValidatorService.NoWarningsIff | backend/python_validator/app.py:57-75 | a passing result has no warnings iff all fields are declared and some record was read |
| ValidatorService.Validate | backend/python_validator/app.py:19-81 | the handler returns ValidateOf |

## Left out

- VCF reading (cyvcf2 and pysam), file-system checks, JSON loading and the UTF-8
  decoding of the upload are inputs: the records, the header text, whether a path is a
  file, the first 2048 bytes and `json.loads`' list.
- `VCF_to_Table` builds a one-column table. Only its gene rule, `_extract_primary_gene`,
  is modelled.
- The LLM explanation is a function parameter. Popping and re-inserting
  `quality_metrics` only reorders JSON keys, which a record does not have.
- The clinical recommendation text and the citation regex are not rendered. The
  guideline record keeps the text's inputs, including the activity score that the text
  prints for CYP2D6 and DPYD. Only the CPIC version is kept for the citation.
- Floating point: scores are exact reals, and the activity score is in quarter units.
  `round(…, 4)` and `:.2f` formatting are not modelled.
- `activity_score` is never set in the report's profile. The model computes
  `ActivityScore` for the guideline record only, and `Finalize` would drop the profile's
  score anyway.
- `compute_risk_score`'s `debug` option is not modelled. The pipeline never passes it,
  and its `debug_text` is a formatted string of the raw and adjusted scores.
- `patient_context` is always `None` in the pipeline. The rules are modelled in
  `RiskScoring` and are otherwise unused.
- `require_manual_review` is computed but never emitted. It is the `ManualReview`
  predicate.
- Strip, upper and lower case act on ASCII letters and whitespace only, and `int()`
  reads ASCII digits only.
- `secure_filename` is an input: its output is taken as given.
- The `.env` file's text is an input, and a read error is `None`. A failed `os.remove`
  is ignored.
- The wall clock and the timestamp are parameters.
- Flask routing, the health endpoints, `MAX_CONTENT_LENGTH`, the server start-up and a
  non-object JSON body to `/validate` are not modelled.
- `print_detected_variants.py`, `main()` in each module, `_resolve_vcf_path`,
  `_load_json`, and the writing of the report file are not modelled. The file name is
  modelled (`ReportFileName`).
- The JavaScript orchestration that calls these services is not part of this model.
- pandas mechanics are not modelled. Columns are a set, and a NaN or missing cell is
  `None`.
- PhenotypeCalculator.AnnotatePhenotype: when there is no Diplotype column, the source
  also changes its input table in place; the model returns a new value.
- Pipeline.ParseVcfOnce: the exceptions of `compute_diplotype` and
  `annotate_diplotype_phenotype` cannot occur on a parsed table, and the model proves
  that they cannot (`TableDiplotyped`, `AnnotatedCalled`). The catch around
  `generate_detected_variants` is modelled as an empty list.
