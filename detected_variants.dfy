/** The detected-variant list of a report: one record per row that carries a variant
    (a raw genotype other than "0/0", an rsID, and a star from the STAR column or the
    rsID table), in row order, with the star allele's function. */
module DetectedVariants {
  import opened Text
  import opened Frames
  import D = DiplotypeCalculator

  /** Star allele to its function, per gene. */
  const AlleleFunctionMap: map<string, map<string, string>> := map[
    "CYP2C19" := Cyp2c19Functions, "CYP2C9" := Cyp2c9Functions, "TPMT" := TpmtFunctions,
    "DPYD" := DpydFunctions, "SLCO1B1" := Slco1b1Functions, "CYP2D6" := Cyp2d6Functions]

  const Cyp2c19Functions: map<string, string> := map["*1" := "normal", "*2" := "no function", "*3" := "no function", "*17" := "increased"]
  const Cyp2c9Functions: map<string, string> := map["*1" := "normal", "*2" := "decreased", "*3" := "decreased"]
  const TpmtFunctions: map<string, string> := map["*1" := "normal", "*2" := "no function", "*3A" := "no function", "*3B" := "no function", "*3C" := "no function"]
  const DpydFunctions: map<string, string> := map["*1" := "normal", "*2A" := "no function", "*13" := "no function", "*HapB3" := "decreased"]
  const Slco1b1Functions: map<string, string> := map["*1" := "normal", "*5" := "decreased"]
  const Cyp2d6Functions: map<string, string> := map["*1" := "normal", "*2" := "normal", "*4" := "no function", "*5" := "no function", "*10" := "decreased", "*17" := "decreased"]

  const Functions: set<string> := {"normal", "no function", "increased", "decreased", "unknown"}

  /** get_star_allele: the star of an rsID for a gene (the gene text stripped, the rsID
      stripped), from the same rsID table the older diplotype caller uses. No gene's
      table is empty, so the source's empty-table test is the missing-gene test. */
  function StarAllele(gene: string, rsid: Option<string>): (r: Option<string>)
    ensures rsid.None? || rsid == Some("") ==> r.None?
    ensures Strip(gene) !in D.StarDefinitions ==> r.None?
    ensures (rsid.Some? && rsid.value != "" && Strip(gene) in D.StarDefinitions) ==>
      (var m := D.StarDefinitions[Strip(gene)];
       r == if Strip(rsid.value) in m then Some(m[Strip(rsid.value)]) else None)
  {
    if rsid.None? || rsid.value == "" then None
    else
      var g := Strip(gene);
      if g !in D.StarDefinitions then None
      else
        var key := Strip(rsid.value);
        if key in D.StarDefinitions[g] then Some(D.StarDefinitions[g][key]) else None
  }

  /** get_allele_function: the function the gene's table gives the star, "unknown" for
      an empty star, an unknown gene or a star outside the gene's table (no table is
      empty, as for the star table). */
  function AlleleFunction(gene: string, star: Option<string>): (r: string)
    ensures r in Functions
    ensures (star.None? || star == Some("")) ==> r == "unknown"
    ensures Strip(gene) !in AlleleFunctionMap ==> r == "unknown"
    ensures (star.Some? && star.value != "" && Strip(gene) in AlleleFunctionMap) ==>
      (var m := AlleleFunctionMap[Strip(gene)];
       r == if star.value in m then m[star.value] else "unknown")
  {
    if star.None? || star.value == "" then "unknown"
    else
      var g := Strip(gene);
      if g !in AlleleFunctionMap then "unknown"
      else
        var m := AlleleFunctionMap[g];
        FunctionsNamed(g);
        if star.value in m then m[star.value] else "unknown"
  }

  /** Every function named in the table is one of the five function words. */
  lemma FunctionsNamed(gene: string)
    requires gene in AlleleFunctionMap
    ensures AlleleFunctionMap[gene].Values <= Functions
  {
    var m := AlleleFunctionMap[gene];
    assert m in {Cyp2c19Functions, Cyp2c9Functions, TpmtFunctions, DpydFunctions, Slco1b1Functions, Cyp2d6Functions};
  }

  datatype DetectedVariant = DetectedVariant(
    gene: string, rsid: string, chrom: string, position: int,
    genotype: string, starAllele: string, alleleFunction: string)

  /** Columns generate_detected_variants needs, listed in sorted order. */
  const Required: seq<string> := ["Chrom", "Diplotype", "Gene", "Genotype", "Phenotype", "Position", "RSID"]

  lemma RequiredSorted()
    ensures Sorted(Required)
  {
    assert StrLess("Chrom", "Diplotype") && StrLess("Diplotype", "Gene") && StrLess("Gene", "Genotype");
    assert StrLess("Genotype", "Phenotype") && StrLess("Phenotype", "Position") && StrLess("Position", "RSID");
    ChainSorted(Required);
  }

  /** The error int() raises on a NaN Position. */
  const PositionError: string := "ValueError: cannot convert float NaN to integer"

  /** str() of a cell: the text, or "None" for a missing value. */
  function Str(cell: Option<string>): string {
    if cell.Some? then cell.value else "None"
  }

  /** The star of a row: a STAR cell other than "" or "." (taken as it is, not stripped)
      when the frame has a STAR column, else the rsID table's entry. */
  function RowStar(f: Frame, row: Row): (r: Option<string>)
    ensures (var c := StarCell(f, row); c.Some? && c.value != "" && c.value != "." ==> r == c)
    ensures (var c := StarCell(f, row); !(c.Some? && c.value != "" && c.value != ".") ==> r == StarAllele(row.gene, row.rsid))
  {
    var c := StarCell(f, row);
    if c.Some? && c.value != "" && c.value != "." then c else StarAllele(row.gene, row.rsid)
  }

  /** A row yields a record: its raw Genotype is not exactly "0/0", it has an rsID, and
      a star resolves. */
  predicate Kept(f: Frame, row: Row) {
    row.genotype != Some("0/0") && row.rsid.Some? && RowStar(f, row).Some?
  }

  /** The record of a kept row with a Position. */
  function RecordOf(f: Frame, row: Row): DetectedVariant
    requires Kept(f, row) && row.position.Some?
  {
    var star := RowStar(f, row).value;
    DetectedVariant(row.gene, row.rsid.value, Str(row.chrom), row.position.value,
      Str(row.genotype), star, AlleleFunction(row.gene, Some(star)))
  }

  /** The kept rows, in order. */
  function KeptRows(f: Frame, rows: seq<Row>): (r: seq<Row>)
    ensures |r| <= |rows|
    ensures forall i :: 0 <= i < |r| ==> Kept(f, r[i])
  {
    if rows == [] then []
    else KeptRows(f, rows[..|rows| - 1]) + (if Kept(f, rows[|rows| - 1]) then [rows[|rows| - 1]] else [])
  }

  predicate Positioned(rows: seq<Row>) {
    forall i :: 0 <= i < |rows| ==> rows[i].position.Some?
  }

  function Records(f: Frame, rows: seq<Row>): (r: seq<DetectedVariant>)
    requires forall i :: 0 <= i < |rows| ==> Kept(f, rows[i]) && rows[i].position.Some?
    ensures |r| == |rows|
    ensures forall i :: 0 <= i < |rows| ==> r[i] == RecordOf(f, rows[i])
  {
    seq(|rows|, i requires 0 <= i < |rows| => RecordOf(f, rows[i]))
  }

  /** generate_detected_variants as a whole: the missing-columns ValueError, the error of
      a kept row without a Position, or the records of the kept rows in order. */
  function Detected(f: Frame): Result<seq<DetectedVariant>> {
    var missing := MissingColumns(Required, f.columns);
    if missing != [] then Err(MissingMessage(missing)) else Collected(f)
  }

  /** The row loop's result: the error of a kept row without a Position, or the records
      of the kept rows in order. */
  function Collected(f: Frame): Result<seq<DetectedVariant>> {
    var kept := KeptRows(f, f.rows);
    if !Positioned(kept) then Err(PositionError) else Ok(Records(f, kept))
  }

  lemma KeptRowsSnoc(f: Frame, rows: seq<Row>, row: Row)
    ensures KeptRows(f, rows + [row]) == KeptRows(f, rows) + (if Kept(f, row) then [row] else [])
  {
    assert (rows + [row])[..|rows|] == rows;
  }

  /** The loop state after the first i rows: every kept row among them has a Position,
      and records holds their records in order. */
  predicate Progress(f: Frame, i: nat, records: seq<DetectedVariant>)
    requires i <= |f.rows|
  {
    var kept := KeptRows(f, f.rows[..i]);
    Positioned(kept) && records == Records(f, kept)
  }

  /** A row that is not kept leaves the kept rows as they were. */
  lemma SkipRow(f: Frame, i: nat, records: seq<DetectedVariant>)
    requires i < |f.rows| && !Kept(f, f.rows[i]) && Progress(f, i, records)
    ensures Progress(f, i + 1, records)
  {
    var rows := f.rows;
    assert rows[..i + 1] == rows[..i] + [rows[i]];
    KeptRowsSnoc(f, rows[..i], rows[i]);
  }

  /** A kept row with a Position adds its record to the records of the kept rows. */
  lemma TakeRow(f: Frame, i: nat, records: seq<DetectedVariant>)
    requires i < |f.rows| && Kept(f, f.rows[i]) && f.rows[i].position.Some?
    requires Progress(f, i, records)
    ensures Progress(f, i + 1, records + [RecordOf(f, f.rows[i])])
  {
    var rows := f.rows;
    var kept := KeptRows(f, rows[..i]);
    assert rows[..i + 1] == rows[..i] + [rows[i]];
    KeptRowsSnoc(f, rows[..i], rows[i]);
    assert KeptRows(f, rows[..i + 1]) == kept + [rows[i]];
    RecordsSnoc(f, kept, rows[i]);
  }

  /** After the last row, the records are the loop's result. */
  lemma ProgressDone(f: Frame, records: seq<DetectedVariant>)
    requires Progress(f, |f.rows|, records)
    ensures Collected(f) == Ok(records)
  {
    assert f.rows[..|f.rows|] == f.rows;
  }

  /** What one pass of the loop body makes of a row. */
  datatype RowOutcome = Skip | NoPosition | Record(record: DetectedVariant)

  /** The loop body on one row: skipped when its raw Genotype is "0/0", it has no rsID or
      no star resolves; otherwise int() of a missing Position fails, or the row's record. */
  method VisitRow(f: Frame, row: Row) returns (o: RowOutcome)
    ensures o.Skip? <==> !Kept(f, row)
    ensures o.NoPosition? <==> Kept(f, row) && row.position.None?
    ensures o.Record? ==> Kept(f, row) && row.position.Some? && o.record == RecordOf(f, row)
  {
    if row.genotype == Some("0/0") || row.rsid.None? {
      return Skip;
    }
    var star := RowStar(f, row);
    if star.None? {
      return Skip;
    }
    if row.position.None? {
      return NoPosition;
    }
    var alleleFunction := AlleleFunction(row.gene, star);
    o := Record(DetectedVariant(row.gene, row.rsid.value, Str(row.chrom), row.position.value,
      Str(row.genotype), star.value, alleleFunction));
  }

  /** generate_detected_variants: the missing-columns ValueError, else the row loop. */
  method GenerateDetectedVariants(f: Frame) returns (r: Result<seq<DetectedVariant>>)
    ensures r == Detected(f)
  {
    var missing := MissingColumns(Required, f.columns);
    if missing != [] {
      return Err(MissingMessage(missing));
    }
    r := CollectRecords(f);
  }

  /** The loop over the rows of generate_detected_variants, appending one record per kept
      row and failing at the first kept row without a Position. */
  method CollectRecords(f: Frame) returns (r: Result<seq<DetectedVariant>>)
    ensures r == Collected(f)
  {
    var records: seq<DetectedVariant> := [];
    var i := 0;
    assert f.rows[..0] == [];
    while i < |f.rows|
      invariant 0 <= i <= |f.rows| && Progress(f, i, records)
    {
      var o := VisitRow(f, f.rows[i]);
      match o {
        case Skip =>
          SkipRow(f, i, records);
        case NoPosition =>
          KeptUnpositioned(f, f.rows, i);
          return Err(PositionError);
        case Record(record) =>
          TakeRow(f, i, records);
          records := records + [record];
      }
      i := i + 1;
    }
    ProgressDone(f, records);
    r := Ok(records);
  }

  lemma RecordsSnoc(f: Frame, kept: seq<Row>, row: Row)
    requires Positioned(kept) && forall i :: 0 <= i < |kept| ==> Kept(f, kept[i])
    requires Kept(f, row) && row.position.Some?
    ensures Positioned(kept + [row])
    ensures Records(f, kept + [row]) == Records(f, kept) + [RecordOf(f, row)]
  {
  }

  /** A kept row without a Position anywhere in the frame makes the whole call fail. */
  lemma KeptUnpositioned(f: Frame, rows: seq<Row>, i: nat)
    requires i < |rows| && Kept(f, rows[i]) && rows[i].position.None?
    ensures !Positioned(KeptRows(f, rows))
  {
    KeptRowsHas(f, rows, i);
  }

  /** Every kept row is among the kept rows. */
  lemma {:induction false} KeptRowsHas(f: Frame, rows: seq<Row>, i: nat)
    requires i < |rows| && Kept(f, rows[i])
    ensures rows[i] in KeptRows(f, rows)
  {
    var n := |rows| - 1;
    assert rows == rows[..n] + [rows[n]];
    KeptRowsSnoc(f, rows[..n], rows[n]);
    if i < n {
      KeptRowsHas(f, rows[..n], i);
    }
  }

  /** build_detected_variants_json: a dict with the single key "detected_variants". */
  method BuildDetectedVariantsJson(f: Frame) returns (r: Result<map<string, seq<DetectedVariant>>>)
    ensures Detected(f).Err? ==> r == Err(Detected(f).message)
    ensures Detected(f).Ok? ==> r == Ok(map["detected_variants" := Detected(f).value])
  {
    var v := GenerateDetectedVariants(f);
    if v.Err? {
      return Err(v.message);
    }
    r := Ok(map["detected_variants" := v.value]);
  }

  // ---------------------------------------------------------------------------
  // Properties of the record list
  // ---------------------------------------------------------------------------

  /** The error cases, both ways: a missing required column, else a kept row without a
      Position; with all columns and every kept row positioned the call succeeds. */
  lemma DetectedErrors(f: Frame)
    ensures var missing := MissingColumns(Required, f.columns);
      && (missing != [] ==> Detected(f) == Err(MissingMessage(missing)))
      && (missing == [] ==> (Detected(f).Err? <==>
            exists i :: 0 <= i < |f.rows| && Kept(f, f.rows[i]) && f.rows[i].position.None?))
  {
    var kept := KeptRows(f, f.rows);
    if !Positioned(kept) {
      var k :| 0 <= k < |kept| && kept[k].position.None?;
      KeptRowsFrom(f, f.rows, k);
    } else {
      forall i | 0 <= i < |f.rows| && Kept(f, f.rows[i])
        ensures f.rows[i].position.Some?
      {
        KeptRowsHas(f, f.rows, i);
      }
    }
  }

  /** Every kept row comes from the frame. */
  lemma {:induction false} KeptRowsFrom(f: Frame, rows: seq<Row>, k: nat)
    requires k < |KeptRows(f, rows)|
    ensures exists i :: 0 <= i < |rows| && rows[i] == KeptRows(f, rows)[k]
  {
    var n := |rows| - 1;
    assert rows == rows[..n] + [rows[n]];
    KeptRowsSnoc(f, rows[..n], rows[n]);
    if k < |KeptRows(f, rows[..n])| {
      KeptRowsFrom(f, rows[..n], k);
      var i :| 0 <= i < n && rows[..n][i] == KeptRows(f, rows[..n])[k];
      assert rows[i] == rows[..n][i];
    } else {
      assert KeptRows(f, rows)[k] == rows[n];
    }
  }

  /** The records: at most one per row, in row order; none with a raw "0/0" genotype;
      each star non-empty and not "."; each function the one the table gives its star. */
  lemma RecordsDescribed(f: Frame)
    requires Detected(f).Ok?
    ensures var out := Detected(f).value;
      && |out| <= |f.rows|
      && out == Records(f, KeptRows(f, f.rows))
      && forall k :: 0 <= k < |out| ==>
           && out[k].genotype != "0/0"
           && out[k].starAllele != "" && out[k].starAllele != "."
           && out[k].alleleFunction == AlleleFunction(out[k].gene, Some(out[k].starAllele))
  {
    var kept := KeptRows(f, f.rows);
    forall k | 0 <= k < |kept|
      ensures RecordOf(f, kept[k]).starAllele != "" && RecordOf(f, kept[k]).starAllele != "."
    {
      TableStarsNamed(kept[k].gene, kept[k].rsid);
    }
  }

  /** Every star in the rsID table is a named star, never "" or ".". */
  lemma TableStarsNamed(gene: string, rsid: Option<string>)
    ensures var s := StarAllele(gene, rsid); s.Some? ==> s.value != "" && s.value != "."
  {
    var s := StarAllele(gene, rsid);
    if s.Some? {
      var g := Strip(gene);
      D.StarsNamed(g);
      assert s.value in D.StarDefinitions[g].Values;
    }
  }

  /** The raw-text filter: a "0|0" row is not dropped as "0/0" is, so a phased
      homozygous-reference row with an rsID in the table yields a record. */
  lemma PhasedReferenceKept(f: Frame, row: Row)
    requires row.genotype == Some("0|0") && row.rsid.Some?
    requires StarAllele(row.gene, row.rsid).Some?
    ensures Kept(f, row)
  {
  }
}
