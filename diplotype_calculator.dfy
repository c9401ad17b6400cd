/** The older diplotype caller: a smaller rsID table, a genotype normaliser that does
    not strip the whole text first, and a row loop in which the last homozygous row
    wins and heterozygous stars are kept in row order without removing repeats. */
module DiplotypeCalculator {
  import opened Text
  import opened Frames
  import P = PhenotypeCalculator

  /** rsID to star allele, per gene (the older, smaller table). */
  const StarDefinitions: map<string, map<string, string>> := map[
    "CYP2C19" := Cyp2c19Stars, "CYP2C9" := Cyp2c9Stars, "TPMT" := TpmtStars,
    "DPYD" := DpydStars, "SLCO1B1" := Slco1b1Stars, "CYP2D6" := Cyp2d6Stars]

  const Cyp2c19Stars: map<string, string> := map["rs4244285" := "*2", "rs4986893" := "*3", "rs12248560" := "*17"]
  const Cyp2c9Stars: map<string, string> := map["rs1799853" := "*2", "rs1057910" := "*3"]
  const TpmtStars: map<string, string> := map["rs1142345" := "*3C", "rs1800460" := "*3B", "rs1800462" := "*2"]
  const DpydStars: map<string, string> := map["rs3918290" := "*2A", "rs67376798" := "*13", "rs55886062" := "*HapB3"]
  const Slco1b1Stars: map<string, string> := map["rs4149056" := "*5"]
  const Cyp2d6Stars: map<string, string> := map["rs3892097" := "*4", "rs1065852" := "*10"]

  /** Every star of the table is named: never empty, never ".". */
  lemma StarsNamed(gene: string)
    requires gene in StarDefinitions
    ensures "" !in StarDefinitions[gene].Values && "." !in StarDefinitions[gene].Values
  {
    var m := StarDefinitions[gene];
    assert m in {Cyp2c19Stars, Cyp2c9Stars, TpmtStars, DpydStars, Slco1b1Stars, Cyp2d6Stars};
    TablesStarred();
    forall v | v in m.Values
      ensures v != "" && v != "."
    {
      var x :| x in m && m[x] == v;
    }
  }

  /** Every value of the map starts with '*'. */
  predicate Starred(m: map<string, string>) {
    forall x :: x in m ==> |m[x]| > 0 && m[x][0] == '*'
  }

  lemma TablesStarred()
    ensures Starred(Cyp2c19Stars) && Starred(Cyp2c9Stars) && Starred(TpmtStars) && Starred(DpydStars) && Starred(Slco1b1Stars) && Starred(Cyp2d6Stars)
  {
    FirstTablesStarred();
    LastTablesStarred();
  }

  lemma FirstTablesStarred()
    ensures Starred(Cyp2c19Stars) && Starred(Cyp2c9Stars) && Starred(TpmtStars)
  {
    assert Starred(Cyp2c19Stars);
    assert Starred(Cyp2c9Stars);
    assert Starred(TpmtStars);
  }

  lemma LastTablesStarred()
    ensures Starred(DpydStars) && Starred(Slco1b1Stars) && Starred(Cyp2d6Stars)
  {
    assert Starred(DpydStars);
    assert Starred(Slco1b1Stars);
    assert Starred(Cyp2d6Stars);
  }

  function StarMap(gene: string): map<string, string> {
    if gene in StarDefinitions then StarDefinitions[gene] else map[]
  }

  // ---------------------------------------------------------------------------
  // _normalize_genotype
  // ---------------------------------------------------------------------------

  /** The normalised genotype of a raw Genotype text, split without stripping it first. */
  function LegacyNormalized(g: string): (r: string)
    ensures r in P.Zygosities
    ensures g == "" || g == "./." ==> r == "0/0"
    ensures '/' !in g && '|' !in g ==> r == "0/0"
  {
    if g == "" || g == "./." then "0/0"
    else if '/' !in g && '|' !in g then "0/0"
    else
      var sep := if '/' in g then '/' else '|';
      var parts := Split(g, sep);
      if |parts| != 2 then "0/0" else P.Zygosity(P.AlleleBit(parts[0]), P.AlleleBit(parts[1]))
  }

  method LegacyNormalize(g: string) returns (r: string)
    ensures r == LegacyNormalized(g)
  {
    if g == "" || g == "./." {
      return "0/0";
    }
    var sep: char;
    if '/' in g {
      sep := '/';
    } else if '|' in g {
      sep := '|';
    } else {
      return "0/0";
    }
    var parts := Split(g, sep);
    if |parts| != 2 {
      return "0/0";
    }
    var alleles := P.AlleleBits(parts);
    var lo, hi := alleles[0], alleles[1];
    if lo > hi {
      lo, hi := hi, lo;
    }
    P.ZygosityText(lo, hi);
    r := NatToString(lo) + "/" + NatToString(hi);
  }

  /** A raw text with exactly one separator c, split around it. */
  lemma LegacyOneSeparator(a: string, c: char, b: string)
    requires c == '/' || c == '|'
    requires '/' !in a && '/' !in b
    requires c == '|' ==> '|' !in a && '|' !in b
    ensures LegacyNormalized(a + [c] + b) == P.Zygosity(P.AlleleBit(a), P.AlleleBit(b))
  {
    var g := a + [c] + b;
    assert g[|a|] == c;
    if g == "./." {
      LegacyDot(a, c, b);
    } else {
      SplitTwo(a, c, b);
      LegacySplit(g, a, c, b);
    }
  }

  lemma LegacyDot(a: string, c: char, b: string)
    requires '/' !in a && '/' !in b
    requires a + [c] + b == "./."
    ensures LegacyNormalized(a + [c] + b) == P.Zygosity(P.AlleleBit(a), P.AlleleBit(b))
  {
    P.JoinedDot(a, c, b);
    assert Strip(".") == "." by { StripOf([], ".", []); assert [] + "." + [] == "."; }
  }

  lemma LegacySplit(g: string, a: string, c: char, b: string)
    requires c == '/' || c == '|'
    requires g == a + [c] + b && g != "./."
    requires c in g && (c == '|' ==> '/' !in g)
    requires Split(g, c) == [a, b]
    ensures LegacyNormalized(g) == P.Zygosity(P.AlleleBit(a), P.AlleleBit(b))
  {
    assert g != "";
  }

  /** A raw text with a second separator c after the first splits into three or more. */
  lemma LegacyManySeparators(a: string, c: char, b: string)
    requires c == '/' || c == '|'
    requires c !in a && c in b
    requires c == '|' ==> '/' !in a + [c] + b
    ensures LegacyNormalized(a + [c] + b) == "0/0"
  {
    var g := a + [c] + b;
    assert g[|a|] == c;
    SplitAfterFirst(a, c, b);
    assert |Split(b, c)| >= 2;
  }

  /** The same stripped text with two or more separators c normalises to "0/0". */
  lemma StrippedManySeparators(a: string, c: char, b: string)
    requires c == '/' || c == '|'
    requires c !in a && c in b
    requires c == '|' ==> '/' !in a + [c] + b
    ensures P.Normalized(Some(a + [c] + b)) == "0/0"
  {
    var g := a + [c] + b;
    var x, y := TrimLeft(a), TrimRight(b);
    assert !IsSpace(c);
    StripAround(a, c, b);
    TrimRightKeeps(b, c);
    assert c !in x;
    SplitAfterFirst(x, c, y);
    assert |Split(y, c)| >= 2;
    if c == '|' {
      assert '/' !in Strip(g) by {
        if '/' in Strip(g) {
          StripIn(g, '/');
        }
      }
    }
    StrippedSplitMany(g, c);
  }

  lemma StrippedSplitMany(g: string, c: char)
    requires c == '/' || c == '|'
    requires c in Strip(g)
    requires c == '|' ==> '/' !in Strip(g)
    requires |Split(Strip(g), c)| >= 3
    ensures P.Normalized(Some(g)) == "0/0"
  {
  }

  /** _normalize_genotype and normalize_genotype agree on every text: stripping the whole
      text first changes nothing, since each allele field is stripped anyway. */
  lemma LegacyNormalizeAgrees(g: string)
    ensures LegacyNormalized(g) == P.Normalized(Some(g))
  {
    if g == "" {
      assert Strip(g) == "";
    } else if g == "./." {
      assert Strip(g) == g by { StripOf([], g, []); assert [] + g + [] == g; }
    } else if '/' in g || '|' in g {
      var c := if '/' in g then '/' else '|';
      var i := FindChar(g, c).value;
      var a, b := g[..i], g[i + 1..];
      assert g == a + [c] + b;
      if c in b {
        LegacyManySeparators(a, c, b);
        StrippedManySeparators(a, c, b);
      } else {
        LegacyOneSeparator(a, c, b);
        P.NormalizeJoined(a, c, b);
      }
    }
  }

  // ---------------------------------------------------------------------------
  // _compute_gene_diplotype
  // ---------------------------------------------------------------------------

  /** The (star, zygosity) one row of the gene contributes; rows with no RSID or Genotype,
      an rsID outside the gene's table, or a genotype normalising to "0/0" contribute none. */
  function LegacyHit(starMap: map<string, string>, row: Row): (r: Option<(string, string)>)
    ensures r.Some? ==> (row.rsid.Some? && row.genotype.Some? && row.rsid.value in starMap
      && r.value.0 == starMap[row.rsid.value] && r.value.1 == LegacyNormalized(row.genotype.value))
    ensures r.Some? ==> r.value.1 in {"0/1", "1/1"}
    ensures (row.rsid.Some? && row.genotype.Some? && row.rsid.value in starMap
      && LegacyNormalized(row.genotype.value) != "0/0") ==> r.Some?
  {
    if row.rsid.None? || row.genotype.None? || row.rsid.value !in starMap then None
    else
      var gt := LegacyNormalized(row.genotype.value);
      if gt == "0/0" then None else Some((starMap[row.rsid.value], gt))
  }

  /** The contributions of the gene's rows, in row order. */
  function Hits(starMap: map<string, string>, rows: seq<Row>): (r: seq<(string, string)>)
    ensures |r| <= |rows|
    ensures forall i :: 0 <= i < |r| ==> r[i].1 in {"0/1", "1/1"}
  {
    if rows == [] then []
    else
      var h := LegacyHit(starMap, rows[|rows| - 1]);
      Hits(starMap, rows[..|rows| - 1]) + (if h.Some? then [h.value] else [])
  }

  datatype Scan = Scan(allele1: string, allele2: string, mutated: seq<string>)

  /** The loop state after the contributions: a "1/1" sets both alleles, a "0/1" is
      appended to the mutated list. */
  function ScanOf(hits: seq<(string, string)>): Scan {
    if hits == [] then Scan("*1", "*1", [])
    else
      var st := ScanOf(hits[..|hits| - 1]);
      var h := hits[|hits| - 1];
      if h.1 == "1/1" then st.(allele1 := h.0, allele2 := h.0)
      else if h.1 == "0/1" then st.(mutated := st.mutated + [h.0])
      else st
  }

  lemma ScanSnoc(hits: seq<(string, string)>, x: (string, string))
    ensures ScanOf(hits + [x]) == (var st := ScanOf(hits);
      if x.1 == "1/1" then st.(allele1 := x.0, allele2 := x.0)
      else if x.1 == "0/1" then st.(mutated := st.mutated + [x.0])
      else st)
  {
    assert (hits + [x])[..|hits|] == hits;
  }

  /** The final choice: alleles still both *1 take the mutated list, one star S giving
      *1 with S and two or more giving the first two. */
  function Finish(st: Scan): string {
    if st.allele1 == "*1" && st.allele2 == "*1" then
      if |st.mutated| == 1 then "*1/" + st.mutated[0]
      else if |st.mutated| >= 2 then st.mutated[0] + "/" + st.mutated[1]
      else "*1/*1"
    else st.allele1 + "/" + st.allele2
  }

  /** _compute_gene_diplotype on the rows of one gene. */
  function LegacyCall(gene: string, geneRows: seq<Row>): string {
    var starMap := StarMap(gene);
    if starMap == map[] || geneRows == [] then "*1/*1" else Finish(ScanOf(Hits(starMap, geneRows)))
  }

  method ComputeGeneDiplotype(geneRows: seq<Row>, gene: string) returns (d: string)
    ensures d == LegacyCall(gene, geneRows)
  {
    var starMap := StarMap(gene);
    if starMap == map[] || geneRows == [] {
      return "*1/*1";
    }
    var allele1, allele2 := "*1", "*1";
    var mutated: seq<string> := [];
    var i := 0;
    while i < |geneRows|
      invariant 0 <= i <= |geneRows|
      invariant Scan(allele1, allele2, mutated) == ScanOf(Hits(starMap, geneRows[..i]))
    {
      var row := geneRows[i];
      assert geneRows[..i + 1][..i] == geneRows[..i];
      assert geneRows[..i + 1][i] == row;
      ghost var hits := Hits(starMap, geneRows[..i]);
      ghost var h := LegacyHit(starMap, row);
      assert Hits(starMap, geneRows[..i + 1]) == hits + (if h.Some? then [h.value] else []);
      if row.rsid.Some? && row.genotype.Some? && row.rsid.value in starMap {
        var gt := LegacyNormalize(row.genotype.value);
        if gt != "0/0" {
          var star := starMap[row.rsid.value];
          assert h == Some((star, gt));
          ScanSnoc(hits, (star, gt));
          if gt == "1/1" {
            allele1, allele2 := star, star;
          } else if gt == "0/1" {
            mutated := mutated + [star];
          }
          assert Hits(starMap, geneRows[..i + 1]) == hits + [(star, gt)];
        } else {
          assert Hits(starMap, geneRows[..i + 1]) == hits;
        }
      } else {
        assert Hits(starMap, geneRows[..i + 1]) == hits;
      }
      i := i + 1;
    }
    assert geneRows[..|geneRows|] == geneRows;
    if allele1 == "*1" && allele2 == "*1" {
      if |mutated| == 1 {
        allele2 := mutated[0];
      } else if |mutated| >= 2 {
        allele1, allele2 := mutated[0], mutated[1];
      }
    }
    d := allele1 + "/" + allele2;
  }

  // An independent description of the scan: the homozygous and heterozygous stars in
  // row order.

  function StarsWith(hits: seq<(string, string)>, gt: string): (r: seq<string>)
    ensures |r| <= |hits|
  {
    if hits == [] then []
    else StarsWith(hits[..|hits| - 1], gt) + (if hits[|hits| - 1].1 == gt then [hits[|hits| - 1].0] else [])
  }

  /** After the loop the alleles are the last homozygous star (or *1 twice when there is
      none), and the mutated list holds every heterozygous star in row order, repeats kept. */
  lemma {:induction false} ScanMeaning(hits: seq<(string, string)>)
    ensures var st := ScanOf(hits);
      var hom := StarsWith(hits, "1/1");
      && st.mutated == StarsWith(hits, "0/1")
      && (|hom| == 0 ==> st.allele1 == "*1" && st.allele2 == "*1")
      && (|hom| > 0 ==> st.allele1 == hom[|hom| - 1] && st.allele2 == hom[|hom| - 1])
  {
    if hits != [] {
      ScanMeaning(hits[..|hits| - 1]);
    }
  }

  /** The last homozygous row wins: when some row of the gene is homozygous for a star
      other than *1, the call is S/S for the star S of the last such row. */
  lemma LastHomozygousWins(gene: string, geneRows: seq<Row>)
    requires StarMap(gene) != map[] && geneRows != []
    requires var hom := StarsWith(Hits(StarMap(gene), geneRows), "1/1");
      |hom| > 0 && hom[|hom| - 1] != "*1"
    ensures var hom := StarsWith(Hits(StarMap(gene), geneRows), "1/1");
      LegacyCall(gene, geneRows) == hom[|hom| - 1] + "/" + hom[|hom| - 1]
  {
    ScanMeaning(Hits(StarMap(gene), geneRows));
  }

  /** With no homozygous row, one heterozygous star S gives *1/S and two or more give
      the first two in row order, repeats included. */
  lemma HeterozygousOnly(gene: string, geneRows: seq<Row>)
    requires StarMap(gene) != map[] && geneRows != []
    requires |StarsWith(Hits(StarMap(gene), geneRows), "1/1")| == 0
    ensures var het := StarsWith(Hits(StarMap(gene), geneRows), "0/1");
      && (|het| == 0 ==> LegacyCall(gene, geneRows) == "*1/*1")
      && (|het| == 1 ==> LegacyCall(gene, geneRows) == "*1/" + het[0])
      && (|het| >= 2 ==> LegacyCall(gene, geneRows) == het[0] + "/" + het[1])
  {
    ScanMeaning(Hits(StarMap(gene), geneRows));
  }

  /** Rows that contribute nothing (no RSID, no Genotype, an rsID outside the table, or
      a "0/0" genotype) can be dropped without changing the call. */
  lemma {:induction false} SilentRowsIgnored(starMap: map<string, string>, rows: seq<Row>, row: Row)
    requires LegacyHit(starMap, row).None?
    ensures Hits(starMap, rows + [row]) == Hits(starMap, rows)
  {
    assert (rows + [row])[..|rows|] == rows;
  }

  // ---------------------------------------------------------------------------
  // calculate_diplotype
  // ---------------------------------------------------------------------------

  /** The rows whose Gene cell equals gene, in order. */
  function GeneRows(gene: string, rows: seq<Row>): (r: seq<Row>)
    ensures |r| <= |rows|
    ensures forall i :: 0 <= i < |r| ==> r[i].gene == gene
  {
    if rows == [] then []
    else GeneRows(gene, rows[..|rows| - 1]) + (if rows[|rows| - 1].gene == gene then [rows[|rows| - 1]] else [])
  }

  /** A row of the result: its gene's call for a pharmacogene, NA otherwise. */
  function LegacyRow(rows: seq<Row>, row: Row): Row {
    if row.gene in P.PgxGenes then row.(diplotype := Some(LegacyCall(row.gene, GeneRows(row.gene, rows))))
    else row.(diplotype := None)
  }

  /** calculate_diplotype: a ValueError naming the missing required columns in sorted
      order, or a copy of the frame with a Diplotype column, every row of a pharmacogene
      carrying its gene's call and every other row NA. */
  method CalculateDiplotype(f: Frame) returns (r: Result<Frame>)
    ensures var missing := MissingColumns(DiplotypeRequired, f.columns);
      (r.Err? <==> missing != []) && (r.Err? ==> r.message == MissingMessage(missing))
    ensures r.Ok? ==> (r.value.columns == f.columns + {"Diplotype"}
      && |r.value.rows| == |f.rows|
      && forall j :: 0 <= j < |f.rows| ==> r.value.rows[j] == LegacyRow(f.rows, f.rows[j]))
  {
    var missing := MissingColumns(DiplotypeRequired, f.columns);
    if missing != [] {
      return Err(MissingMessage(missing));
    }
    var rows := seq(|f.rows|, j requires 0 <= j < |f.rows| => f.rows[j].(diplotype := None));
    var g := 0;
    while g < |P.PgxGeneOrder|
      invariant 0 <= g <= |P.PgxGeneOrder|
      invariant |rows| == |f.rows|
      invariant forall j :: 0 <= j < |f.rows| ==> rows[j] == PartlyCalled(f.rows, g, f.rows[j])
    {
      var gene := P.PgxGeneOrder[g];
      var d := ComputeGeneDiplotype(GeneRows(gene, f.rows), gene);
      rows := seq(|rows|, j requires 0 <= j < |rows| =>
        if f.rows[j].gene == gene then f.rows[j].(diplotype := Some(d)) else rows[j]);
      forall j | 0 <= j < |f.rows|
        ensures rows[j] == PartlyCalled(f.rows, g + 1, f.rows[j])
      {
        PartlyCalledStep(f.rows, g, f.rows[j]);
      }
      g := g + 1;
    }
    forall j | 0 <= j < |f.rows|
      ensures rows[j] == LegacyRow(f.rows, f.rows[j])
    {
      AllCalled(f.rows, f.rows[j]);
    }
    r := Ok(Frame(f.columns + {"Diplotype"}, rows));
  }

  /** A row once the first g genes of the call order have been resolved. */
  function PartlyCalled(rows: seq<Row>, g: nat, row: Row): Row
    requires g <= |P.PgxGeneOrder|
  {
    if row.gene in P.PgxGeneOrder[..g] then LegacyRow(rows, row) else row.(diplotype := None)
  }

  lemma PartlyCalledStep(rows: seq<Row>, g: nat, row: Row)
    requires g < |P.PgxGeneOrder|
    ensures PartlyCalled(rows, g + 1, row) ==
      if row.gene == P.PgxGeneOrder[g] then row.(diplotype := Some(LegacyCall(row.gene, GeneRows(row.gene, rows))))
      else PartlyCalled(rows, g, row)
  {
    assert P.PgxGeneOrder[..g + 1] == P.PgxGeneOrder[..g] + [P.PgxGeneOrder[g]];
    assert P.PgxGeneOrder[g] in P.PgxGenes;
  }

  lemma AllCalled(rows: seq<Row>, row: Row)
    ensures PartlyCalled(rows, |P.PgxGeneOrder|, row) == LegacyRow(rows, row)
  {
    assert P.PgxGeneOrder[..|P.PgxGeneOrder|] == P.PgxGeneOrder;
    assert forall x :: x in P.PgxGeneOrder <==> x in P.PgxGenes;
  }
}
