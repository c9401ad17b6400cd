/** VCF record extraction: gene tokens, GT rendering, PASS filtering, rsID
    precedence, grouping by gene, and flattening the groups into table rows.
    A VCF record is given as the values the VCF reader yields for it. */
module VcfToTable {
  import opened Text
  import opened Frames

  /** An INFO value: a scalar carries its str() rendering; a list or tuple carries
      its items (None for a missing item) and its own str() rendering. */
  datatype InfoValue = Scalar(text: string) | Items(items: seq<Option<string>>, rendered: string)

  type Info = map<string, InfoValue>

  /** A VCF record. `filter` is None for PASS or '.', `id` is None when the ID column
      is missing, and `genotypes` holds one GT list per sample: the two allele indices
      (None or negative for a missing call) and the phased flag. */
  datatype Variant = Variant(
    filter: Option<string>,
    info: Option<Info>,
    id: Option<string>,
    chrom: string,
    pos: int,
    genotypes: seq<seq<Option<int>>>)

  datatype PgxRecord = PgxRecord(rsid: Option<string>, chrom: string, position: int, genotype: string, star: Option<string>)

  /** A dict from gene to its records; the sequence keeps the dict's insertion order. */
  type Groups = seq<(string, seq<PgxRecord>)>

  const PgxGenes: set<string> := {"CYP2D6", "CYP2C19", "CYP2C9", "SLCO1B1", "TPMT", "DPYD"}

  function Get(info: Info, key: string): Option<InfoValue> {
    if key in info then Some(info[key]) else None
  }

  /** Python's `value in (None, "", ".")` for an INFO value. */
  predicate IsBlank(v: Option<InfoValue>) {
    v.None? || v == Some(Scalar("")) || v == Some(Scalar("."))
  }

  /** str() of an INFO value. */
  function Render(v: InfoValue): string {
    match v
    case Scalar(t) => t
    case Items(_, r) => r
  }

  /** Reads a tag as a string, None when it is missing, "" or ".". */
  function TagText(v: Option<InfoValue>): (r: Option<string>)
    ensures r.None? <==> IsBlank(v)
    ensures r.Some? ==> r.value == Render(v.value)
  {
    if IsBlank(v) then None else Some(Render(v.value))
  }

  /** The primary gene named by INFO GENE. */
  function ExtractPrimaryGene(info: Info): (r: Option<string>)
    ensures r.None? <==> ("GENE" !in info || info["GENE"] in {Scalar(""), Scalar(".")})
    ensures r.Some? ==> r.value == Render(info["GENE"])
  {
    TagText(Get(info, "GENE"))
  }

  // ---------------------------------------------------------------------------
  // Gene tokens
  // ---------------------------------------------------------------------------

  predicate IsDelimiter(c: char) {
    c == ',' || c == '|' || c == '&' || c == ';'
  }

  /** The text with each of , | & ; replaced by a space. */
  function ReplaceDelimiters(text: string): (r: string)
    ensures |r| == |text|
    ensures forall i :: 0 <= i < |text| ==> r[i] == (if IsDelimiter(text[i]) then ' ' else text[i])
  {
    ReplaceChar(ReplaceChar(ReplaceChar(ReplaceChar(text, ',', ' '), '|', ' '), '&', ' '), ';', ' ')
  }

  /** The tokens one INFO item contributes. */
  function ItemTokens(item: Option<string>): (r: seq<string>)
    ensures item.None? ==> r == []
    ensures item.Some? && (Strip(item.value) == "" || Strip(item.value) == ".") ==> r == []
  {
    match item
    case None => []
    case Some(s) =>
      var text := Strip(s);
      if text == "" || text == "." then [] else SplitWhitespace(ReplaceDelimiters(text))
  }

  function ItemsOf(v: InfoValue): seq<Option<string>> {
    match v
    case Scalar(t) => [Some(t)]
    case Items(items, _) => items
  }

  function ItemsTokens(items: seq<Option<string>>): seq<string> {
    if |items| == 0 then [] else ItemsTokens(items[..|items| - 1]) + ItemTokens(items[|items| - 1])
  }

  predicate GoodToken(t: string) {
    t != [] && NoSpace(t) && forall i :: 0 <= i < |t| ==> !IsDelimiter(t[i])
  }

  lemma ItemTokensGood(item: Option<string>)
    ensures forall i :: 0 <= i < |ItemTokens(item)| ==> GoodToken(ItemTokens(item)[i])
  {
    if item.Some? {
      var text := Strip(item.value);
      if text != "" && text != "." {
        var d := ReplaceDelimiters(text);
        SplitWhitespaceKeeps(d, c => !IsDelimiter(c));
      }
    }
  }

  /** The gene tokens of an INFO GENE value: none for a missing value; missing, blank and
      "." items are skipped; no token is empty or holds a space or delimiter. */
  function GeneTokens(value: Option<InfoValue>): (r: seq<string>)
    ensures value.None? ==> r == []
    ensures forall i :: 0 <= i < |r| ==> GoodToken(r[i])
  {
    match value
    case None => []
    case Some(v) => ItemsTokensGood(ItemsOf(v)); ItemsTokens(ItemsOf(v))
  }

  lemma {:induction false} ItemsTokensGood(items: seq<Option<string>>)
    ensures forall i :: 0 <= i < |ItemsTokens(items)| ==> GoodToken(ItemsTokens(items)[i])
  {
    if |items| > 0 {
      ItemsTokensGood(items[..|items| - 1]);
      ItemTokensGood(items[|items| - 1]);
    }
  }

  /** The generator loop over the items, collecting every token it yields. */
  method IterGeneTokens(value: Option<InfoValue>) returns (tokens: seq<string>)
    ensures tokens == GeneTokens(value)
  {
    tokens := [];
    if value.None? {
      return;
    }
    var items := ItemsOf(value.value);
    var i := 0;
    while i < |items|
      invariant 0 <= i <= |items|
      invariant tokens == ItemsTokens(items[..i])
    {
      assert items[..i + 1][..i] == items[..i];
      tokens := tokens + ItemTokens(items[i]);
      i := i + 1;
    }
    assert items[..|items|] == items;
  }

  /** The first token that names a pharmacogene. */
  function FirstPgx(tokens: seq<string>): (r: Option<string>)
    ensures r.Some? ==> r.value in PgxGenes && r.value in tokens
    ensures r.Some? ==> exists k :: 0 <= k < |tokens| && tokens[k] == r.value && forall j :: 0 <= j < k ==> tokens[j] !in PgxGenes
    ensures r.None? <==> forall j :: 0 <= j < |tokens| ==> tokens[j] !in PgxGenes
  {
    if |tokens| == 0 then None
    else if tokens[0] in PgxGenes then Some(tokens[0])
    else
      var r := FirstPgx(tokens[1..]);
      if r.Some? then
        var k :| 0 <= k < |tokens[1..]| && tokens[1..][k] == r.value && forall j :: 0 <= j < k ==> tokens[1..][j] !in PgxGenes;
        assert tokens[k + 1] == r.value;
        assert forall j :: 0 <= j < k + 1 ==> tokens[j] !in PgxGenes by {
          forall j | 0 <= j < k + 1 ensures tokens[j] !in PgxGenes {
            if j > 0 { assert tokens[j] == tokens[1..][j - 1]; }
          }
        }
        r
      else
        assert forall j :: 0 <= j < |tokens| ==> tokens[j] !in PgxGenes by {
          forall j | 0 <= j < |tokens| ensures tokens[j] !in PgxGenes {
            if j > 0 { assert tokens[j] == tokens[1..][j - 1]; }
          }
        }
        r
  }

  /** The pharmacogene of a record: the first INFO GENE token in the gene set. */
  function ExtractGene(v: Variant): (r: Option<string>)
    ensures r.Some? ==> r.value in PgxGenes
    ensures v.info.None? ==> r.None?
    ensures v.info.Some? ==> r == FirstPgx(GeneTokens(Get(v.info.value, "GENE")))
  {
    if v.info.None? then None else FirstPgx(GeneTokens(Get(v.info.value, "GENE")))
  }

  /** The source's scan: return the first token found in the gene set. */
  method FindGene(v: Variant) returns (gene: Option<string>)
    ensures gene == ExtractGene(v)
  {
    if v.info.None? {
      return None;
    }
    var tokens := IterGeneTokens(Get(v.info.value, "GENE"));
    var i := 0;
    while i < |tokens|
      invariant 0 <= i <= |tokens|
      invariant forall j :: 0 <= j < i ==> tokens[j] !in PgxGenes
    {
      if tokens[i] in PgxGenes {
        assert FirstPgx(tokens) == Some(tokens[i]) by { FirstPgxAt(tokens, i); }
        return Some(tokens[i]);
      }
      i := i + 1;
    }
    return None;
  }

  lemma FirstPgxAt(tokens: seq<string>, i: nat)
    requires i < |tokens| && tokens[i] in PgxGenes
    requires forall j :: 0 <= j < i ==> tokens[j] !in PgxGenes
    ensures FirstPgx(tokens) == Some(tokens[i])
  {
    var r := FirstPgx(tokens);
    var k :| 0 <= k < |tokens| && tokens[k] == r.value && forall j :: 0 <= j < k ==> tokens[j] !in PgxGenes;
    assert k == i;
  }

  // ---------------------------------------------------------------------------
  // GT rendering (VCF v4.3, section 1.6.2: '/' unphased, '|' phased)
  // ---------------------------------------------------------------------------

  /** One allele index as text: "." for a missing or negative index. */
  function AlleleText(a: Option<int>): (r: string)
    ensures a.None? || a.value < 0 <==> r == "."
    ensures a.Some? && a.value >= 0 ==> ParseInt(r) == Some(a.value)
  {
    if a.None? || a.value < 0 then "." else ParseNatToString(a.value); NatToString(a.value)
  }

  /** bool() of the third GT item. */
  predicate Phased(sample: seq<Option<int>>)
    requires |sample| >= 3
  {
    sample[2].Some? && sample[2].value != 0
  }

  predicate GtPresent(genotypes: seq<seq<Option<int>>>) {
    |genotypes| > 0 && |genotypes[0]| >= 3
  }

  /** The first sample's GT as VCF text, "./." when there is none. */
  function FormatGt(genotypes: seq<seq<Option<int>>>): (r: string)
    ensures !GtPresent(genotypes) ==> r == "./."
    ensures '|' in r <==> GtPresent(genotypes) && Phased(genotypes[0])
    ensures GtPresent(genotypes) ==> r == AlleleText(genotypes[0][0]) + [if Phased(genotypes[0]) then '|' else '/'] + AlleleText(genotypes[0][1])
  {
    if !GtPresent(genotypes) then "./."
    else
      var s := genotypes[0];
      var sep := if Phased(s) then '|' else '/';
      var r := AlleleText(s[0]) + [sep] + AlleleText(s[1]);
      assert '|' !in AlleleText(s[0]) && '|' !in AlleleText(s[1]);
      assert r[|AlleleText(s[0])|] == sep;
      r
  }

  // ---------------------------------------------------------------------------
  // parse_pgx_vcf
  // ---------------------------------------------------------------------------

  /** FILTER passes when cyvcf2 reports None (PASS) or the literal "PASS". */
  predicate FilterPasses(v: Variant) {
    v.filter.None? || v.filter == Some("PASS")
  }

  function InfoTag(v: Variant, key: string): Option<InfoValue> {
    if v.info.None? then None else Get(v.info.value, key)
  }

  /** rsID precedence: INFO RS, then the ID column, then None. */
  function ChooseRsid(v: Variant): (r: Option<string>)
    ensures !IsBlank(InfoTag(v, "RS")) ==> r == Some(Render(InfoTag(v, "RS").value))
    ensures IsBlank(InfoTag(v, "RS")) && v.id.Some? && v.id.value != "" && v.id.value != "." ==> r == v.id
    ensures IsBlank(InfoTag(v, "RS")) && (v.id.None? || v.id.value == "" || v.id.value == ".") ==> r.None?
  {
    var fromInfo := TagText(InfoTag(v, "RS"));
    if fromInfo.Some? then fromInfo
    else if v.id.Some? && v.id.value != "" && v.id.value != "." then v.id
    else None
  }

  function MakeRecord(v: Variant): PgxRecord {
    PgxRecord(ChooseRsid(v), v.chrom, v.pos, FormatGt(v.genotypes), TagText(InfoTag(v, "STAR")))
  }

  /** The gene a record is filed under, None when it is dropped. */
  function KeptGene(v: Variant): (r: Option<string>)
    ensures r.Some? <==> FilterPasses(v) && ExtractGene(v).Some?
    ensures r.Some? ==> r.value in PgxGenes
  {
    if FilterPasses(v) then ExtractGene(v) else None
  }

  function Keys(g: Groups): (r: seq<string>)
    ensures |r| == |g| && forall i :: 0 <= i < |g| ==> r[i] == g[i].0
  {
    if |g| == 0 then [] else [g[0].0] + Keys(g[1..])
  }

  predicate DistinctKeys(g: Groups) {
    forall i, j :: 0 <= i < j < |g| ==> g[i].0 != g[j].0
  }

  /** results.setdefault(gene, []).append(record). */
  function Append(g: Groups, gene: string, rec: PgxRecord): (r: Groups)
    ensures |r| == |g| || |r| == |g| + 1
    ensures forall k :: 0 <= k < |g| ==> r[k].0 == g[k].0
    ensures |r| == |g| + 1 ==> r[|g|] == (gene, [rec])
    ensures |r| == |g| <==> gene in Keys(g)
  {
    if |g| == 0 then [(gene, [rec])]
    else if g[0].0 == gene then [(gene, g[0].1 + [rec])] + g[1..]
    else [g[0]] + Append(g[1..], gene, rec)
  }

  /** The grouped result after reading the given records, in file order. */
  function ParsePgx(vs: seq<Variant>): Groups {
    if |vs| == 0 then []
    else
      var g := ParsePgx(vs[..|vs| - 1]);
      var v := vs[|vs| - 1];
      match KeptGene(v)
      case None => g
      case Some(gene) => Append(g, gene, MakeRecord(v))
  }

  /** The parser over the records of a readable file; None when the path is missing,
      which the source raises as FileNotFoundError. */
  method ParsePgxVcf(file: Option<seq<Variant>>) returns (results: Option<Groups>)
    ensures file.None? <==> results.None?
    ensures file.Some? ==> results == Some(ParsePgx(file.value))
  {
    if file.None? {
      return None;
    }
    var vs := file.value;
    var g: Groups := [];
    var i := 0;
    while i < |vs|
      invariant 0 <= i <= |vs|
      invariant g == ParsePgx(vs[..i])
    {
      assert vs[..i + 1][..i] == vs[..i];
      var v := vs[i];
      if FilterPasses(v) {
        var gene := FindGene(v);
        if gene.Some? {
          var rec := PgxRecord(ChooseRsid(v), v.chrom, v.pos, FormatGt(v.genotypes), TagText(InfoTag(v, "STAR")));
          g := Append(g, gene.value, rec);
        }
      }
      i := i + 1;
    }
    assert vs[..|vs|] == vs;
    return Some(g);
  }

  /** The records filed under `gene`, in file order. */
  function KeptFor(vs: seq<Variant>, gene: string): seq<PgxRecord> {
    if |vs| == 0 then []
    else KeptFor(vs[..|vs| - 1], gene) + (if KeptGene(vs[|vs| - 1]) == Some(gene) then [MakeRecord(vs[|vs| - 1])] else [])
  }

  /** The number of records kept. */
  function KeptCount(vs: seq<Variant>): nat {
    if |vs| == 0 then 0 else KeptCount(vs[..|vs| - 1]) + (if KeptGene(vs[|vs| - 1]).Some? then 1 else 0)
  }

  function Lookup(g: Groups, gene: string): seq<PgxRecord> {
    if |g| == 0 then [] else if g[0].0 == gene then g[0].1 else Lookup(g[1..], gene)
  }

  function TotalRecords(g: Groups): nat {
    if |g| == 0 then 0 else |g[0].1| + TotalRecords(g[1..])
  }

  lemma AppendFacts(g: Groups, gene: string, rec: PgxRecord)
    requires DistinctKeys(g)
    ensures DistinctKeys(Append(g, gene, rec))
    ensures forall k :: k in Keys(Append(g, gene, rec)) <==> k in Keys(g) || k == gene
    ensures Lookup(Append(g, gene, rec), gene) == Lookup(g, gene) + [rec]
    ensures forall k :: k != gene ==> Lookup(Append(g, gene, rec), k) == Lookup(g, k)
    ensures TotalRecords(Append(g, gene, rec)) == TotalRecords(g) + 1
  {
    AppendKeys(g, gene, rec);
    AppendLookup(g, gene, rec);
    AppendTotal(g, gene, rec);
  }

  lemma AppendKeys(g: Groups, gene: string, rec: PgxRecord)
    requires DistinctKeys(g)
    ensures DistinctKeys(Append(g, gene, rec))
    ensures forall k :: k in Keys(Append(g, gene, rec)) <==> k in Keys(g) || k == gene
  {
    var r := Append(g, gene, rec);
    if |r| == |g| {
      assert Keys(r) == Keys(g);
    } else {
      assert Keys(r) == Keys(g) + [gene];
      forall i | 0 <= i < |g| ensures g[i].0 != gene {
        assert Keys(g)[i] == g[i].0;
      }
    }
  }

  lemma {:induction false} AppendLookup(g: Groups, gene: string, rec: PgxRecord)
    requires DistinctKeys(g)
    ensures Lookup(Append(g, gene, rec), gene) == Lookup(g, gene) + [rec]
    ensures forall k :: k != gene ==> Lookup(Append(g, gene, rec), k) == Lookup(g, k)
  {
    var r := Append(g, gene, rec);
    if |g| == 0 {
    } else if g[0].0 == gene {
      assert r[1..] == g[1..];
      assert gene !in Keys(g[1..]);
      LookupAbsent(g[1..], gene);
    } else {
      assert DistinctKeys(g[1..]);
      AppendLookup(g[1..], gene, rec);
      assert r[1..] == Append(g[1..], gene, rec);
    }
  }

  lemma {:induction false} AppendTotal(g: Groups, gene: string, rec: PgxRecord)
    ensures TotalRecords(Append(g, gene, rec)) == TotalRecords(g) + 1
  {
    var r := Append(g, gene, rec);
    if |g| == 0 {
    } else if g[0].0 == gene {
      assert r[1..] == g[1..];
    } else {
      AppendTotal(g[1..], gene, rec);
      assert r[1..] == Append(g[1..], gene, rec);
    }
  }

  lemma {:induction false} LookupAbsent(g: Groups, gene: string)
    requires gene !in Keys(g)
    ensures Lookup(g, gene) == []
  {
    if |g| > 0 {
      LookupAbsent(g[1..], gene);
    }
  }

  /** What the grouped result holds: distinct pharmacogene keys, exactly the genes of
      kept records; under each, that gene's records in file order; in all, one record
      per kept variant. */
  lemma {:induction false} ParsePgxFacts(vs: seq<Variant>)
    ensures DistinctKeys(ParsePgx(vs))
    ensures forall k :: k in Keys(ParsePgx(vs)) ==> k in PgxGenes
    ensures forall k :: k in Keys(ParsePgx(vs)) <==> KeptFor(vs, k) != []
    ensures forall k :: Lookup(ParsePgx(vs), k) == KeptFor(vs, k)
    ensures TotalRecords(ParsePgx(vs)) == KeptCount(vs)
  {
    if |vs| > 0 {
      var init := vs[..|vs| - 1];
      var v := vs[|vs| - 1];
      ParsePgxFacts(init);
      match KeptGene(v)
      case None =>
      case Some(gene) =>
        AppendFacts(ParsePgx(init), gene, MakeRecord(v));
    }
  }

  // ---------------------------------------------------------------------------
  // json_to_dataframe
  // ---------------------------------------------------------------------------

  /** A list element: a dict read through .get (absent or null keys are None), or
      anything else. */
  datatype JsonElem =
    | Dict(rsid: Option<string>, chrom: Option<string>, position: Option<int>, genotype: Option<string>, star: Option<string>)
    | NotADict

  /** The value under a gene key: a list, or anything else. */
  datatype JsonValue = List(elems: seq<JsonElem>) | NotAList

  type JsonData = seq<(string, JsonValue)>

  function ElemRow(gene: string, e: JsonElem): Row
    requires e.Dict?
  {
    Row(gene, e.chrom, e.position, e.rsid, e.genotype, e.star, None, None, None)
  }

  function ElemRows(gene: string, elems: seq<JsonElem>): seq<Row> {
    if |elems| == 0 then []
    else ElemRows(gene, elems[..|elems| - 1]) + (if elems[|elems| - 1].Dict? then [ElemRow(gene, elems[|elems| - 1])] else [])
  }

  function ValueRows(gene: string, v: JsonValue): seq<Row> {
    if v.List? then ElemRows(gene, v.elems) else []
  }

  function DataRows(data: JsonData): seq<Row> {
    if |data| == 0 then [] else DataRows(data[..|data| - 1]) + ValueRows(data[|data| - 1].0, data[|data| - 1].1)
  }

  /** The table always has the six fixed columns; an empty dict gives no rows. */
  function JsonToFrame(data: JsonData): (r: Frame)
    ensures r.columns == TableColumns
    ensures data == [] ==> r.rows == []
  {
    if data == [] then Frame(TableColumns, []) else Frame(TableColumns, DataRows(data))
  }

  method JsonToDataFrame(data: JsonData) returns (f: Frame)
    ensures f == JsonToFrame(data)
  {
    if |data| == 0 {
      return Frame(TableColumns, []);
    }
    var rows: seq<Row> := [];
    var i := 0;
    while i < |data|
      invariant 0 <= i <= |data|
      invariant rows == DataRows(data[..i])
    {
      assert data[..i + 1][..i] == data[..i];
      var (gene, value) := data[i];
      if value.List? {
        var elems := value.elems;
        var j := 0;
        while j < |elems|
          invariant 0 <= j <= |elems|
          invariant rows == DataRows(data[..i]) + ElemRows(gene, elems[..j])
        {
          assert elems[..j + 1][..j] == elems[..j];
          if elems[j].Dict? {
            rows := rows + [ElemRow(gene, elems[j])];
          }
          j := j + 1;
        }
        assert elems[..|elems|] == elems;
      }
      i := i + 1;
    }
    assert data[..|data|] == data;
    return Frame(TableColumns, rows);
  }

  function DictCount(elems: seq<JsonElem>): nat {
    if |elems| == 0 then 0 else DictCount(elems[..|elems| - 1]) + (if elems[|elems| - 1].Dict? then 1 else 0)
  }

  /** One row per dict element of a list, in order, tagged with the list's gene. */
  lemma {:induction false} ElemRowsFacts(gene: string, elems: seq<JsonElem>)
    ensures |ElemRows(gene, elems)| == DictCount(elems)
    ensures forall k :: 0 <= k < |ElemRows(gene, elems)| ==> ElemRows(gene, elems)[k].gene == gene
  {
    if |elems| > 0 {
      ElemRowsFacts(gene, elems[..|elems| - 1]);
    }
  }

  /** The rows of a gene-grouped dict, in order: those of each list value in turn. */
  lemma {:induction false} DataRowsConcat(a: JsonData, b: JsonData)
    ensures DataRows(a + b) == DataRows(a) + DataRows(b)
    decreases |b|
  {
    if |b| == 0 {
      assert a + b == a;
    } else {
      var b', last := b[..|b| - 1], b[|b| - 1];
      assert (a + b)[..|a + b| - 1] == a + b';
      assert (a + b)[|a + b| - 1] == last;
      var tail := ValueRows(last.0, last.1);
      calc {
        DataRows(a + b);
        DataRows(a + b') + tail;
        { DataRowsConcat(a, b'); }
        DataRows(a) + DataRows(b') + tail;
        DataRows(a) + (DataRows(b') + tail);
        DataRows(a) + DataRows(b);
      }
    }
  }

  /** Every row of the table carries one of the dict's keys as its Gene. */
  lemma {:induction false} DataRowsGenes(data: JsonData)
    ensures forall i :: 0 <= i < |DataRows(data)| ==>
      exists k :: 0 <= k < |data| && DataRows(data)[i].gene == data[k].0
  {
    if |data| > 0 {
      var init, last := data[..|data| - 1], data[|data| - 1];
      DataRowsGenes(init);
      if last.1.List? {
        ElemRowsFacts(last.0, last.1.elems);
      }
      var rows := DataRows(data);
      assert rows == DataRows(init) + ValueRows(last.0, last.1);
      forall i | 0 <= i < |rows|
        ensures exists k :: 0 <= k < |data| && rows[i].gene == data[k].0
      {
        if i < |DataRows(init)| {
          var k :| 0 <= k < |init| && DataRows(init)[i].gene == init[k].0;
          assert data[k] == init[k];
        } else {
          assert rows[i] == ValueRows(last.0, last.1)[i - |DataRows(init)|];
          assert rows[i].gene == data[|data| - 1].0;
        }
      }
    } else {
      assert DataRows(data) == [];
    }
  }

  /** The table built from a parsed VCF has only rows of the six pharmacogenes. */
  lemma TableGenes(vs: seq<Variant>)
    ensures var f := JsonToFrame(GroupsToJson(ParsePgx(vs)));
      forall i :: 0 <= i < |f.rows| ==> f.rows[i].gene in PgxGenes
  {
    var g := ParsePgx(vs);
    var data := GroupsToJson(g);
    ParsePgxFacts(vs);
    DataRowsGenes(data);
    forall k | 0 <= k < |data|
      ensures data[k].0 in PgxGenes
    {
      assert data[k].0 == Keys(g)[k];
    }
  }

  /** The groups produced by parse_pgx_vcf, as the dict json_to_dataframe receives. */
  function GroupsToJson(g: Groups): (r: JsonData)
    ensures |r| == |g|
  {
    seq(|g|, i requires 0 <= i < |g| => (g[i].0, List(RecordsToJson(g[i].1))))
  }

  function RecordsToJson(recs: seq<PgxRecord>): (r: seq<JsonElem>)
    ensures |r| == |recs| && forall k :: 0 <= k < |r| ==> r[k].Dict?
  {
    seq(|recs|, k requires 0 <= k < |recs| =>
      Dict(recs[k].rsid, Some(recs[k].chrom), Some(recs[k].position), Some(recs[k].genotype), recs[k].star))
  }

  lemma {:induction false} AllDictCount(elems: seq<JsonElem>)
    requires forall k :: 0 <= k < |elems| ==> elems[k].Dict?
    ensures DictCount(elems) == |elems|
  {
    if |elems| > 0 {
      AllDictCount(elems[..|elems| - 1]);
    }
  }

  /** Flattening the parsed groups gives one row per kept VCF record. */
  lemma ParsedRowCount(vs: seq<Variant>)
    ensures |JsonToFrame(GroupsToJson(ParsePgx(vs))).rows| == KeptCount(vs)
  {
    ParsePgxFacts(vs);
    GroupsRowCount(ParsePgx(vs));
  }

  lemma {:induction false} GroupsRowCount(g: Groups)
    ensures |DataRows(GroupsToJson(g))| == TotalRecords(g)
  {
    if |g| > 0 {
      var j := GroupsToJson(g);
      var rest := GroupsToJson(g[1..]);
      assert j == [j[0]] + rest;
      DataRowsConcat([j[0]], rest);
      assert [j[0]][..0] == [];
      GroupsRowCount(g[1..]);
      ElemRowsFacts(g[0].0, RecordsToJson(g[0].1));
      AllDictCount(RecordsToJson(g[0].1));
    }
  }
}
