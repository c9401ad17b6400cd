/** The pandas DataFrames passed between the pipeline stages, as a set of column
    names and a sequence of row records. A cell that pandas holds as NA/NaN, or a
    column the frame does not have, reads as None. */
module Frames {
  import opened Text

  datatype Row = Row(
    gene: string,
    chrom: Option<string>,
    position: Option<int>,
    rsid: Option<string>,
    genotype: Option<string>,
    star: Option<string>,
    diplotype: Option<string>,
    note: Option<string>,
    phenotype: Option<string>)

  datatype Frame = Frame(columns: set<string>, rows: seq<Row>)

  /** The STAR cell of a row as row.get("STAR") sees it: None when the column is absent. */
  function StarCell(f: Frame, row: Row): (r: Option<string>)
    ensures "STAR" !in f.columns ==> r.None?
    ensures "STAR" in f.columns ==> r == row.star
  {
    if "STAR" in f.columns then row.star else None
  }

  // ---------------------------------------------------------------------------
  // Required columns, reported in sorted order
  // ---------------------------------------------------------------------------

  /** Lexicographic order on strings, as Python's sorted() uses for str. */
  predicate StrLess(a: string, b: string)
    decreases |a|
  {
    if |a| == 0 then |b| > 0
    else if |b| == 0 then false
    else if a[0] != b[0] then a[0] < b[0]
    else StrLess(a[1..], b[1..])
  }

  predicate Sorted(s: seq<string>) {
    forall i, j :: 0 <= i < j < |s| ==> StrLess(s[i], s[j])
  }

  lemma {:induction false} StrLessTransitive(a: string, b: string, c: string)
    requires StrLess(a, b) && StrLess(b, c)
    ensures StrLess(a, c)
    decreases |a|
  {
    if |a| > 0 && a[0] == b[0] && b[0] == c[0] {
      StrLessTransitive(a[1..], b[1..], c[1..]);
    }
  }

  /** A sequence whose neighbours are in order is sorted. */
  lemma {:induction false} ChainSorted(s: seq<string>)
    requires forall i :: 0 <= i < |s| - 1 ==> StrLess(s[i], s[i + 1])
    ensures Sorted(s)
  {
    if |s| > 1 {
      var t := s[1..];
      assert forall i :: 0 <= i < |t| ==> t[i] == s[i + 1];
      ChainSorted(t);
      forall j | 1 < j < |s| ensures StrLess(s[0], s[j]) {
        assert t[0] == s[1] && t[j - 1] == s[j];
        StrLessTransitive(s[0], s[1], s[j]);
      }
    }
  }

  /** The columns of `required` that `columns` lacks, in the order of `required`. */
  function MissingColumns(required: seq<string>, columns: set<string>): (r: seq<string>)
    ensures forall c :: c in r <==> c in required && c !in columns
    ensures |r| <= |required|
    ensures Sorted(required) ==> Sorted(r)
  {
    if |required| == 0 then []
    else
      var rest := MissingColumns(required[1..], columns);
      assert Sorted(required) ==> Sorted(required[1..]);
      if required[0] in columns then rest
      else
        assert Sorted(required) ==> forall j :: 0 <= j < |rest| ==> StrLess(required[0], rest[j]) by {
          if Sorted(required) {
            forall j | 0 <= j < |rest|
              ensures StrLess(required[0], rest[j])
            {
              assert rest[j] in required[1..];
              var k :| 0 <= k < |required[1..]| && required[1..][k] == rest[j];
              assert required[k + 1] == rest[j];
            }
          }
        }
        [required[0]] + rest
  }

  const MissingPrefix: string := "Input DataFrame is missing required columns: "

  /** The ValueError text naming the missing columns, comma-separated. */
  function MissingMessage(missing: seq<string>): string {
    MissingPrefix + Join(missing, ", ")
  }

  /** Columns every diplotype caller needs, listed in sorted order. */
  const DiplotypeRequired: seq<string> := ["Chrom", "Gene", "Genotype", "Position", "RSID"]

  lemma DiplotypeRequiredSorted()
    ensures Sorted(DiplotypeRequired)
  {
    assert StrLess("Chrom", "Gene") && StrLess("Gene", "Genotype");
    assert StrLess("Genotype", "Position") && StrLess("Position", "RSID");
    ChainSorted(DiplotypeRequired);
  }

  /** The six columns json_to_dataframe always produces. */
  const TableColumns: set<string> := {"Gene", "Chrom", "Position", "RSID", "Genotype", "STAR"}

  /** The six table columns include every column a diplotype caller needs. */
  lemma TableHasRequired()
    ensures MissingColumns(DiplotypeRequired, TableColumns) == []
  {
  }

  /** Replaces the Diplotype and Diplotype_Note cells of a row. */
  function WithDiplotype(row: Row, d: Option<string>, n: Option<string>): Row {
    row.(diplotype := d, note := n)
  }
}
