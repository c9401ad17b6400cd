/** The structural VCF validator service (POST /validate): the guards on the requested
    path, the check that the header names the eight fixed columns, the collection of the
    INFO keys the header declares, the reading of at most five records and the warnings
    of the reply. The file system, the VCF reader and the JSON decoding of the request
    are parameters. */
module ValidatorService {
  import opened Text

  const RequiredHeaderCols: seq<string> := ["#CHROM", "POS", "ID", "REF", "ALT", "QUAL", "FILTER", "INFO"]
  const RecommendedInfo: seq<string> := ["GENE", "RS", "STAR"]

  const InvalidMessage: string := "Invalid VCF structure or corrupted file."
  const PysamMissingMessage: string := "Server configuration error: pysam not installed."
  const MissingInfoPrefix: string := "Missing INFO fields (warnings): "
  const NoRecordsWarning: string := "VCF contains no variant records; " + "file parsed but contains no data"

  /** The vcf_file_path member of the request body: absent or null, present but not a
      string, or a string. */
  datatype PathField = Absent | NotString | PathText(path: string)

  /** One step of iterating the records: a record, or a read that raises. */
  datatype Read = Record | Broken

  /** What opening the file as a VCF gives: an error, or the header's text and the
      records as the reader would deliver them. */
  datatype Opening = OpenFailed | Opened(header: string, records: seq<Read>)

  /** The JSON reply: success false with a message, or success true with the warnings
      member present only when there are warnings. */
  datatype Body = Failed(message: string) | Passed(warnings: Option<seq<string>>)

  datatype Response = Response(status: nat, body: Body)

  // ---------------------------------------------------------------------------
  // The header columns
  // ---------------------------------------------------------------------------

  /** Every required column name occurs somewhere in the header text. */
  predicate HasRequiredColumns(header: string) {
    forall i :: 0 <= i < |RequiredHeaderCols| ==> Contains(header, RequiredHeaderCols[i])
  }

  /** The loop over the required columns, stopping at the first one missing. */
  method CheckHeader(header: string) returns (ok: bool)
    ensures ok <==> HasRequiredColumns(header)
    ensures !ok ==> exists i :: 0 <= i < |RequiredHeaderCols| && !Contains(header, RequiredHeaderCols[i])
  {
    for i := 0 to |RequiredHeaderCols|
      invariant forall j :: 0 <= j < i ==> Contains(header, RequiredHeaderCols[j])
    {
      if !Contains(header, RequiredHeaderCols[i]) {
        return false;
      }
    }
    return true;
  }

  // ---------------------------------------------------------------------------
  // The INFO keys
  // ---------------------------------------------------------------------------

  /** The key an ##INFO header line declares: the text after its first "ID=" up to the
      next comma, stripped and upper-cased; nothing for other lines and for ##INFO lines
      without "ID=". */
  function InfoKey(line: string): (r: Option<string>)
    ensures r.Some? <==> StartsWith(line, "##INFO") && Contains(line, "ID=")
  {
    if !StartsWith(line, "##INFO") then None
    else
      match Find(line, "ID=")
      case None => None
      case Some(i) => Some(Upper(Strip(Split(line[i + 3..], ',')[0])))
  }

  /** What each line declares. */
  function Declared(lines: seq<string>): (r: seq<Option<string>>)
    ensures |r| == |lines| && forall i :: 0 <= i < |lines| ==> r[i] == InfoKey(lines[i])
  {
    seq(|lines|, i requires 0 <= i < |lines| => InfoKey(lines[i]))
  }

  /** The declared keys, gathered in order as the loop does. */
  function Gathered(declared: seq<Option<string>>): set<string> {
    if declared == [] then {}
    else
      var keys := Gathered(declared[..|declared| - 1]);
      match declared[|declared| - 1]
      case None => keys
      case Some(k) => keys + {k}
  }

  /** The keys declared by the header's lines. */
  function InfoKeys(lines: seq<string>): set<string> {
    Gathered(Declared(lines))
  }

  /** A key is gathered exactly when some entry declares it. */
  lemma {:induction false} GatheredIff(declared: seq<Option<string>>, k: string)
    ensures k in Gathered(declared) <==> Some(k) in declared
  {
    if declared != [] {
      var init := declared[..|declared| - 1];
      GatheredIff(init, k);
      assert declared == init + [declared[|declared| - 1]];
    }
  }

  /** A key is collected exactly when some line declares it. */
  lemma InfoKeysIff(lines: seq<string>, k: string)
    ensures k in InfoKeys(lines) <==> exists i :: 0 <= i < |lines| && InfoKey(lines[i]) == Some(k)
  {
    var d := Declared(lines);
    GatheredIff(d, k);
    if Some(k) in d {
      var i :| 0 <= i < |d| && d[i] == Some(k);
      assert InfoKey(lines[i]) == Some(k);
    }
  }

  /** The scan of the header's lines for the keys of its ##INFO lines. */
  method CollectInfoKeys(header: string) returns (keys: set<string>)
    ensures keys == InfoKeys(SplitLines(header))
  {
    var lines := SplitLines(header);
    ghost var d := Declared(lines);
    keys := {};
    for i := 0 to |lines|
      invariant keys == Gathered(d[..i])
    {
      assert d[..i + 1][..i] == d[..i];
      match InfoKey(lines[i])
      case None =>
      case Some(k) => keys := keys + {k};
    }
    assert d[..|lines|] == d;
  }

  /** The first occurrence, when nothing occurs before it, is what Find reports. */
  lemma FindFirst(s: string, sub: string, k: nat)
    requires OccursAt(s, sub, k) && forall j :: 0 <= j < k ==> !OccursAt(s, sub, j)
    ensures Find(s, sub) == Some(k)
  {
  }

  /** A declaration ##INFO=<ID=key,... yields its key, stripped and upper-cased. */
  lemma InfoKeyOfDeclaration(key: string, rest: string)
    requires ',' !in key
    ensures InfoKey("##INFO=<ID=" + key + "," + rest) == Some(Upper(Strip(key)))
  {
    var p := "##INFO=<";
    var line := p + ("ID=" + (key + [','] + rest));
    assert line == "##INFO=<ID=" + key + "," + rest;
    assert "##INFO" <= line;
    assert line[8..11] == "ID=";
    forall j | 0 <= j < 8
      ensures !OccursAt(line, "ID=", j)
    {
      assert line[j] == p[j] && line[j + 1] == (p + "I")[j + 1];
    }
    FindFirst(line, "ID=", 8);
    assert line[11..] == key + [','] + rest;
    SplitAfterFirst(key, ',', rest);
  }

  /** The recommended keys the header does not declare, in their fixed order. */
  function Missing(keys: set<string>): (r: seq<string>)
    ensures forall w :: w in r <==> w in RecommendedInfo && w !in keys
  {
    AbsenteesIff(RecommendedInfo, keys);
    Absentees(RecommendedInfo, keys)
  }

  /** The words not among the keys, in order. */
  function Absentees(words: seq<string>, keys: set<string>): (r: seq<string>)
    ensures |r| <= |words|
  {
    if words == [] then []
    else (if words[0] in keys then [] else [words[0]]) + Absentees(words[1..], keys)
  }

  /** A word is left exactly when it is one of the words and not a key. */
  lemma {:induction false} AbsenteesIff(words: seq<string>, keys: set<string>)
    ensures forall w :: w in Absentees(words, keys) <==> w in words && w !in keys
  {
    if words != [] {
      AbsenteesIff(words[1..], keys);
      assert words == [words[0]] + words[1..];
    }
  }

  /** Removing the present keys from a concatenation removes them from each part in
      turn: the remaining words keep their order. */
  lemma {:induction false} AbsenteesConcat(a: seq<string>, b: seq<string>, keys: set<string>)
    ensures Absentees(a + b, keys) == Absentees(a, keys) + Absentees(b, keys)
  {
    if a != [] {
      AbsenteesConcat(a[1..], b, keys);
      assert (a + b)[1..] == a[1..] + b;
    } else {
      assert a + b == b;
    }
  }

  /** A header declaring none of the recommended keys misses all three, in order. */
  lemma AllMissing(keys: set<string>)
    requires "GENE" !in keys && "RS" !in keys && "STAR" !in keys
    ensures Missing(keys) == ["GENE", "RS", "STAR"]
  {
    var w := RecommendedInfo;
    assert w[1..][1..][1..] == [];
    assert Absentees(w[1..][1..], keys) == ["STAR"];
    assert Absentees(w[1..], keys) == ["RS", "STAR"];
  }

  // ---------------------------------------------------------------------------
  // The records and the warnings
  // ---------------------------------------------------------------------------

  /** How many records the loop reads at most. */
  const RecordCap: nat := 5

  /** The records the loop reaches: the first five. */
  function Reached(records: seq<Read>): (r: seq<Read>)
    ensures |r| <= RecordCap && r <= records
  {
    if |records| <= RecordCap then records else records[..RecordCap]
  }

  /** The outcome of the read loop: None when a read within reach raises, otherwise
      whether any record came. */
  function ReadOutcome(records: seq<Read>): Option<bool> {
    if Broken in Reached(records) then None else Some(Reached(records) != [])
  }

  /** The loop over the records that stops after the fifth. */
  method ReadRecords(records: seq<Read>) returns (outcome: Option<bool>)
    ensures outcome == ReadOutcome(records)
  {
    var parsedAny := false;
    var i := 0;
    while i < |records|
      invariant 0 <= i <= |records| && i < RecordCap
      invariant parsedAny <==> i > 0
      invariant Broken !in records[..i]
    {
      if records[i].Broken? {
        assert Broken in Reached(records) by {
          assert Reached(records)[i] == records[i];
        }
        return None;
      }
      parsedAny := true;
      if i >= 4 {
        assert records[..i + 1] == Reached(records);
        return Some(parsedAny);
      }
      i := i + 1;
    }
    assert records[..i] == Reached(records);
    return Some(parsedAny);
  }

  /** Whatever follows the fifth record is never read. */
  lemma ReadStopsAtCap(records: seq<Read>, more: seq<Read>)
    requires |records| >= RecordCap
    ensures ReadOutcome(records + more) == ReadOutcome(records)
  {
    assert (records + more)[..RecordCap] == records[..RecordCap];
  }

  /** A broken read within the first five records fails the read; an empty stream reads
      no record. */
  lemma ReadFailsWithinCap(records: seq<Read>, i: nat)
    requires i < |records| && i < RecordCap && records[i] == Broken
    ensures ReadOutcome(records) == None
    ensures ReadOutcome([]) == Some(false)
  {
    assert Reached(records)[i] == Broken;
  }

  /** The warnings: the missing recommended keys in one warning, then the note that no
      record was read. */
  function Warnings(keys: set<string>, anyRecord: bool): (r: seq<string>)
    ensures |r| == (if Missing(keys) == [] then 0 else 1) + (if anyRecord then 0 else 1)
    ensures NoRecordsWarning in r <==> !anyRecord
    ensures Missing(keys) != [] ==> r[0] == MissingInfoPrefix + Join(Missing(keys), ", ")
  {
    var first := if Missing(keys) == [] then [] else [MissingInfoPrefix + Join(Missing(keys), ", ")];
    assert MissingInfoPrefix[0] == 'M' && NoRecordsWarning[0] == 'V';
    assert Missing(keys) != [] ==> first[0][0] == MissingInfoPrefix[0];
    first + (if anyRecord then [] else [NoRecordsWarning])
  }

  // ---------------------------------------------------------------------------
  // validate
  // ---------------------------------------------------------------------------

  /** The path is a non-empty string naming a regular file. */
  predicate PathUsable(field: PathField, isFile: string -> bool) {
    field.PathText? && field.path != "" && isFile(field.path)
  }

  /** The reply of validate: the generic failure for an unusable path, 500 when the VCF
      reader is missing, the generic failure when the file does not open, lacks a
      required column or a record within reach cannot be read, and otherwise success
      with the warnings, if any. */
  function ValidateOf(field: PathField, isFile: string -> bool, pysam: bool, opening: Opening): (r: Response)
    ensures r.status == 500 <==> PathUsable(field, isFile) && !pysam
    ensures r.status != 500 ==> r.status == 200
    ensures r.body.Failed? ==> r.body.message == InvalidMessage || r.body.message == PysamMissingMessage
    ensures r.body.Passed? && r.body.warnings.Some? ==> r.body.warnings.value != []
  {
    if !PathUsable(field, isFile) then Response(200, Failed(InvalidMessage))
    else if !pysam then Response(500, Failed(PysamMissingMessage))
    else
      match opening
      case OpenFailed => Response(200, Failed(InvalidMessage))
      case Opened(header, records) =>
        if !HasRequiredColumns(header) then Response(200, Failed(InvalidMessage))
        else
          match ReadOutcome(records)
          case None => Response(200, Failed(InvalidMessage))
          case Some(anyRecord) =>
            var w := Warnings(InfoKeys(SplitLines(header)), anyRecord);
            Response(200, Passed(if w == [] then None else Some(w)))
  }

  /** The reply is a success exactly when the path is usable, the reader is there, the
      file opens, names every required column and its first five records read. */
  lemma PassedIff(field: PathField, isFile: string -> bool, pysam: bool, opening: Opening)
    ensures ValidateOf(field, isFile, pysam, opening).body.Passed? <==>
      PathUsable(field, isFile) && pysam && opening.Opened?
      && HasRequiredColumns(opening.header) && ReadOutcome(opening.records).Some?
  {
  }

  /** An absent, non-string, empty or non-file path gets the generic failure with 200. */
  lemma UnusablePath(field: PathField, isFile: string -> bool, pysam: bool, opening: Opening)
    requires !PathUsable(field, isFile)
    ensures ValidateOf(field, isFile, pysam, opening) == Response(200, Failed(InvalidMessage))
  {
  }

  /** A header missing one of the required columns gets the generic failure. */
  lemma MissingColumn(field: PathField, isFile: string -> bool, header: string, records: seq<Read>, i: nat)
    requires PathUsable(field, isFile)
    requires i < |RequiredHeaderCols| && !Contains(header, RequiredHeaderCols[i])
    ensures ValidateOf(field, isFile, true, Opened(header, records)) == Response(200, Failed(InvalidMessage))
  {
  }

  /** The warnings member is absent exactly when all three recommended keys are declared
      and a record was read. */
  lemma NoWarningsIff(field: PathField, isFile: string -> bool, header: string, records: seq<Read>)
    requires ValidateOf(field, isFile, true, Opened(header, records)).body.Passed?
    ensures ValidateOf(field, isFile, true, Opened(header, records)).body.warnings.None? <==>
      Missing(InfoKeys(SplitLines(header))) == [] && ReadOutcome(records) == Some(true)
  {
  }

  /** validate: the guards, then the column check, the INFO scan and the record read. */
  method Validate(field: PathField, isFile: string -> bool, pysam: bool, opening: Opening)
    returns (r: Response)
    ensures r == ValidateOf(field, isFile, pysam, opening)
  {
    if !field.PathText? || field.path == "" {
      return Response(200, Failed(InvalidMessage));
    }
    if !isFile(field.path) {
      return Response(200, Failed(InvalidMessage));
    }
    if !pysam {
      return Response(500, Failed(PysamMissingMessage));
    }
    if opening.OpenFailed? {
      return Response(200, Failed(InvalidMessage));
    }
    var header := opening.header;
    var ok := CheckHeader(header);
    if !ok {
      return Response(200, Failed(InvalidMessage));
    }
    var keys := CollectInfoKeys(header);
    var warnings := [];
    var missing := Missing(keys);
    if missing != [] {
      warnings := warnings + [MissingInfoPrefix + Join(missing, ", ")];
    }
    var outcome := ReadRecords(opening.records);
    if outcome.None? {
      return Response(200, Failed(InvalidMessage));
    }
    if !outcome.value {
      warnings := warnings + [NoRecordsWarning];
    }
    assert warnings == Warnings(keys, outcome.value);
    if warnings == [] {
      r := Response(200, Passed(None));
    } else {
      r := Response(200, Passed(Some(warnings)));
    }
  }
}
