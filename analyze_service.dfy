/** The /analyze endpoint of the pharmacogenomics web service: the upload's file-name
    check, the sniffing of the VCF header, the parsing of the drugs field, the LLM switch
    and the ordered guards of the request, with the temporary copy of the upload removed
    on every path that made one. The framework, the temporary-file name, the upload's
    bytes and the pipeline run are parameters. */
module AnalyzeService {
  import opened Text

  // ---------------------------------------------------------------------------
  // _allowed_filename: os.path.splitext on a POSIX path
  // ---------------------------------------------------------------------------

  /** The last position of c in s. */
  function RFind(s: string, c: char): (r: Option<nat>)
    ensures r.Some? ==> r.value < |s| && s[r.value] == c && c !in s[r.value + 1..]
    ensures r.None? <==> c !in s
  {
    if s == [] then None
    else if s[|s| - 1] == c then Some(|s| - 1)
    else
      var r := RFind(s[..|s| - 1], c);
      assert s == s[..|s| - 1] + [s[|s| - 1]];
      if r.Some? then assert s[r.value + 1..] == s[..|s| - 1][r.value + 1..] + [s[|s| - 1]]; r
      else r
  }

  /** The position k of a c with no c after it is the last position of c. */
  lemma RFindAt(s: string, c: char, k: nat)
    requires k < |s| && s[k] == c && c !in s[k + 1..]
    ensures RFind(s, c) == Some(k)
  {
    var r := RFind(s, c);
    assert c in s;
    var last := r.value;
    forall j | k < j < |s|
      ensures s[j] != c
    {
      assert s[j] == s[k + 1..][j - k - 1];
    }
    forall j | last < j < |s|
      ensures s[j] != c
    {
      assert s[j] == s[last + 1..][j - last - 1];
    }
  }

  predicate HasNonDot(s: string) {
    exists i :: 0 <= i < |s| && s[i] != '.'
  }

  /** Where the last path component starts. */
  function BaseStart(p: string): (k: nat)
    ensures k <= |p| && '/' !in p[k..]
  {
    match RFind(p, '/')
    case None => 0
    case Some(i) => i + 1
  }

  /** os.path.splitext: the extension is the text from the last '.', when that dot lies
      in the last path component and is not one of its leading dots; otherwise it is
      empty. */
  function SplitExt(p: string): (string, string) {
    var start := BaseStart(p);
    match RFind(p, '.')
    case None => (p, "")
    case Some(dot) =>
      if start <= dot && HasNonDot(p[start..dot]) then (p[..dot], p[dot..]) else (p, "")
  }

  /** The root and the extension make up the path, and an extension is a dot followed by
      neither dots nor slashes. */
  lemma SplitExtParts(p: string)
    ensures SplitExt(p).0 + SplitExt(p).1 == p
    ensures var e := SplitExt(p).1; e == "" || (e[0] == '.' && '.' !in e[1..] && '/' !in e)
  {
    var start := BaseStart(p);
    var dot := RFind(p, '.');
    if dot.Some? && start <= dot.value && HasNonDot(p[start..dot.value]) {
      var e := p[dot.value..];
      assert p[..dot.value] + e == p;
      assert e[1..] == p[dot.value + 1..];
      assert forall i :: 0 <= i < |e| ==> e[i] == p[start..][dot.value - start + i];
    }
  }

  /** _allowed_filename: the extension of the lower-cased name (None as "") is ".vcf". */
  function AllowedFilename(filename: Option<string>): bool {
    SplitExt(Lower(filename.GetOr(""))).1 == ".vcf"
  }

  /** A name is allowed exactly when its lower-cased form ends in ".vcf" after a last
      path component holding something other than dots. */
  lemma AllowedIff(f: string)
    ensures AllowedFilename(Some(f)) <==> VcfNamed(Lower(f))
  {
    var g := Lower(f);
    if VcfNamed(g) {
      VcfNamedAllowed(g);
    }
    if AllowedFilename(Some(f)) {
      AllowedVcfNamed(g);
    }
  }

  /** The text ends in ".vcf" after a last path component holding something other than
      dots. */
  predicate VcfNamed(g: string) {
    |g| >= 4 && g[|g| - 4..] == ".vcf" && HasNonDot(g[BaseStart(g[..|g| - 4])..|g| - 4])
  }

  lemma VcfNamedAllowed(g: string)
    requires VcfNamed(g)
    ensures SplitExt(g).1 == ".vcf"
  {
    var k := |g| - 4;
    assert g[k + 1..] == "vcf";
    RFindAt(g, '.', k);
    BaseStartPrefix(g, k);
    var start := BaseStart(g);
    assert start <= k && HasNonDot(g[start..k]);
    assert SplitExt(g) == (g[..k], g[k..]);
  }

  lemma AllowedVcfNamed(g: string)
    requires SplitExt(g).1 == ".vcf"
    ensures VcfNamed(g)
  {
    SplitExtParts(g);
    var dot := RFind(g, '.').value;
    assert g[dot..] == ".vcf";
    assert |g| - 4 == dot;
    BaseStartPrefix(g, dot);
  }

  /** Cutting a path before a tail without slashes keeps where its last component starts. */
  lemma BaseStartPrefix(p: string, k: nat)
    requires k <= |p| && '/' !in p[k..]
    ensures BaseStart(p[..k]) == BaseStart(p)
  {
    var q := p[..k];
    if '/' in q {
      var i := RFind(q, '/').value;
      assert p[i] == '/';
      assert forall j :: i < j < |p| ==> p[j] != '/' by {
        forall j | i < j < |p|
          ensures p[j] != '/'
        {
          if j < k {
            assert p[j] == q[i + 1..][j - i - 1];
          } else {
            assert p[j] == p[k..][j - k];
          }
        }
      }
      assert '/' !in p[i + 1..];
      RFindAt(p, '/', i);
    } else {
      forall j | 0 <= j < |p|
        ensures p[j] != '/'
      {
        if j < k {
          assert p[j] == q[j];
        } else {
          assert p[j] == p[k..][j - k];
        }
      }
    }
  }

  /** An upper-case X.VCF passes. */
  lemma UpperVcfAllowed()
    ensures AllowedFilename(Some("X.VCF"))
  {
    var g := Lower("X.VCF");
    assert g == "x.vcf";
    assert BaseStart(g) == 0;
    RFindAt(g, '.', 1);
    assert g[0..1][0] == 'x';
  }

  /** A compressed x.vcf.gz fails: its extension is .gz. */
  lemma GzRejected()
    ensures !AllowedFilename(Some("x.vcf.gz"))
  {
    var g := Lower("x.vcf.gz");
    assert g == "x.vcf.gz";
    RFindAt(g, '.', 5);
  }

  /** A hidden file named .vcf has no extension, and neither has an empty or absent name. */
  lemma HiddenRejected()
    ensures !AllowedFilename(Some(".vcf"))
    ensures !AllowedFilename(None) && !AllowedFilename(Some(""))
  {
    var g := Lower(".vcf");
    assert g == ".vcf";
    RFindAt(g, '.', 0);
    assert g[0..0] == [];
    assert Lower("") == "";
  }

  // ---------------------------------------------------------------------------
  // _looks_like_vcf and _parse_drugs_field
  // ---------------------------------------------------------------------------

  const FileFormatMarker: string := "##fileformat=VCF"
  const HeaderLineMarker: string := "#CHROM"

  /** _looks_like_vcf on the decoded first 2048 bytes, None when the file cannot be read:
      both the file-format line and the header line must appear. */
  function LooksLikeVcf(head: Option<string>): bool {
    head.Some? && Contains(head.value, FileFormatMarker) && Contains(head.value, HeaderLineMarker)
  }

  /** A text that contains sub after some prefix contains it. */
  lemma {:induction false} ContainsAfter(p: string, s: string, sub: string)
    requires sub <= s
    ensures Contains(p + s, sub)
    decreases |p|
  {
    if p != [] {
      ContainsAfter(p[1..], s, sub);
      assert (p + s)[1..] == p[1..] + s;
    }
  }

  /** A head that starts with the file-format line and has the header line further on is
      accepted; an unreadable file is not. */
  lemma SniffFacts(line: string, rest: string)
    ensures LooksLikeVcf(Some(FileFormatMarker + line + HeaderLineMarker + rest))
    ensures !LooksLikeVcf(None)
  {
    var t := FileFormatMarker + line + HeaderLineMarker + rest;
    assert t == [] + (FileFormatMarker + (line + HeaderLineMarker + rest));
    ContainsAfter([], FileFormatMarker + (line + HeaderLineMarker + rest), FileFormatMarker);
    assert t == (FileFormatMarker + line) + (HeaderLineMarker + rest);
    ContainsAfter(FileFormatMarker + line, HeaderLineMarker + rest, HeaderLineMarker);
  }

  /** A text that contains a non-empty sub is at least as long and holds its first character. */
  lemma {:induction false} ContainsHolds(s: string, sub: string)
    requires sub != [] && Contains(s, sub)
    ensures |sub| <= |s| && sub[0] in s
    decreases |s|
  {
    if sub <= s {
      assert s[0] == sub[0];
    } else {
      ContainsHolds(s[1..], sub);
      assert sub[0] in s[1..];
    }
  }

  /** A head without a '#' or shorter than the file-format line is rejected. */
  lemma SniffRejects(head: string)
    requires '#' !in head || |head| < |FileFormatMarker|
    ensures !LooksLikeVcf(Some(head))
  {
    assert FileFormatMarker[0] == '#';
    if Contains(head, FileFormatMarker) {
      ContainsHolds(head, FileFormatMarker);
    }
  }

  /** The stripped items that are not blank, in order. */
  function NonBlank(items: seq<string>): (r: seq<string>)
    ensures |r| <= |items|
  {
    if items == [] then [] else Kept(items[0]) + NonBlank(items[1..])
  }

  /** One item, stripped, kept when it is not blank. */
  function Kept(item: string): (r: seq<string>)
    ensures |r| <= 1 && (r == [] <==> Strip(item) == [])
    ensures r != [] ==> r[0] == Strip(item) && Unpadded(r[0])
  {
    var s := Strip(item);
    if s != [] then [s] else []
  }

  /** Every item kept is non-blank and unpadded, hence its own stripped form. */
  lemma {:induction false} NonBlankClean(items: seq<string>)
    ensures forall d :: d in NonBlank(items) ==> Unpadded(d)
  {
    if items != [] {
      NonBlankClean(items[1..]);
    }
  }

  /** Unpadded items pass through unchanged. */
  lemma {:induction false} NonBlankKeeps(items: seq<string>)
    requires forall i :: 0 <= i < |items| ==> Unpadded(items[i])
    ensures NonBlank(items) == items
  {
    if items != [] {
      var x, rest := items[0], items[1..];
      assert Unpadded(x);
      StripKeeps(x);
      assert Kept(x) == [x];
      assert forall i :: 0 <= i < |rest| ==> Unpadded(rest[i]) by {
        forall i | 0 <= i < |rest| ensures Unpadded(rest[i]) { assert rest[i] == items[i + 1]; }
      }
      NonBlankKeeps(rest);
      assert NonBlank(items) == [x] + rest;
      assert items == [x] + rest;
    }
  }

  /** _parse_drugs_field. jsonList is what json.loads gives the stripped field as a list
      of its items' str() forms, None when it is not a JSON list: a field starting with
      '[' that is a JSON list gives its non-blank items, anything else its non-blank
      comma-separated parts. */
  function ParseDrugsField(raw: Option<string>, jsonList: Option<seq<string>>): seq<string> {
    if raw.None? then []
    else
      var s := Strip(raw.value);
      if s == [] then []
      else if s[0] == '[' && jsonList.Some? then NonBlank(jsonList.value)
      else NonBlank(Split(s, ','))
  }

  /** No parsed drug is blank or padded, and an absent or blank field gives none. */
  lemma DrugsClean(raw: Option<string>, jsonList: Option<seq<string>>)
    ensures forall d :: d in ParseDrugsField(raw, jsonList) ==> Unpadded(d)
    ensures raw.None? || Strip(raw.value) == [] ==> ParseDrugsField(raw, jsonList) == []
  {
    if raw.Some? {
      var s := Strip(raw.value);
      if s != [] {
        if s[0] == '[' && jsonList.Some? {
          NonBlankClean(jsonList.value);
        } else {
          NonBlankClean(Split(s, ','));
        }
      }
    }
  }

  /** A drug name the field can carry: non-empty, unpadded, without a comma. */
  predicate PlainDrug(d: string) {
    Unpadded(d) && ',' !in d
  }

  /** A comma-joined list of plain drug names parses back to the list. */
  lemma DrugsRoundTrip(drugs: seq<string>)
    requires |drugs| >= 1 && forall i :: 0 <= i < |drugs| ==> PlainDrug(drugs[i])
    requires drugs[0] != [] && drugs[0][0] != '['
    ensures ParseDrugsField(Some(Join(drugs, ",")), None) == drugs
  {
    var s := Join(drugs, [',']);
    assert s == Join(drugs, ",");
    JoinUnpadded(drugs);
    CommaField(s);
    SplitOfJoin(drugs, ',');
    NonBlankKeeps(drugs);
  }

  /** An unpadded field not starting with '[' is read as comma-separated parts. */
  lemma CommaField(s: string)
    requires Unpadded(s) && s[0] != '['
    ensures ParseDrugsField(Some(s), None) == NonBlank(Split(s, ','))
  {
    StripKeeps(s);
  }

  /** Joining unpadded pieces gives an unpadded text. */
  lemma JoinUnpadded(drugs: seq<string>)
    requires |drugs| >= 1 && forall i :: 0 <= i < |drugs| ==> Unpadded(drugs[i])
    ensures Unpadded(Join(drugs, [',']))
    ensures Join(drugs, [',']) != [] && drugs[0] != [] && Join(drugs, [','])[0] == drugs[0][0]
  {
    JoinEnds(drugs, ',');
  }

  /** A join of non-empty pieces starts with the first piece's first character and ends
      with the last piece's last character. */
  lemma {:induction false} JoinEnds(parts: seq<string>, c: char)
    requires |parts| >= 1 && forall i :: 0 <= i < |parts| ==> parts[i] != []
    ensures var s := Join(parts, [c]);
      s != [] && s[0] == parts[0][0] && s[|s| - 1] == parts[|parts| - 1][|parts[|parts| - 1]| - 1]
  {
    if |parts| > 1 {
      JoinEnds(parts[1..], c);
      assert Join(parts, [c]) == parts[0] + [c] + Join(parts[1..], [c]);
    }
  }

  // ---------------------------------------------------------------------------
  // The form fields
  // ---------------------------------------------------------------------------

  /** patient_id: the stripped form value, None when absent or blank. */
  function PatientIdOf(field: Option<string>): (r: Option<string>)
    ensures r.Some? ==> r.value != [] && Strip(r.value) == r.value
    ensures r.None? <==> Strip(field.GetOr("")) == []
  {
    var s := Strip(field.GetOr(""));
    StripIdempotent(field.GetOr(""));
    if s == [] then None else Some(s)
  }

  const TrueWords: set<string> := {"1", "true", "yes", "y", "on"}

  /** The enable_llm setting: the form value, else ENABLE_LLM, else "true", an empty
      value counting as absent. */
  function LlmSetting(field: Option<string>, env: Option<string>): (r: string)
    ensures field.Some? && field.value != "" ==> r == field.value
    ensures (field.None? || field.value == "") && env.Some? && env.value != "" ==> r == env.value
    ensures (field.None? || field.value == "") && (env.None? || env.value == "") ==> r == "true"
  {
    if field.Some? && field.value != "" then field.value
    else if env.Some? && env.value != "" then env.value
    else "true"
  }

  /** enable_llm: the setting, stripped and lower-cased, is one of the true words. */
  function EnableLlm(field: Option<string>, env: Option<string>): bool {
    Lower(Strip(LlmSetting(field, env))) in TrueWords
  }

  /** The switch is on when neither the form nor the environment sets it. */
  lemma LlmOnByDefault(field: Option<string>, env: Option<string>)
    requires field.None? || field.value == ""
    requires env.None? || env.value == ""
    ensures EnableLlm(field, env)
  {
    var t := LlmSetting(field, env);
    assert t == "true";
    TrueIsOn();
  }

  /** The default setting "true" is a true word once stripped and lower-cased. */
  lemma TrueIsOn()
    ensures Lower(Strip("true")) in TrueWords
  {
    TrueStripped();
    TrueLowered();
    assert "true" in TrueWords;
  }

  lemma TrueStripped()
    ensures Strip("true") == "true"
  {
    var t := "true";
    assert !IsSpace(t[0]) && !IsSpace(t[|t| - 1]);
    StripKeeps(t);
  }

  lemma TrueLowered()
    ensures Lower("true") == "true"
  {
  }

  /** A non-empty form value decides alone; the environment is not consulted. */
  lemma LlmFormWins(field: string, env: Option<string>)
    requires field != ""
    ensures EnableLlm(Some(field), env) == (Lower(Strip(field)) in TrueWords)
  {
  }

  /** A form value of spaces switches it off rather than falling back to the default. */
  lemma LlmBlankOff(env: Option<string>)
    ensures !EnableLlm(Some(" "), env)
  {
    assert LlmSetting(Some(" "), env) == " ";
    BlankIsOff();
  }

  /** A blank setting strips and lower-cases to the empty text, which is no true word. */
  lemma BlankIsOff()
    ensures Lower(Strip(" ")) !in TrueWords
  {
    BlankStripped();
    var w := Lower(Strip(" "));
    assert |w| == 0;
    EmptyNotTrue(w);
  }

  lemma EmptyNotTrue(w: string)
    requires |w| == 0
    ensures w !in TrueWords
  {
    assert forall t :: t in TrueWords ==> |t| >= 1;
  }

  lemma BlankStripped()
    ensures Strip(" ") == []
  {
    StripOf(" ", [], []);
    assert " " + [] + [] == " ";
  }

  // ---------------------------------------------------------------------------
  // analyze
  // ---------------------------------------------------------------------------

  /** The uploaded part: the name the client sent and its secure_filename() form. */
  datatype Upload = Upload(filename: string, safeName: string)

  /** The form fields; drugsJson is what json.loads makes of the stripped drugs field. */
  datatype Form = Form(patientId: Option<string>, drugs: Option<string>,
                       drugsJson: Option<seq<string>>, enableLlm: Option<string>)

  /** What the file system does: the error of creating the temporary file or of saving
      the upload into it, if any, and the decoded head of the saved file. */
  datatype Effects = Effects(createError: Option<string>, saveError: Option<string>, head: Option<string>)

  datatype Body<R> = Failure(message: string) | Success(results: R)

  datatype Response<R> = Response(status: nat, body: Body<R>)

  /** The temporary directory: the names of the files in it. */
  class TempDir {
    var files: set<string>

    constructor (files: set<string>)
      ensures this.files == files
    {
      this.files := files;
    }

    method Create(name: string)
      requires name !in files
      modifies this
      ensures files == old(files) + {name}
    {
      files := files + {name};
    }

    method Remove(name: string)
      modifies this
      ensures files == old(files) - {name}
    {
      files := files - {name};
    }
  }

  /** The checks made before any temporary file exists, in order: the part is present,
      has a name, has the .vcf extension once made safe, and names at least one drug. */
  function EarlyError(upload: Option<Upload>, form: Form): Option<string> {
    if upload.None? then Some("No vcf_file part")
    else if upload.value.filename == "" then Some("No selected file")
    else if !AllowedFilename(Some(upload.value.safeName)) then Some("Invalid file extension, .vcf required")
    else if ParseDrugsField(form.drugs, form.drugsJson) == [] then Some("Drugs field is required")
    else None
  }

  /** What the pipeline is called with: the drugs, the patient identifier and the LLM
      switch read from the form. */
  function RunInputs(form: Form, env: Option<string>): (seq<string>, Option<string>, bool) {
    (ParseDrugsField(form.drugs, form.drugsJson), PatientIdOf(form.patientId), EnableLlm(form.enableLlm, env))
  }

  /** The guards after the early checks: 400 for the first failed early check; 500 with
      the error when the temporary file cannot be made or written; 400 for a file that
      does not look like a VCF; otherwise the pipeline's results with 200, or 500 with
      its error. */
  function Respond<R>(early: Option<string>, fx: Effects, inputs: (seq<string>, Option<string>, bool),
                      run: (seq<string>, Option<string>, bool) -> Result<R>): (r: Response<R>)
    ensures r.status == 200 <==> r.body.Success?
    ensures r.status != 200 ==> r.status == 400 || r.status == 500
    ensures early.Some? ==> r == Response(400, Failure(early.value))
    ensures r.body.Success? ==> early.None? && fx.createError.None? && fx.saveError.None? && LooksLikeVcf(fx.head)
    ensures r.body.Success? ==> run(inputs.0, inputs.1, inputs.2) == Ok(r.body.results)
  {
    match early
    case Some(m) => Response(400, Failure(m))
    case None =>
      if fx.createError.Some? then Response(500, Failure(fx.createError.value))
      else if fx.saveError.Some? then Response(500, Failure(fx.saveError.value))
      else if !LooksLikeVcf(fx.head) then Response(400, Failure("Invalid VCF structure or corrupted file."))
      else
        match run(inputs.0, inputs.1, inputs.2)
        case Err(e) => Response(500, Failure(e))
        case Ok(results) => Response(200, Success(results))
  }

  /** The response of analyze. */
  function AnalyzeOf<R>(upload: Option<Upload>, form: Form, env: Option<string>, fx: Effects,
                        run: (seq<string>, Option<string>, bool) -> Result<R>): Response<R>
  {
    Respond(EarlyError(upload, form), fx, RunInputs(form, env), run)
  }

  /** Passing the early checks means some drug was named. */
  lemma EarlyPassedDrugs(upload: Option<Upload>, form: Form)
    requires EarlyError(upload, form).None?
    ensures upload.Some? && upload.value.filename != "" && AllowedFilename(Some(upload.value.safeName))
    ensures ParseDrugsField(form.drugs, form.drugsJson) != []
  {
  }

  /** The checks of analyze before any temporary file exists, in the order they are made,
      and the form fields read along the way. */
  method CheckRequest(upload: Option<Upload>, form: Form, env: Option<string>)
    returns (early: Option<string>, inputs: (seq<string>, Option<string>, bool))
    ensures early == EarlyError(upload, form)
    ensures early.None? ==> inputs == RunInputs(form, env)
  {
    inputs := ([], None, false);
    if upload.None? {
      return Some("No vcf_file part"), inputs;
    }
    if upload.value.filename == "" {
      return Some("No selected file"), inputs;
    }
    if !AllowedFilename(Some(upload.value.safeName)) {
      return Some("Invalid file extension, .vcf required"), inputs;
    }
    var patientId := PatientIdOf(form.patientId);
    var drugs := ParseDrugsField(form.drugs, form.drugsJson);
    if drugs == [] {
      return Some("Drugs field is required"), inputs;
    }
    var enableLlm := EnableLlm(form.enableLlm, env);
    return None, (drugs, patientId, enableLlm);
  }

  /** analyze: the early checks, then the temporary file, which is removed on every path
      once it exists; created says whether one was made, which happens only after the
      early checks pass. */
  method Analyze<R>(dir: TempDir, tmpName: string, upload: Option<Upload>, form: Form,
                    env: Option<string>, fx: Effects,
                    run: (seq<string>, Option<string>, bool) -> Result<R>)
    returns (response: Response<R>, created: bool)
    requires tmpName !in dir.files
    modifies dir
    ensures response == AnalyzeOf(upload, form, env, fx, run)
    ensures created <==> EarlyError(upload, form).None? && fx.createError.None?
    ensures dir.files == old(dir.files)
  {
    created := false;
    var early, inputs := CheckRequest(upload, form, env);
    if early.Some? {
      return Response(400, Failure(early.value)), created;
    }
    if fx.createError.Some? {
      return Response(500, Failure(fx.createError.value)), created;
    }
    dir.Create(tmpName);
    created := true;
    if fx.saveError.Some? {
      response := Response(500, Failure(fx.saveError.value));
    } else if !LooksLikeVcf(fx.head) {
      response := Response(400, Failure("Invalid VCF structure or corrupted file."));
    } else {
      match run(inputs.0, inputs.1, inputs.2)
      case Err(e) => response := Response(500, Failure(e));
      case Ok(results) => response := Response(200, Success(results));
    }
    dir.Remove(tmpName);
  }
}
