/** The entry points of the pipeline orchestrator around the report chain: the .env
    loader, the file name save_report gives a report, and the command-line argument loop.
    Reading the .env file, writing the report and the process environment are
    parameters or fields. */
module PipelineEntry {
  import opened Text

  // ---------------------------------------------------------------------------
  // _load_dotenv_if_present
  // ---------------------------------------------------------------------------

  /** A .env value as the loader keeps it: stripped of spaces, then of double quotes,
      then of single quotes. */
  function CleanValue(v: string): string {
    StripChar(StripChar(Strip(v), '"'), '\'')
  }

  /** The KEY=VALUE pair one .env line sets, if any: blank lines, comments and lines
      without '=' set nothing, and neither does an empty key; the line is cut at its
      first '='. */
  function EnvEntry(raw: string): Option<(string, string)> {
    var line := Strip(raw);
    if line == [] || line[0] == '#' then None
    else
      match SplitFirst(line, '=')
      case None => None
      case Some(kv) =>
        var key := Strip(kv.0);
        if key == [] then None else Some((key, CleanValue(kv.1)))
  }

  /** A key the loader sets is non-empty, stripped and free of '='. */
  lemma EnvKeyClean(raw: string)
    requires EnvEntry(raw).Some?
    ensures var k := EnvEntry(raw).value.0; k != [] && Strip(k) == k && '=' !in k
  {
    var line := Strip(raw);
    var kv := SplitFirst(line, '=').value;
    StripIdempotent(kv.0);
    if '=' in Strip(kv.0) {
      StripIn(kv.0, '=');
    }
  }

  /** A value the loader keeps as it is: empty, or neither starting nor ending with a
      space or a quote. */
  predicate PlainValue(v: string) {
    v == [] || (!IsSpace(v[0]) && !IsSpace(v[|v| - 1]) && v[0] !in "\"'" && v[|v| - 1] !in "\"'")
  }

  /** Writing a key and a plain value as KEY=VALUE and reading the line back gives the
      pair. */
  lemma EnvEntryRoundTrip(k: string, v: string)
    requires k != [] && Strip(k) == k && '=' !in k && k[0] != '#'
    requires PlainValue(v)
    ensures EnvEntry(k + "=" + v) == Some((k, v))
  {
    var line := k + ['='] + v;
    assert k + "=" + v == line;
    assert line[0] == k[0];
    assert !IsSpace(k[0]);
    assert line[|line| - 1] == if v == [] then '=' else v[|v| - 1];
    StripKeeps(line);
    SplitFirstOf(k, '=', v);
    PlainValueClean(v);
  }

  /** A plain value is its own clean form. */
  lemma PlainValueClean(v: string)
    requires PlainValue(v)
    ensures CleanValue(v) == v
  {
    if v != [] {
      StripKeeps(v);
    }
  }

  /** The process environment the loader writes to. */
  class Environment {
    var vars: map<string, string>

    constructor (vars: map<string, string>)
      ensures this.vars == vars
    {
      this.vars := vars;
    }

    /** _load_dotenv_if_present on the file's text, None when there is no file: each
        line's pair is set unless its key is already set. */
    method LoadDotenv(text: Option<string>)
      modifies this
      ensures text.None? ==> vars == old(vars)
      ensures text.Some? ==> vars == Assigned(old(vars), Entries(SplitLines(text.value)))
    {
      if text.None? {
        return;
      }
      var lines := SplitLines(text.value);
      for i := 0 to |lines|
        invariant vars == Assigned(old(vars), Entries(lines[..i]))
      {
        var entry := EnvEntry(lines[i]);
        EntriesSnoc(lines, i);
        AssignedSnoc(old(vars), Entries(lines[..i]), entry);
        if entry.Some? && entry.value.0 !in vars {
          vars := vars[entry.value.0 := entry.value.1];
        }
      }
      assert lines[..|lines|] == lines;
    }
  }

  /** The pair each line sets, line by line. */
  function Entries(lines: seq<string>): (r: seq<Option<(string, string)>>)
    ensures |r| == |lines|
  {
    seq(|lines|, i requires 0 <= i < |lines| => EnvEntry(lines[i]))
  }

  lemma EntriesSnoc(lines: seq<string>, i: nat)
    requires i < |lines|
    ensures Entries(lines[..i + 1]) == Entries(lines[..i]) + [EnvEntry(lines[i])]
  {
  }

  lemma AssignedSnoc(env: map<string, string>, entries: seq<Option<(string, string)>>, e: Option<(string, string)>)
    ensures var prev := Assigned(env, entries);
      Assigned(env, entries + [e]) == if e.Some? && e.value.0 !in prev then prev[e.value.0 := e.value.1] else prev
  {
    assert (entries + [e])[..|entries|] == entries;
  }

  /** The environment after setting the pairs, in order, each only when its key is unset. */
  function Assigned(env: map<string, string>, entries: seq<Option<(string, string)>>): map<string, string> {
    if entries == [] then env
    else
      var prev := Assigned(env, entries[..|entries| - 1]);
      var e := entries[|entries| - 1];
      if e.Some? && e.value.0 !in prev then prev[e.value.0 := e.value.1] else prev
  }

  /** A variable already set is never overridden by the .env file. */
  lemma {:induction false} AssignedKeeps(env: map<string, string>, entries: seq<Option<(string, string)>>)
    ensures forall k :: k in env ==> k in Assigned(env, entries) && Assigned(env, entries)[k] == env[k]
  {
    if entries != [] {
      AssignedKeeps(env, entries[..|entries| - 1]);
    }
  }

  /** Every variable the file adds comes from a line that sets it to that value. */
  lemma {:induction false} AssignedFrom(env: map<string, string>, entries: seq<Option<(string, string)>>, k: string)
    requires k in Assigned(env, entries) && k !in env
    ensures exists i :: 0 <= i < |entries| && entries[i] == Some((k, Assigned(env, entries)[k]))
  {
    var init := entries[..|entries| - 1];
    var prev := Assigned(env, init);
    if k in prev {
      AssignedFrom(env, init, k);
      var i :| 0 <= i < |init| && init[i] == Some((k, prev[k]));
      assert entries[i] == init[i];
    } else {
      assert entries[|entries| - 1] == Some((k, Assigned(env, entries)[k]));
    }
  }

  /** The first line that sets an unset variable decides its value. */
  lemma {:induction false} AssignedFirst(env: map<string, string>, entries: seq<Option<(string, string)>>,
                                         i: nat, k: string, v: string)
    requires i < |entries| && entries[i] == Some((k, v)) && k !in env
    requires forall j :: 0 <= j < i ==> entries[j].None? || entries[j].value.0 != k
    ensures k in Assigned(env, entries) && Assigned(env, entries)[k] == v
  {
    var init := entries[..|entries| - 1];
    if i == |entries| - 1 {
      if k in Assigned(env, init) {
        AssignedFrom(env, init, k);
        assert false;
      }
    } else {
      AssignedFirst(env, init, i, k, v);
    }
  }

  // ---------------------------------------------------------------------------
  // save_report's file name
  // ---------------------------------------------------------------------------

  /** The file-system-safe timestamp: ':' and '.' become '-', '+' becomes '_', and at
      most the first 19 characters are kept. */
  function SafeTimestamp(ts: string): (r: string)
    ensures |r| == if |ts| < 19 then |ts| else 19
    ensures ':' !in r && '+' !in r && '.' !in r
    ensures forall i :: 0 <= i < |r| && ts[i] !in {':', '+', '.'} ==> r[i] == ts[i]
  {
    var s := ReplaceChar(ReplaceChar(ReplaceChar(ts, ':', '-'), '+', '_'), '.', '-');
    if |s| <= 19 then s else s[..19]
  }

  /** An ISO timestamp keeps its date and seconds-precision time, with '-' in the time. */
  lemma SafeIsoTimestamp()
    ensures SafeTimestamp("2026-01-31T09:05:07.123456+00:00") == "2026-01-31T09-05-07"
  {
  }

  /** <patient>_<drug>_<timestamp>.json, spaces in the patient and the drug replaced by
      underscores. */
  function ReportFileName(patientId: string, drug: string, timestamp: string): (r: string)
    ensures |r| == |patientId| + |drug| + |SafeTimestamp(timestamp)| + 7
    ensures r[|r| - 5..] == ".json"
    ensures ' ' !in r[..|patientId|] && r[|patientId|] == '_'
    ensures ' ' !in r[|patientId| + 1..|patientId| + 1 + |drug|] && r[|patientId| + 1 + |drug|] == '_'
    ensures r[|patientId| + 2 + |drug|..|r| - 5] == SafeTimestamp(timestamp)
    ensures forall i :: 0 <= i < |patientId| ==> r[i] == (if patientId[i] == ' ' then '_' else patientId[i])
    ensures forall i :: 0 <= i < |drug| ==>
      r[|patientId| + 1 + i] == (if drug[i] == ' ' then '_' else drug[i])
  {
    var p, d := ReplaceChar(patientId, ' ', '_'), ReplaceChar(drug, ' ', '_');
    var r := p + "_" + d + "_" + SafeTimestamp(timestamp) + ".json";
    assert r[..|p|] == p;
    assert r[|p| + 1..|p| + 1 + |d|] == d;
    r
  }

  /** A patient identifier and a drug without spaces appear in the file name as they are. */
  lemma ReportFileNameNames(patientId: string, drug: string, timestamp: string)
    requires ' ' !in patientId && ' ' !in drug
    ensures var r := ReportFileName(patientId, drug, timestamp);
      r[..|patientId|] == patientId && r[|patientId| + 1..|patientId| + 1 + |drug|] == drug
  {
    var r := ReportFileName(patientId, drug, timestamp);
    assert r[..|patientId|] == patientId by {
      forall i | 0 <= i < |patientId| ensures r[..|patientId|][i] == patientId[i] {
        assert patientId[i] != ' ';
      }
    }
    assert r[|patientId| + 1..|patientId| + 1 + |drug|] == drug by {
      forall i | 0 <= i < |drug| ensures r[|patientId| + 1..|patientId| + 1 + |drug|][i] == drug[i] {
        assert drug[i] != ' ';
      }
    }
  }

  // ---------------------------------------------------------------------------
  // The command-line argument loop
  // ---------------------------------------------------------------------------

  /** The drugs, the patient identifier and the LLM switch read from the arguments. */
  datatype Cli = Cli(drugs: seq<string>, patientId: Option<string>, enableLlm: bool)

  /** The loop over the arguments after the VCF path, from the first one on: --patient X
      takes two arguments when X exists, --llm and --no-llm set the switch, anything
      else is a drug. */
  function Scan(args: seq<string>, cli: Cli): Cli
    decreases |args|
  {
    if args == [] then cli
    else if args[0] == "--patient" && 1 < |args| then Scan(args[2..], cli.(patientId := Some(args[1])))
    else if args[0] == "--llm" then Scan(args[1..], cli.(enableLlm := true))
    else if args[0] == "--no-llm" then Scan(args[1..], cli.(enableLlm := false))
    else Scan(args[1..], cli.(drugs := cli.drugs + [args[0]]))
  }

  /** The loop as written: an index that steps by two over --patient X and by one
      otherwise. */
  method ScanArgs(args: seq<string>, enableLlm: bool) returns (cli: Cli)
    ensures cli == Scan(args, Cli([], None, enableLlm))
  {
    cli := Cli([], None, enableLlm);
    var i := 0;
    while i < |args|
      invariant i <= |args|
      invariant Scan(args[i..], cli) == Scan(args, Cli([], None, enableLlm))
      decreases |args| - i
    {
      if args[i] == "--patient" && i + 1 < |args| {
        assert args[i..][2..] == args[i + 2..];
        cli := cli.(patientId := Some(args[i + 1]));
        i := i + 2;
      } else if args[i] == "--llm" {
        assert args[i..][1..] == args[i + 1..];
        cli := cli.(enableLlm := true);
        i := i + 1;
      } else if args[i] == "--no-llm" {
        assert args[i..][1..] == args[i + 1..];
        cli := cli.(enableLlm := false);
        i := i + 1;
      } else {
        assert args[i..][1..] == args[i + 1..];
        cli := cli.(drugs := cli.drugs + [args[i]]);
        i := i + 1;
      }
    }
  }

  // An independent reading of the arguments: each argument or pair of arguments is
  // one token, and the tokens written back out are the arguments.

  datatype Token = PatientFlag(id: string) | LlmFlag(on: bool) | DrugName(name: string)

  function Tokens(args: seq<string>): seq<Token>
    decreases |args|
  {
    if args == [] then []
    else if args[0] == "--patient" && 1 < |args| then [PatientFlag(args[1])] + Tokens(args[2..])
    else if args[0] == "--llm" then [LlmFlag(true)] + Tokens(args[1..])
    else if args[0] == "--no-llm" then [LlmFlag(false)] + Tokens(args[1..])
    else [DrugName(args[0])] + Tokens(args[1..])
  }

  function Render(t: Token): seq<string> {
    match t
    case PatientFlag(id) => ["--patient", id]
    case LlmFlag(on) => if on then ["--llm"] else ["--no-llm"]
    case DrugName(name) => [name]
  }

  function RenderAll(ts: seq<Token>): seq<string> {
    if ts == [] then [] else Render(ts[0]) + RenderAll(ts[1..])
  }

  /** The drug names among the tokens, in order. */
  function DrugNames(ts: seq<Token>): seq<string> {
    if ts == [] then []
    else (if ts[0].DrugName? then [ts[0].name] else []) + DrugNames(ts[1..])
  }

  /** The identifier of the last --patient token, or the default. */
  function LastPatient(ts: seq<Token>, default: Option<string>): Option<string> {
    if ts == [] then default
    else if ts[|ts| - 1].PatientFlag? then Some(ts[|ts| - 1].id)
    else LastPatient(ts[..|ts| - 1], default)
  }

  /** The switch of the last --llm or --no-llm token, or the default. */
  function LastLlm(ts: seq<Token>, default: bool): bool {
    if ts == [] then default
    else if ts[|ts| - 1].LlmFlag? then ts[|ts| - 1].on
    else LastLlm(ts[..|ts| - 1], default)
  }

  /** Writing the tokens back out gives the arguments: nothing is dropped or reordered. */
  lemma {:induction false} TokensRender(args: seq<string>)
    ensures RenderAll(Tokens(args)) == args
    decreases |args|
  {
    if args != [] {
      var ts := Tokens(args);
      if args[0] == "--patient" && 1 < |args| {
        TokensRender(args[2..]);
        assert ts[1..] == Tokens(args[2..]);
        assert args == ["--patient", args[1]] + args[2..];
      } else {
        TokensRender(args[1..]);
        assert ts[1..] == Tokens(args[1..]);
        assert args == [args[0]] + args[1..];
      }
    }
  }

  /** No drug is named --llm or --no-llm, and a drug named --patient is the last
      argument: a --patient with nothing after it is read as a drug. */
  lemma {:induction false} TokensShape(args: seq<string>)
    ensures forall i :: 0 <= i < |Tokens(args)| && Tokens(args)[i].DrugName? ==>
      && Tokens(args)[i].name != "--llm" && Tokens(args)[i].name != "--no-llm"
      && (Tokens(args)[i].name == "--patient" ==> i == |Tokens(args)| - 1 && args[|args| - 1] == "--patient")
    decreases |args|
  {
    if args != [] {
      var rest := if args[0] == "--patient" && 1 < |args| then args[2..] else args[1..];
      TokensShape(rest);
      var ts := Tokens(args);
      assert ts[1..] == Tokens(rest);
      if rest != [] {
        assert args[|args| - 1] == rest[|rest| - 1];
      }
    }
  }

  lemma {:induction false} LastPatientCons(t: Token, ts: seq<Token>, default: Option<string>)
    ensures LastPatient([t] + ts, default) == LastPatient(ts, if t.PatientFlag? then Some(t.id) else default)
  {
    if ts != [] {
      assert ([t] + ts)[..|ts|] == [t] + ts[..|ts| - 1];
      LastPatientCons(t, ts[..|ts| - 1], default);
    }
  }

  lemma {:induction false} LastLlmCons(t: Token, ts: seq<Token>, default: bool)
    ensures LastLlm([t] + ts, default) == LastLlm(ts, if t.LlmFlag? then t.on else default)
  {
    if ts != [] {
      assert ([t] + ts)[..|ts|] == [t] + ts[..|ts| - 1];
      LastLlmCons(t, ts[..|ts| - 1], default);
    }
  }

  /** The arguments after the first token. */
  function RestOf(args: seq<string>): seq<string>
    requires args != []
  {
    if args[0] == "--patient" && 1 < |args| then args[2..] else args[1..]
  }

  /** What one token does to what has been read. */
  function Apply(t: Token, cli: Cli): Cli {
    match t
    case PatientFlag(id) => cli.(patientId := Some(id))
    case LlmFlag(on) => cli.(enableLlm := on)
    case DrugName(name) => cli.(drugs := cli.drugs + [name])
  }

  /** One step of the loop applies the first token and goes on with the rest. */
  lemma ScanHead(args: seq<string>, cli: Cli)
    requires args != []
    ensures Tokens(args) == [Tokens(args)[0]] + Tokens(RestOf(args))
    ensures Scan(args, cli) == Scan(RestOf(args), Apply(Tokens(args)[0], cli))
  {
  }

  /** The loop reads the tokens: the drugs are the drug tokens in order, the patient is
      the last --patient's identifier and the switch is the last --llm or --no-llm. */
  lemma {:induction false} ScanReadsTokens(args: seq<string>, cli: Cli)
    ensures Scan(args, cli) == Cli(cli.drugs + DrugNames(Tokens(args)),
      LastPatient(Tokens(args), cli.patientId), LastLlm(Tokens(args), cli.enableLlm))
    decreases |args|
  {
    if args == [] {
      assert cli.drugs + [] == cli.drugs;
    } else {
      var t := Tokens(args)[0];
      var rest := RestOf(args);
      ScanHead(args, cli);
      ScanReadsTokens(rest, Apply(t, cli));
      ApplyStep(t, Tokens(rest), cli);
    }
  }

  /** Applying a token first and reading the rest reads the token and the rest. */
  lemma ApplyStep(t: Token, ts: seq<Token>, cli: Cli)
    ensures Apply(t, cli).drugs + DrugNames(ts) == cli.drugs + DrugNames([t] + ts)
    ensures LastPatient(ts, Apply(t, cli).patientId) == LastPatient([t] + ts, cli.patientId)
    ensures LastLlm(ts, Apply(t, cli).enableLlm) == LastLlm([t] + ts, cli.enableLlm)
  {
    DrugStep(t, ts, cli);
    LastPatientCons(t, ts, cli.patientId);
    LastLlmCons(t, ts, cli.enableLlm);
  }

  lemma DrugStep(t: Token, ts: seq<Token>, cli: Cli)
    ensures Apply(t, cli).drugs + DrugNames(ts) == cli.drugs + DrugNames([t] + ts)
  {
    assert ([t] + ts)[1..] == ts;
  }

  /** What the command line asks for: the usage text, one drug, or several drugs over
      one parse of the VCF. */
  datatype Command =
    | Usage
    | Single(vcf: string, drug: string, patientId: Option<string>, enableLlm: bool)
    | Multi(vcf: string, drugs: seq<string>, patientId: Option<string>, enableLlm: bool)

  /** The command of sys.argv: at least a VCF path and one more argument, and at least one
      drug among the arguments; the switch starts on exactly when GROQ_API_KEY is set
      and non-empty. */
  function CommandOf(argv: seq<string>, groqKey: Option<string>): Command {
    if |argv| < 3 then Usage
    else
      var cli := Scan(argv[2..], Cli([], None, groqKey.Some? && groqKey.value != ""));
      if cli.drugs == [] then Usage
      else if |cli.drugs| == 1 then Single(argv[1], cli.drugs[0], cli.patientId, cli.enableLlm)
      else Multi(argv[1], cli.drugs, cli.patientId, cli.enableLlm)
  }

  /** The __main__ block up to the pipeline call. */
  method ParseCommand(argv: seq<string>, groqKey: Option<string>) returns (cmd: Command)
    ensures cmd == CommandOf(argv, groqKey)
  {
    if |argv| < 3 {
      return Usage;
    }
    var cli := ScanArgs(argv[2..], groqKey.Some? && groqKey.value != "");
    if cli.drugs == [] {
      return Usage;
    }
    if |cli.drugs| == 1 {
      return Single(argv[1], cli.drugs[0], cli.patientId, cli.enableLlm);
    }
    return Multi(argv[1], cli.drugs, cli.patientId, cli.enableLlm);
  }

  /** The usage text is printed exactly when no drug is named; otherwise the drugs are the
      named ones in order, the patient is the last --patient's identifier, and the LLM
      switch is the last --llm or --no-llm, else whether GROQ_API_KEY is set. */
  lemma CommandReadsTokens(argv: seq<string>, groqKey: Option<string>)
    ensures var cmd := CommandOf(argv, groqKey);
      cmd.Usage? <==> |argv| < 3 || DrugNames(Tokens(argv[2..])) == []
    ensures var cmd := CommandOf(argv, groqKey);
      cmd.Single? ==> [cmd.drug] == DrugNames(Tokens(argv[2..]))
    ensures var cmd := CommandOf(argv, groqKey);
      cmd.Multi? ==> cmd.drugs == DrugNames(Tokens(argv[2..])) && |cmd.drugs| >= 2
    ensures var cmd := CommandOf(argv, groqKey);
      !cmd.Usage? ==> && cmd.vcf == argv[1]
                      && cmd.patientId == LastPatient(Tokens(argv[2..]), None)
                      && cmd.enableLlm == LastLlm(Tokens(argv[2..]), groqKey.Some? && groqKey.value != "")
  {
    if |argv| >= 3 {
      ScanReadsTokens(argv[2..], Cli([], None, groqKey.Some? && groqKey.value != ""));
    }
  }
}
