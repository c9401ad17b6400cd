/** Genotype normalisation, diplotype calling from an ordered star-to-zygosity
    record, and the CPIC phenotype rules. Activity values are kept in quarter units
    (1.0 is 4, 0.5 is 2, 0.25 is 1), so every score and threshold is an integer. */
module PhenotypeCalculator {
  import opened Text
  import opened Frames

  const PgxGenes: set<string> := {"CYP2D6", "CYP2C19", "CYP2C9", "SLCO1B1", "TPMT", "DPYD"}

  // ---------------------------------------------------------------------------
  // normalize_genotype
  // ---------------------------------------------------------------------------

  const Zygosities: set<string> := {"0/0", "0/1", "1/1"}

  /** A stripped allele field counted as 0 or 1. */
  function FieldBit(q: string): (b: nat)
    ensures b <= 1
    ensures b == 1 <==> ParseInt(q).Some? && ParseInt(q).value > 0
  {
    if q == "" || q == "." then 0
    else
      match ParseInt(q)
      case None => 0
      case Some(v) => if v <= 0 then 0 else 1
  }

  /** One allele field counted as 0 or 1: any integer above 0 counts 1; ".", blank,
      a non-integer or an integer at or below 0 counts 0. */
  function AlleleBit(p: string): (b: nat)
    ensures b <= 1
    ensures b == 1 <==> ParseInt(Strip(p)).Some? && ParseInt(Strip(p)).value > 0
  {
    FieldBit(Strip(p))
  }

  /** The sorted pair of allele bits written as "a/b". */
  function Zygosity(a: nat, b: nat): (r: string)
    requires a <= 1 && b <= 1
    ensures r in Zygosities
  {
    if a + b == 0 then "0/0" else if a + b == 1 then "0/1" else "1/1"
  }

  /** The normalised genotype of a Genotype cell (None for a missing cell). */
  function Normalized(g: Option<string>): (r: string)
    ensures r in Zygosities
    ensures g.None? ==> r == "0/0"
    ensures g.Some? && (Strip(g.value) == "" || Strip(g.value) == "./.") ==> r == "0/0"
    ensures g.Some? && '/' !in g.value && '|' !in g.value ==> r == "0/0"
  {
    if g.None? then "0/0"
    else
      var text := Strip(g.value);
      if text == "" || text == "./." then "0/0"
      else if '/' !in text && '|' !in text then "0/0"
      else
        assert '/' in g.value || '|' in g.value by {
          if '/' in text { StripIn(g.value, '/'); } else { StripIn(g.value, '|'); }
        }
        var sep := if '/' in text then '/' else '|';
        var parts := Split(text, sep);
        if |parts| != 2 then "0/0" else Zygosity(AlleleBit(parts[0]), AlleleBit(parts[1]))
  }

  /** The source's steps: pick the separator, split, count each allele in a loop, sort. */
  method NormalizeGenotype(g: Option<string>) returns (r: string)
    ensures r == Normalized(g)
  {
    if g.None? {
      return "0/0";
    }
    var text := Strip(g.value);
    if text == "" || text == "./." {
      return "0/0";
    }
    var sep: char;
    if '/' in text {
      sep := '/';
    } else if '|' in text {
      sep := '|';
    } else {
      return "0/0";
    }
    var parts := Split(text, sep);
    NormalizedParts(g.value, sep);
    if |parts| != 2 {
      return "0/0";
    }
    var alleles := AlleleBits(parts);
    var lo, hi := alleles[0], alleles[1];
    if lo > hi {
      lo, hi := hi, lo;
    }
    ZygosityText(lo, hi);
    r := NatToString(lo) + "/" + NatToString(hi);
  }

  /** The loop of normalize_genotype: each allele field counted as 0 or 1. */
  method AlleleBits(parts: seq<string>) returns (alleles: seq<nat>)
    ensures |alleles| == |parts|
    ensures forall k :: 0 <= k < |parts| ==> alleles[k] == AlleleBit(parts[k]) <= 1
  {
    alleles := [];
    var i := 0;
    while i < |parts|
      invariant 0 <= i <= |parts|
      invariant |alleles| == i
      invariant forall k :: 0 <= k < i ==> alleles[k] == AlleleBit(parts[k])
    {
      var p := Strip(parts[i]);
      if p == "" || p == "." {
        alleles := alleles + [0];
      } else {
        match ParseInt(p)
        case None =>
          alleles := alleles + [0];
        case Some(v) =>
          alleles := alleles + [if v <= 0 then 0 else 1];
      }
      i := i + 1;
    }
  }

  /** Normalized, unfolded once the separator is chosen. */
  lemma NormalizedParts(v: string, sep: char)
    requires Strip(v) != "" && Strip(v) != "./."
    requires sep == '/' || sep == '|'
    requires sep in Strip(v) && (sep == '|' ==> '/' !in Strip(v))
    ensures var parts := Split(Strip(v), sep);
      Normalized(Some(v)) == if |parts| != 2 then "0/0" else Zygosity(AlleleBit(parts[0]), AlleleBit(parts[1]))
  {
  }

  lemma ZygosityText(a: nat, b: nat)
    requires a <= b <= 1
    ensures NatToString(a) + "/" + NatToString(b) == Zygosity(a, b)
  {
    assert NatToString(0) == "0";
    assert NatToString(1) == "1";
  }

  /** Normalisation once the text is known to be "x c y" with c the chosen separator. */
  lemma NormalizedSplit(g: string, x: string, c: char, y: string)
    requires c == '/' || c == '|'
    requires Strip(g) == x + [c] + y
    requires Strip(g) != "./."
    requires c == '|' ==> '/' !in Strip(g)
    requires Split(Strip(g), c) == [x, y]
    ensures Normalized(Some(g)) == Zygosity(AlleleBit(x), AlleleBit(y))
  {
    assert Strip(g)[|x|] == c;
  }

  lemma JoinedDot(x: string, c: char, y: string)
    requires '/' !in x && '/' !in y
    requires x + [c] + y == "./."
    ensures x == "." && y == "."
  {
    var s := x + [c] + y;
    assert s[0] == '.' && s[1] == '/' && s[2] == '.' && |s| == 3;
    if |x| == 1 {
      assert x[0] == s[0];
      assert y == s[2..];
    } else {
      assert false;
    }
  }

  /** Two allele fields joined by a separator normalise to the count of their bits. */
  lemma NormalizeJoined(a: string, c: char, b: string)
    requires c == '/' || c == '|'
    requires '/' !in a && '/' !in b
    requires c == '|' ==> '|' !in a && '|' !in b
    ensures Normalized(Some(a + [c] + b)) == Zygosity(AlleleBit(a), AlleleBit(b))
  {
    var g := a + [c] + b;
    var x := TrimLeft(a);
    var y := TrimRight(b);
    assert !IsSpace(c);
    StripAround(a, c, b);
    assert '/' !in x && '/' !in y;
    assert AlleleBit(x) == AlleleBit(a) by { StripOfTrimLeft(a); }
    assert AlleleBit(y) == AlleleBit(b) by { StripOfTrimRight(b); }
    if x + [c] + y == "./." {
      DotCase(g, x, c, y);
    } else {
      SplitCase(g, x, c, y);
    }
  }

  lemma DotCase(g: string, x: string, c: char, y: string)
    requires '/' !in x && '/' !in y
    requires Strip(g) == x + [c] + y == "./."
    ensures Normalized(Some(g)) == Zygosity(AlleleBit(x), AlleleBit(y))
  {
    JoinedDot(x, c, y);
    assert Strip(".") == "." by { StripOf([], ".", []); assert [] + "." + [] == "."; }
  }

  lemma SplitCase(g: string, x: string, c: char, y: string)
    requires c == '/' || c == '|'
    requires '/' !in x && '/' !in y
    requires c == '|' ==> '|' !in x && '|' !in y
    requires Strip(g) == x + [c] + y != "./."
    ensures Normalized(Some(g)) == Zygosity(AlleleBit(x), AlleleBit(y))
  {
    assert Split(x + [c] + y, c) == [x, y] by { SplitTwo(x, c, y); }
    assert c == '|' ==> '/' !in x + [c] + y;
    NormalizedSplit(g, x, c, y);
  }

  /** normalize_genotype ignores the order of the two alleles. */
  lemma NormalizeOrderBlind(a: string, b: string)
    requires '/' !in a && '/' !in b
    ensures Normalized(Some(a + "/" + b)) == Normalized(Some(b + "/" + a))
  {
    NormalizeJoined(a, '/', b);
    NormalizeJoined(b, '/', a);
  }

  /** normalize_genotype ignores phasing: "a|b" and "a/b" normalise alike. */
  lemma NormalizePhaseBlind(a: string, b: string)
    requires '/' !in a && '/' !in b && '|' !in a && '|' !in b
    ensures Normalized(Some(a + "|" + b)) == Normalized(Some(a + "/" + b))
  {
    NormalizeJoined(a, '|', b);
    NormalizeJoined(a, '/', b);
  }

  lemma DigitBit(n: nat)
    requires n <= 1
    ensures AlleleBit(NatToString(n)) == n
  {
    var t := NatToString(n);
    if n == 0 { assert t == "0"; } else { assert t == "1"; }
    assert Strip(t) == t by { StripOf([], t, []); assert [] + t + [] == t; }
    ParseNatToString(n);
  }

  lemma DigitBits()
    ensures AlleleBit("0") == 0 && AlleleBit("1") == 1
  {
    DigitBit(0);
    DigitBit(1);
    assert NatToString(0) == "0" && NatToString(1) == "1";
  }

  /** The text of a zygosity normalises back to that zygosity. */
  lemma NormalizeFixedBits(i: nat, j: nat)
    requires i <= j <= 1
    ensures Normalized(Some(NatToString(i) + "/" + NatToString(j))) == Zygosity(i, j)
  {
    var a, b := NatToString(i), NatToString(j);
    DigitBit(i);
    DigitBit(j);
    assert a + "/" + b == a + ['/'] + b;
    NormalizeJoined(a, '/', b);
  }

  /** Each of "0/0", "0/1" and "1/1" normalises to itself. */
  lemma NormalizeFixed(z: string)
    requires z in Zygosities
    ensures Normalized(Some(z)) == z
  {
    var i: nat, j: nat := if z == "1/1" then 1 else 0, if z == "0/0" then 0 else 1;
    assert z == Zygosity(i, j);
    ZygosityText(i, j);
    NormalizeFixedBits(i, j);
  }

  /** Normalising a normalised genotype changes nothing. */
  lemma NormalizeIdempotent(g: Option<string>)
    ensures Normalized(Some(Normalized(g))) == Normalized(g)
  {
    NormalizeFixed(Normalized(g));
  }

  // ---------------------------------------------------------------------------
  // _parse_diplotype
  // ---------------------------------------------------------------------------

  /** Splits "A/B" at its first '/' into two non-blank stripped alleles. */
  function ParseDiplotype(d: string): (r: Option<(string, string)>)
    ensures d == "" ==> r.None?
    ensures r.Some? ==> r.value.0 != "" && r.value.1 != "" && '/' !in r.value.0
  {
    if d == "" then None
    else
      match SplitFirst(Strip(d), '/')
      case None => None
      case Some((l, rt)) =>
        if Strip(l) == "" || Strip(rt) == "" then None
        else
          assert '/' !in Strip(l) by { if '/' in Strip(l) { StripIn(l, '/'); } }
          Some((Strip(l), Strip(rt)))
  }

  /** Parsing "a/b" gives the stripped halves, or None when either half is blank. */
  lemma ParseJoined(a: string, b: string)
    requires '/' !in a
    ensures ParseDiplotype(a + "/" + b) == if Strip(a) == "" || Strip(b) == "" then None else Some((Strip(a), Strip(b)))
  {
    var x := TrimLeft(a);
    var y := TrimRight(b);
    assert a + "/" + b == a + ['/'] + b;
    StripAround(a, '/', b);
    assert '/' !in x;
    SplitFirstOf(x, '/', y);
    StripOfTrimLeft(a);
    StripOfTrimRight(b);
  }

  /** The activity values of both alleles, when the table lists both. */
  function PairValue(p: Option<(string, string)>, activity: map<string, nat>): Option<nat> {
    match p
    case None => None
    case Some((l, rt)) => if l in activity && rt in activity then Some(activity[l] + activity[rt]) else None
  }

  function PairScore(d: string, activity: map<string, nat>): Option<nat> {
    PairValue(ParseDiplotype(d), activity)
  }

  function Swap(p: Option<(string, string)>): Option<(string, string)> {
    if p.None? then None else Some((p.value.1, p.value.0))
  }

  /** Parsing "b/a" gives the halves of "a/b" swapped. */
  lemma ParseSwapped(a: string, b: string)
    requires '/' !in a && '/' !in b
    ensures ParseDiplotype(b + "/" + a) == Swap(ParseDiplotype(a + "/" + b))
  {
    ParseJoined(a, b);
    ParseJoined(b, a);
  }

  lemma PairScoreSymmetric(a: string, b: string, activity: map<string, nat>)
    requires '/' !in a && '/' !in b
    ensures PairScore(a + "/" + b, activity) == PairScore(b + "/" + a, activity)
  {
    ParseSwapped(a, b);
    PairScoreSwapped(b + "/" + a, a + "/" + b, activity);
  }

  lemma PairScoreSwapped(d: string, e: string, activity: map<string, nat>)
    requires ParseDiplotype(d) == Swap(ParseDiplotype(e))
    ensures PairScore(d, activity) == PairScore(e, activity)
  {
    PairValueSwap(ParseDiplotype(e), activity);
  }

  lemma PairValueSwap(p: Option<(string, string)>, activity: map<string, nat>)
    ensures PairValue(Swap(p), activity) == PairValue(p, activity)
  {
  }

  // ---------------------------------------------------------------------------
  // Phenotype rules
  // ---------------------------------------------------------------------------

  const Phenotypes: set<string> := {"NM", "IM", "PM", "RM", "UM", "Unknown"}

  const Cyp2c19Table: map<string, string> := map[
    "*1/*1" := "NM",
    "*1/*2" := "IM", "*2/*1" := "IM", "*1/*3" := "IM", "*3/*1" := "IM",
    "*2/*2" := "PM", "*3/*3" := "PM", "*2/*3" := "PM", "*3/*2" := "PM",
    "*1/*17" := "RM", "*17/*1" := "RM",
    "*17/*17" := "UM",
    "*2/*17" := "IM", "*17/*2" := "IM", "*3/*17" := "IM", "*17/*3" := "IM"]

  /** CYP2C19 by exact diplotype text. */
  function Cyp2c19Phenotype(d: string): (r: string)
    ensures r in Phenotypes
    ensures r == "Unknown" <==> d !in Cyp2c19Table
  {
    if d in Cyp2c19Table then Cyp2c19Table[d] else "Unknown"
  }

  /** The star alleles the CYP2C19 table covers. */
  const Cyp2c19Alleles: seq<string> := ["*1", "*2", "*3", "*17"]

  lemma Cyp2c19Keys()
    ensures forall k :: k in Cyp2c19Table ==>
      exists i, j :: 0 <= i < 4 && 0 <= j < 4 && k == Cyp2c19Alleles[i] + "/" + Cyp2c19Alleles[j]
  {
    forall k | k in Cyp2c19Table
      ensures exists i, j :: 0 <= i < 4 && 0 <= j < 4 && k == Cyp2c19Alleles[i] + "/" + Cyp2c19Alleles[j]
    {
      var A := Cyp2c19Alleles;
      if k == "*1/*1" { assert k == A[0] + "/" + A[0]; }
      else if k == "*1/*2" { assert k == A[0] + "/" + A[1]; }
      else if k == "*2/*1" { assert k == A[1] + "/" + A[0]; }
      else if k == "*1/*3" { assert k == A[0] + "/" + A[2]; }
      else if k == "*3/*1" { assert k == A[2] + "/" + A[0]; }
      else if k == "*2/*2" { assert k == A[1] + "/" + A[1]; }
      else if k == "*3/*3" { assert k == A[2] + "/" + A[2]; }
      else if k == "*2/*3" { assert k == A[1] + "/" + A[2]; }
      else if k == "*3/*2" { assert k == A[2] + "/" + A[1]; }
      else if k == "*1/*17" { assert k == A[0] + "/" + A[3]; }
      else if k == "*17/*1" { assert k == A[3] + "/" + A[0]; }
      else if k == "*17/*17" { assert k == A[3] + "/" + A[3]; }
      else if k == "*2/*17" { assert k == A[1] + "/" + A[3]; }
      else if k == "*17/*2" { assert k == A[3] + "/" + A[1]; }
      else if k == "*3/*17" { assert k == A[2] + "/" + A[3]; }
      else { assert k == A[3] + "/" + A[2]; }
    }
  }

  lemma Cyp2c19Swapped(i: nat, j: nat)
    requires i < 4 && j < 4
    ensures Cyp2c19Phenotype(Cyp2c19Alleles[i] + "/" + Cyp2c19Alleles[j]) == Cyp2c19Phenotype(Cyp2c19Alleles[j] + "/" + Cyp2c19Alleles[i])
  {
    if i < j {
      Cyp2c19SwappedBelow(i, j);
    } else if j < i {
      Cyp2c19SwappedBelow(j, i);
    }
  }

  lemma Cyp2c19SwappedBelow(i: nat, j: nat)
    requires i < j < 4
    ensures Cyp2c19Phenotype(Cyp2c19Alleles[i] + "/" + Cyp2c19Alleles[j]) == Cyp2c19Phenotype(Cyp2c19Alleles[j] + "/" + Cyp2c19Alleles[i])
  {
    var A := Cyp2c19Alleles;
    if i == 0 && j == 1 {
      assert A[0] + "/" + A[1] == "*1/*2";
      assert A[1] + "/" + A[0] == "*2/*1";
    } else if i == 0 && j == 2 {
      assert A[0] + "/" + A[2] == "*1/*3";
      assert A[2] + "/" + A[0] == "*3/*1";
    } else if i == 0 && j == 3 {
      assert A[0] + "/" + A[3] == "*1/*17";
      assert A[3] + "/" + A[0] == "*17/*1";
    } else if i == 1 && j == 2 {
      assert A[1] + "/" + A[2] == "*2/*3";
      assert A[2] + "/" + A[1] == "*3/*2";
    } else if i == 1 && j == 3 {
      assert A[1] + "/" + A[3] == "*2/*17";
      assert A[3] + "/" + A[1] == "*17/*2";
    } else if i == 2 && j == 3 {
      assert A[2] + "/" + A[3] == "*3/*17";
      assert A[3] + "/" + A[2] == "*17/*3";
    }
  }

  /** The CYP2C19 table gives the same phenotype for both orders of the alleles. */
  lemma Cyp2c19Symmetric(a: string, b: string)
    requires '/' !in a && '/' !in b
    ensures Cyp2c19Phenotype(a + "/" + b) == Cyp2c19Phenotype(b + "/" + a)
  {
    Cyp2c19Keys();
    var A := Cyp2c19Alleles;
    if a + "/" + b in Cyp2c19Table {
      var i, j :| 0 <= i < 4 && 0 <= j < 4 && a + "/" + b == A[i] + "/" + A[j];
      JoinedEq(a, b, A[i], A[j]);
      Cyp2c19Swapped(i, j);
    } else if b + "/" + a in Cyp2c19Table {
      var i, j :| 0 <= i < 4 && 0 <= j < 4 && b + "/" + a == A[i] + "/" + A[j];
      JoinedEq(b, a, A[i], A[j]);
      Cyp2c19Swapped(i, j);
    }
  }

  /** "a/b" determines a and b when neither holds a '/'. */
  lemma JoinedEq(a: string, b: string, x: string, y: string)
    requires '/' !in a && '/' !in b && '/' !in x && '/' !in y
    requires a + "/" + b == x + "/" + y
    ensures a == x && b == y
  {
    assert a + "/" + b == a + ['/'] + b;
    assert x + "/" + y == x + ['/'] + y;
    SplitTwo(a, '/', b);
    SplitTwo(x, '/', y);
  }

  const Cyp2c9Activity: map<string, nat> := map["*1" := 4, "*2" := 2, "*3" := 0, "*5" := 0, "*6" := 0, "*8" := 0, "*11" := 0]

  /** CYP2C9 by activity score: NM at 2.0 or more, IM from 1.0 below 2.0, PM below 1.0. */
  function Cyp2c9Category(score: Option<nat>): (r: string)
    ensures r == "Unknown" <==> score.None?
    ensures r in Phenotypes
    ensures score.Some? ==> ((r == "NM" <==> score.value >= 8) && (r == "IM" <==> 4 <= score.value < 8)
      && (r == "PM" <==> score.value < 4))
  {
    match score
    case None => "Unknown"
    case Some(s) => if s >= 8 then "NM" else if s >= 4 then "IM" else "PM"
  }

  function Cyp2c9Phenotype(d: string): string {
    Cyp2c9Category(PairScore(d, Cyp2c9Activity))
  }

  const TpmtActivity: map<string, nat> := map["*1" := 4, "*3B" := 2, "*2" := 0, "*3A" := 0, "*3C" := 0, "*4" := 0, "*8" := 0, "*12" := 0]

  /** TPMT by activity score: NM at 2.0 or more, IM above 0, PM at 0. */
  function TpmtCategory(score: Option<nat>): (r: string)
    ensures r == "Unknown" <==> score.None?
    ensures r in Phenotypes
    ensures score.Some? ==> ((r == "NM" <==> score.value >= 8) && (r == "IM" <==> 0 < score.value < 8)
      && (r == "PM" <==> score.value == 0))
  {
    match score
    case None => "Unknown"
    case Some(s) => if s >= 8 then "NM" else if s > 0 then "IM" else "PM"
  }

  function TpmtPhenotype(d: string): string {
    TpmtCategory(PairScore(d, TpmtActivity))
  }

  const DpydActivity: map<string, nat> := map["*1" := 4, "*2A" := 0, "*13" := 0, "*HapB3" := 2, "*c2846AT" := 2]

  /** A DPYD allele's activity; alleles the table does not list count 1.0. */
  function DpydAllele(allele: string): (v: nat)
    ensures v <= 4
    ensures allele !in DpydActivity ==> v == 4
    ensures allele in DpydActivity ==> v == DpydActivity[allele]
  {
    if allele in DpydActivity then DpydActivity[allele] else 4
  }

  function DpydValue(p: Option<(string, string)>): (r: Option<nat>)
    ensures r.Some? <==> p.Some?
    ensures r.Some? ==> r.value <= 8
  {
    match p
    case None => None
    case Some((l, rt)) => Some(DpydAllele(l) + DpydAllele(rt))
  }

  function DpydScore(d: string): Option<nat> {
    DpydValue(ParseDiplotype(d))
  }

  /** DPYD by activity score: NM at 1.5 or more, IM strictly between 0.5 and 1.5, PM otherwise. */
  function DpydCategory(score: Option<nat>): (r: string)
    ensures r == "Unknown" <==> score.None?
    ensures r in Phenotypes
    ensures score.Some? ==> ((r == "NM" <==> score.value >= 6) && (r == "IM" <==> 2 < score.value < 6)
      && (r == "PM" <==> score.value <= 2))
  {
    match score
    case None => "Unknown"
    case Some(s) => if s >= 6 then "NM" else if 2 < s < 6 then "IM" else "PM"
  }

  function DpydPhenotype(d: string): string {
    DpydCategory(DpydScore(d))
  }

  const SlcoNoFunction: set<string> := {"*5", "*15"}
  const SlcoDecreased: set<string> := {"*9", "*31", "*39", "*41", "*45"}

  function Count(b: bool): nat { if b then 1 else 0 }

  /** SLCO1B1 by count of reduced alleles: none NM, one IM; two give PM when at least
      one is no-function, IM when both are decreased-function. */
  function Slco1b1Category(p: Option<(string, string)>): (r: string)
    ensures r == "Unknown" <==> p.None?
    ensures p.Some? ==> (r == "NM" <==> p.value.0 !in SlcoNoFunction + SlcoDecreased && p.value.1 !in SlcoNoFunction + SlcoDecreased)
    ensures r in Phenotypes
    ensures p.Some? ==> (r == "PM" <==> ((p.value.0 in SlcoNoFunction && p.value.1 in SlcoNoFunction + SlcoDecreased)
      || (p.value.1 in SlcoNoFunction && p.value.0 in SlcoNoFunction + SlcoDecreased)))
  {
    match p
    case None => "Unknown"
    case Some((l, rt)) =>
      var nf := Count(l in SlcoNoFunction) + Count(rt in SlcoNoFunction);
      var df := Count(l in SlcoDecreased) + Count(rt in SlcoDecreased);
      if nf + df == 0 then "NM"
      else if nf + df == 1 then "IM"
      else if nf >= 2 || (nf >= 1 && df >= 1) then "PM"
      else "IM"
  }

  function Slco1b1Phenotype(d: string): string {
    Slco1b1Category(ParseDiplotype(d))
  }

  const Cyp2d6Activity: map<string, nat> := map["*1" := 4, "*2" := 4, "*3" := 0, "*4" := 0, "*5" := 0, "*6" := 0, "*10" := 1, "*17" := 2, "*41" := 2]

  /** CYP2D6 by activity score: PM at 0, IM up to 1.0, NM up to 2.25, UM above. */
  function Cyp2d6Category(score: Option<nat>): (r: string)
    ensures r == "Unknown" <==> score.None?
    ensures r in Phenotypes
    ensures score.Some? ==> ((r == "PM" <==> score.value == 0) && (r == "IM" <==> 0 < score.value <= 4)
      && (r == "NM" <==> 4 < score.value <= 9) && (r == "UM" <==> score.value > 9))
  {
    match score
    case None => "Unknown"
    case Some(s) =>
      if s == 0 then "PM"
      else if 0 < s <= 4 then "IM"
      else if 4 < s <= 9 then "NM"
      else "UM"
  }

  function Cyp2d6Phenotype(d: string): string {
    Cyp2d6Category(PairScore(d, Cyp2d6Activity))
  }

  /** A pair score never exceeds twice the largest activity in the table. */
  lemma PairValueBound(p: Option<(string, string)>, activity: map<string, nat>, m: nat)
    requires forall k :: k in activity ==> activity[k] <= m
    ensures PairValue(p, activity).Some? ==> PairValue(p, activity).value <= 2 * m
  {
    if PairValue(p, activity).Some? {
      var (l, rt) := p.value;
      assert activity[l] <= m && activity[rt] <= m;
    }
  }

  /** The CYP2D6 table tops out at 1.0 per allele, so the score never passes 2.0
      and the rule never reports UM. */
  lemma Cyp2d6NeverUltrarapid(d: string)
    ensures Cyp2d6Phenotype(d) != "UM"
  {
    Cyp2d6Max();
    PairValueBound(ParseDiplotype(d), Cyp2d6Activity, 4);
  }

  lemma Cyp2d6Max()
    ensures forall k :: k in Cyp2d6Activity ==> Cyp2d6Activity[k] <= 4
  {
  }

  /** Each score rule gives the same phenotype for both orders of the alleles. */
  lemma ScoreRulesSymmetric(a: string, b: string)
    requires '/' !in a && '/' !in b
    ensures Cyp2c9Phenotype(a + "/" + b) == Cyp2c9Phenotype(b + "/" + a)
    ensures TpmtPhenotype(a + "/" + b) == TpmtPhenotype(b + "/" + a)
    ensures Cyp2d6Phenotype(a + "/" + b) == Cyp2d6Phenotype(b + "/" + a)
    ensures DpydPhenotype(a + "/" + b) == DpydPhenotype(b + "/" + a)
    ensures Slco1b1Phenotype(a + "/" + b) == Slco1b1Phenotype(b + "/" + a)
  {
    var d, e := b + "/" + a, a + "/" + b;
    ParseSwapped(a, b);
    PairScoreSwapped(d, e, Cyp2c9Activity);
    PairScoreSwapped(d, e, TpmtActivity);
    PairScoreSwapped(d, e, Cyp2d6Activity);
    DpydValueSwap(ParseDiplotype(e));
    Slco1b1Swap(ParseDiplotype(e));
  }

  lemma DpydValueSwap(p: Option<(string, string)>)
    ensures DpydValue(Swap(p)) == DpydValue(p)
  {
  }

  lemma Slco1b1Swap(p: Option<(string, string)>)
    ensures Slco1b1Category(Swap(p)) == Slco1b1Category(p)
  {
  }

  /** For "A/B" with both halves non-blank, DPYD and SLCO1B1 always classify. */
  lemma AlwaysClassified(a: string, b: string)
    requires '/' !in a && Strip(a) != "" && Strip(b) != ""
    ensures DpydPhenotype(a + "/" + b) != "Unknown"
    ensures Slco1b1Phenotype(a + "/" + b) != "Unknown"
  {
    ParseJoined(a, b);
  }

  /** The phenotype of a diplotype for a gene, by the gene's rule (gene name stripped,
      case kept); an empty diplotype or an unrecognised gene is "Unknown". */
  function ComputePhenotype(gene: string, diplotype: string): (r: string)
    ensures r in Phenotypes
    ensures diplotype == "" ==> r == "Unknown"
    ensures Strip(gene) !in PgxGenes ==> r == "Unknown"
  {
    var g := Strip(gene);
    if diplotype == "" then "Unknown"
    else if g == "CYP2C19" then Cyp2c19Phenotype(diplotype)
    else if g == "CYP2C9" then Cyp2c9Phenotype(diplotype)
    else if g == "TPMT" then TpmtPhenotype(diplotype)
    else if g == "DPYD" then DpydPhenotype(diplotype)
    else if g == "SLCO1B1" then Slco1b1Phenotype(diplotype)
    else if g == "CYP2D6" then Cyp2d6Phenotype(diplotype)
    else "Unknown"
  }

  /** The phenotype rule a gene selects gives the same answer for both orders of the alleles. */
  lemma PhenotypeSymmetric(gene: string, a: string, b: string)
    requires '/' !in a && '/' !in b
    ensures ComputePhenotype(gene, a + "/" + b) == ComputePhenotype(gene, b + "/" + a)
  {
    var d, e := a + "/" + b, b + "/" + a;
    assert |d| > 0 && |e| > 0;
    ScoreRulesSymmetric(a, b);
    Cyp2c19Symmetric(a, b);
    var g := Strip(gene);
    if g == "CYP2C19" {
      assert ComputePhenotype(gene, d) == Cyp2c19Phenotype(d);
      assert ComputePhenotype(gene, e) == Cyp2c19Phenotype(e);
    } else if g == "CYP2C9" {
      assert ComputePhenotype(gene, d) == Cyp2c9Phenotype(d);
      assert ComputePhenotype(gene, e) == Cyp2c9Phenotype(e);
    } else if g == "TPMT" {
      assert ComputePhenotype(gene, d) == TpmtPhenotype(d);
      assert ComputePhenotype(gene, e) == TpmtPhenotype(e);
    } else if g == "DPYD" {
      assert ComputePhenotype(gene, d) == DpydPhenotype(d);
      assert ComputePhenotype(gene, e) == DpydPhenotype(e);
    } else if g == "SLCO1B1" {
      assert ComputePhenotype(gene, d) == Slco1b1Phenotype(d);
      assert ComputePhenotype(gene, e) == Slco1b1Phenotype(e);
    } else if g == "CYP2D6" {
      assert ComputePhenotype(gene, d) == Cyp2d6Phenotype(d);
      assert ComputePhenotype(gene, e) == Cyp2d6Phenotype(e);
    }
  }

  /** The numeric activity score in quarter units, for CYP2D6 and DPYD only (gene name
      stripped and upper-cased). */
  function ActivityScore(gene: string, diplotype: string): (r: Option<nat>)
    ensures Upper(Strip(gene)) !in {"CYP2D6", "DPYD"} ==> r.None?
    ensures ParseDiplotype(diplotype).None? ==> r.None?
  {
    var g := Upper(Strip(gene));
    if ParseDiplotype(diplotype).None? then None
    else if g == "CYP2D6" then PairScore(diplotype, Cyp2d6Activity)
    else if g == "DPYD" then DpydScore(diplotype)
    else None
  }

  /** get_activity_score agrees with the CYP2D6 rule: no score exactly when the rule says
      "Unknown", and otherwise the rule's category is the one the score falls in. */
  lemma Cyp2d6ScoreAgrees(gene: string, d: string)
    requires Upper(Strip(gene)) == "CYP2D6"
    ensures ActivityScore(gene, d).None? <==> Cyp2d6Phenotype(d) == "Unknown"
    ensures ActivityScore(gene, d).Some? ==>
      var s := ActivityScore(gene, d).value;
      (Cyp2d6Phenotype(d) == "PM" <==> s == 0) && (Cyp2d6Phenotype(d) == "IM" <==> 0 < s <= 4)
      && (Cyp2d6Phenotype(d) == "NM" <==> 4 < s <= 9)
  {
    assert ActivityScore(gene, d) == PairScore(d, Cyp2d6Activity);
  }

  /** Likewise for DPYD: a score for every parseable diplotype, classified by the thresholds. */
  lemma DpydScoreAgrees(gene: string, d: string)
    requires Upper(Strip(gene)) == "DPYD"
    ensures ActivityScore(gene, d).Some? <==> DpydPhenotype(d) != "Unknown"
    ensures ActivityScore(gene, d).Some? ==>
      var s := ActivityScore(gene, d).value;
      (DpydPhenotype(d) == "NM" <==> s >= 6) && (DpydPhenotype(d) == "IM" <==> 2 < s < 6)
      && (DpydPhenotype(d) == "PM" <==> s <= 2)
  {
    assert ActivityScore(gene, d) == DpydScore(d);
  }

  // ---------------------------------------------------------------------------
  // compute_diplotype
  // ---------------------------------------------------------------------------

  /** rsID to star allele, per gene. */
  const StarDefinitions: map<string, map<string, string>> := map[
    "CYP2C19" := map["rs4244285" := "*2", "rs4986893" := "*3", "rs12248560" := "*17"],
    "CYP2C9" := map["rs1799853" := "*2", "rs1057910" := "*3", "rs28371686" := "*5", "rs9332131" := "*6",
      "rs7900194" := "*8", "rs28371685" := "*11"],
    "TPMT" := map["rs1142345" := "*3C", "rs1800460" := "*3B", "rs1800462" := "*2"],
    "DPYD" := map["rs3918290" := "*2A", "rs55886062" := "*13", "rs75017182" := "*HapB3", "rs56038477" := "*HapB3",
      "rs67376798" := "*c2846AT"],
    "SLCO1B1" := map["rs4149056" := "*5", "rs2306283" := "*1B"],
    "CYP2D6" := map["rs3892097" := "*4", "rs1065852" := "*10", "rs35742686" := "*3", "rs5030655" := "*6",
      "rs28371725" := "*41"]]

  function StarMap(gene: string): map<string, string> {
    if gene in StarDefinitions then StarDefinitions[gene] else map[]
  }

  /** A STAR cell that counts as an annotation: present, and neither blank nor "."
      once stripped; the stripped text is the star. */
  function Annotation(cell: Option<string>): (r: Option<string>)
    ensures r.Some? ==> r.value != "" && r.value != "."
    ensures cell.None? ==> r.None?
  {
    if cell.Some? && Strip(cell.value) != "" && Strip(cell.value) != "." then Some(Strip(cell.value)) else None
  }

  /** A (star, zygosity) observation contributed by one row. */
  type Event = (string, string)

  /** The observation a row of the gene contributes: none when its genotype normalises
      to "0/0"; otherwise its STAR annotation when the frame has a STAR column and the
      cell is usable, else the gene's star for the row's rsID, else none. */
  function RowEvent(gene: string, hasStar: bool, row: Row): (r: Option<Event>)
    ensures r.Some? ==> r.value.1 == Normalized(row.genotype) && r.value.1 in {"0/1", "1/1"}
    ensures Normalized(row.genotype) == "0/0" ==> r.None?
    ensures Normalized(row.genotype) != "0/0" && hasStar && Annotation(row.star).Some? ==>
      r == Some((Annotation(row.star).value, Normalized(row.genotype)))
    ensures (!hasStar || Annotation(row.star).None?) && (row.rsid.None? || row.rsid.value !in StarMap(gene)) ==> r.None?
  {
    var gt := Normalized(row.genotype);
    if gt == "0/0" then None
    else if hasStar && Annotation(row.star).Some? then Some((Annotation(row.star).value, gt))
    else if row.rsid.None? || row.rsid.value !in StarMap(gene) then None
    else Some((StarMap(gene)[row.rsid.value], gt))
  }

  /** The observations of the gene's rows, in row order. */
  function Events(gene: string, hasStar: bool, rows: seq<Row>): (r: seq<Event>)
    ensures |r| <= |rows|
    ensures forall i :: 0 <= i < |r| ==> r[i].1 in {"0/1", "1/1"}
  {
    if rows == [] then []
    else
      var last := rows[|rows| - 1];
      var prev := Events(gene, hasStar, rows[..|rows| - 1]);
      if last.gene == gene && RowEvent(gene, hasStar, last).Some? then prev + [RowEvent(gene, hasStar, last).value] else prev
  }

  /** The seen_stars dictionary as an insertion-ordered list of (star, zygosity). */
  type Seen = seq<(string, string)>

  function KeyIndex(seen: Seen, star: string): (r: Option<nat>)
    ensures r.Some? ==> r.value < |seen| && seen[r.value].0 == star
    ensures r.None? ==> forall k :: 0 <= k < |seen| ==> seen[k].0 != star
  {
    if |seen| == 0 then None
    else if seen[|seen| - 1].0 == star then Some(|seen| - 1)
    else KeyIndex(seen[..|seen| - 1], star)
  }

  /** seen_stars[star] = zygosity, unless star is already recorded as "1/1"; a new star
      goes to the end, a known one keeps its place. */
  function Record(seen: Seen, star: string, gt: string): Seen {
    match KeyIndex(seen, star)
    case None => seen + [(star, gt)]
    case Some(k) => if seen[k].1 == "1/1" then seen else seen[k := (star, gt)]
  }

  function SeenOf(events: seq<Event>): Seen {
    if events == [] then []
    else
      var last := events[|events| - 1];
      Record(SeenOf(events[..|events| - 1]), last.0, last.1)
  }

  // An independent description of seen_stars: its keys are the observed stars with
  // repeats dropped, and a star is "1/1" exactly when some observation of it was.

  function StarsOf(events: seq<Event>): (r: seq<string>)
    ensures |r| == |events| && forall i :: 0 <= i < |events| ==> r[i] == events[i].0
  {
    seq(|events|, i requires 0 <= i < |events| => events[i].0)
  }

  /** The first occurrence of each element, in order. */
  function Dedup(s: seq<string>): (r: seq<string>)
    ensures forall x :: x in r <==> x in s
    ensures forall i, j :: 0 <= i < j < |r| ==> r[i] != r[j]
  {
    if s == [] then []
    else
      var d := Dedup(s[..|s| - 1]);
      assert forall x :: x in s <==> x in s[..|s| - 1] || x == s[|s| - 1] by {
        assert s == s[..|s| - 1] + [s[|s| - 1]];
      }
      if s[|s| - 1] in d then d else d + [s[|s| - 1]]
  }

  predicate Occurs(events: seq<Event>, star: string, gt: string) {
    exists i :: 0 <= i < |events| && events[i] == (star, gt)
  }

  /** What seen_stars holds after the observations: the distinct stars in first-seen
      order, each "1/1" if it was ever observed homozygous and "0/1" otherwise. */
  predicate Describes(seen: Seen, events: seq<Event>) {
    KeysAre(seen, Dedup(StarsOf(events))) && ZygosityObserved(seen, events)
  }

  predicate KeysAre(seen: Seen, keys: seq<string>) {
    |seen| == |keys| && forall k :: 0 <= k < |seen| ==> seen[k].0 == keys[k]
  }

  predicate ZygosityObserved(seen: Seen, events: seq<Event>) {
    forall k :: 0 <= k < |seen| ==> seen[k].1 == if Occurs(events, seen[k].0, "1/1") then "1/1" else "0/1"
  }

  lemma DedupSnoc(s: seq<string>, x: string)
    ensures Dedup(s + [x]) == if x in Dedup(s) then Dedup(s) else Dedup(s) + [x]
  {
    assert (s + [x])[..|s|] == s;
  }

  lemma StarsOfSnoc(events: seq<Event>, e: Event)
    ensures StarsOf(events + [e]) == StarsOf(events) + [e.0]
  {
  }

  lemma OccursSnoc(events: seq<Event>, e: Event, star: string, gt: string)
    ensures Occurs(events + [e], star, gt) <==> Occurs(events, star, gt) || e == (star, gt)
  {
    var all := events + [e];
    if Occurs(all, star, gt) && !(e == (star, gt)) {
      var i :| 0 <= i < |all| && all[i] == (star, gt);
      assert i < |events| && events[i] == (star, gt);
    }
    if Occurs(events, star, gt) {
      var i :| 0 <= i < |events| && events[i] == (star, gt);
      assert all[i] == (star, gt);
    }
    if e == (star, gt) {
      assert all[|events|] == (star, gt);
    }
  }

  /** Recording one more observation keeps the description. */
  lemma RecordDescribes(seen: Seen, events: seq<Event>, e: Event)
    requires Describes(seen, events)
    requires e.1 in {"0/1", "1/1"}
    ensures Describes(Record(seen, e.0, e.1), events + [e])
  {
    StarsOfSnoc(events, e);
    DedupSnoc(StarsOf(events), e.0);
    match KeyIndex(seen, e.0)
    case None => RecordNew(seen, events, e);
    case Some(k) => RecordKnown(seen, events, e, k);
  }

  /** A star seen for the first time goes to the end with its zygosity. */
  lemma RecordNew(seen: Seen, events: seq<Event>, e: Event)
    requires Describes(seen, events)
    requires e.1 in {"0/1", "1/1"}
    requires forall k :: 0 <= k < |seen| ==> seen[k].0 != e.0
    requires Dedup(StarsOf(events + [e])) ==
      if e.0 in Dedup(StarsOf(events)) then Dedup(StarsOf(events)) else Dedup(StarsOf(events)) + [e.0]
    ensures Describes(seen + [e], events + [e])
  {
    var all := events + [e];
    var d := Dedup(StarsOf(events));
    var r := seen + [e];
    assert e.0 !in d by {
      forall k | 0 <= k < |d|
        ensures d[k] != e.0
      {
        assert seen[k].0 == d[k];
      }
    }
    assert !Occurs(events, e.0, "1/1") by {
      forall i | 0 <= i < |events|
        ensures events[i] != (e.0, "1/1")
      {
        assert StarsOf(events)[i] in d;
      }
    }
    forall k | 0 <= k < |r|
      ensures r[k].1 == if Occurs(all, r[k].0, "1/1") then "1/1" else "0/1"
    {
      OccursSnoc(events, e, r[k].0, "1/1");
    }
  }

  /** A star seen before keeps its place; its zygosity moves to "1/1" but never back. */
  lemma RecordKnown(seen: Seen, events: seq<Event>, e: Event, k: nat)
    requires Describes(seen, events)
    requires e.1 in {"0/1", "1/1"}
    requires k < |seen| && seen[k].0 == e.0
    requires Dedup(StarsOf(events + [e])) ==
      if e.0 in Dedup(StarsOf(events)) then Dedup(StarsOf(events)) else Dedup(StarsOf(events)) + [e.0]
    ensures Describes(if seen[k].1 == "1/1" then seen else seen[k := e], events + [e])
  {
    var d := Dedup(StarsOf(events));
    var r := if seen[k].1 == "1/1" then seen else seen[k := e];
    assert d[k] == e.0;
    assert Dedup(StarsOf(events + [e])) == d;
    assert KeysAre(r, d);
    assert forall j :: 0 <= j < |seen| && j != k ==> seen[j].0 != e.0 by {
      forall j | 0 <= j < |seen| && j != k
        ensures seen[j].0 != e.0
      {
        if j < k {
          assert d[j] != d[k];
        } else {
          assert d[k] != d[j];
        }
      }
    }
    ZygositiesKnown(seen, events, e, k);
  }

  /** Recording a known star keeps every zygosity in step with the observations. */
  lemma ZygositiesKnown(seen: Seen, events: seq<Event>, e: Event, k: nat)
    requires ZygosityObserved(seen, events)
    requires e.1 in {"0/1", "1/1"}
    requires k < |seen| && seen[k].0 == e.0
    requires forall j :: 0 <= j < |seen| && j != k ==> seen[j].0 != e.0
    ensures ZygosityObserved(if seen[k].1 == "1/1" then seen else seen[k := e], events + [e])
  {
    var r := if seen[k].1 == "1/1" then seen else seen[k := e];
    forall j | 0 <= j < |r|
      ensures r[j].1 == if Occurs(events + [e], r[j].0, "1/1") then "1/1" else "0/1"
    {
      RecordKnownAt(seen, events, e, k, j);
    }
  }

  /** One entry after recording a known star: only that star's zygosity can change. */
  lemma RecordKnownAt(seen: Seen, events: seq<Event>, e: Event, k: nat, j: nat)
    requires k < |seen| && seen[k].0 == e.0 && j < |seen|
    requires e.1 in {"0/1", "1/1"}
    requires j != k ==> seen[j].0 != e.0
    requires seen[j].1 == if Occurs(events, seen[j].0, "1/1") then "1/1" else "0/1"
    requires seen[k].1 == if Occurs(events, seen[k].0, "1/1") then "1/1" else "0/1"
    ensures var r := if seen[k].1 == "1/1" then seen else seen[k := e];
      r[j].1 == if Occurs(events + [e], r[j].0, "1/1") then "1/1" else "0/1"
  {
    var r := if seen[k].1 == "1/1" then seen else seen[k := e];
    OccursSnoc(events, e, r[j].0, "1/1");
    if j != k {
      assert r[j] == seen[j];
    } else if seen[k].1 == "1/1" {
      assert r[j] == seen[j];
    } else {
      assert r[j] == e;
    }
  }

  lemma {:induction false} SeenDescribed(events: seq<Event>)
    requires forall i :: 0 <= i < |events| ==> events[i].1 in {"0/1", "1/1"}
    ensures Describes(SeenOf(events), events)
  {
    if events != [] {
      var prev := events[..|events| - 1];
      SeenDescribed(prev);
      RecordDescribes(SeenOf(prev), prev, events[|events| - 1]);
      assert prev + [events[|events| - 1]] == events;
    }
  }

  /** A recorded "1/1" is never downgraded: a star's zygosity is "1/1" exactly when some
      row observed it homozygous, whatever came after. */
  lemma NeverDowngraded(events: seq<Event>, k: nat)
    requires forall i :: 0 <= i < |events| ==> events[i].1 in {"0/1", "1/1"}
    requires k < |SeenOf(events)|
    ensures SeenOf(events)[k].1 == "1/1" <==> Occurs(events, SeenOf(events)[k].0, "1/1")
  {
    SeenDescribed(events);
  }

  /** The stars recorded with zygosity gt, "*1" excluded, in first-seen order. */
  function Stars(seen: Seen, gt: string): (r: seq<string>)
    ensures |r| <= |seen|
  {
    if seen == [] then []
    else (if seen[0].1 == gt && seen[0].0 != "*1" then [seen[0].0] else []) + Stars(seen[1..], gt)
  }

  /** The stars of d, "*1" excluded, whose homozygous observation status is hom. */
  function Select(d: seq<string>, events: seq<Event>, hom: bool): (r: seq<string>)
    ensures forall x :: x in r <==> x in d && x != "*1" && Occurs(events, x, "1/1") == hom
  {
    if d == [] then []
    else (if d[0] != "*1" && Occurs(events, d[0], "1/1") == hom then [d[0]] else []) + Select(d[1..], events, hom)
  }

  lemma {:induction false} StarsSelect(seen: Seen, d: seq<string>, events: seq<Event>)
    requires |seen| == |d|
    requires forall k :: 0 <= k < |seen| ==> seen[k].0 == d[k]
    requires forall k :: 0 <= k < |seen| ==> seen[k].1 == if Occurs(events, seen[k].0, "1/1") then "1/1" else "0/1"
    ensures Stars(seen, "1/1") == Select(d, events, true)
    ensures Stars(seen, "0/1") == Select(d, events, false)
  {
    if seen != [] {
      StarsSelect(seen[1..], d[1..], events);
    }
  }

  /** The homozygous and heterozygous star lists, in terms of the observations alone. */
  lemma StarLists(events: seq<Event>)
    requires forall i :: 0 <= i < |events| ==> events[i].1 in {"0/1", "1/1"}
    ensures Stars(SeenOf(events), "1/1") == Select(Dedup(StarsOf(events)), events, true)
    ensures Stars(SeenOf(events), "0/1") == Select(Dedup(StarsOf(events)), events, false)
  {
    SeenDescribed(events);
    StarsSelect(SeenOf(events), Dedup(StarsOf(events)), events);
  }

  datatype Call = Call(allele1: string, allele2: string, unphased: bool)

  /** Homozygous stars dominate; otherwise one het star S gives *1/S and two or more
      give the first two, unphased. */
  function Resolve(seen: Seen): Call {
    var hom := Stars(seen, "1/1");
    var het := Stars(seen, "0/1");
    if |hom| > 0 then Call(hom[0], hom[0], false)
    else if |het| == 1 then Call("*1", het[0], false)
    else if |het| >= 2 then Call(het[0], het[1], true)
    else Call("*1", "*1", false)
  }

  lemma SelectFirst(d: seq<string>, events: seq<Event>, hom: bool)
    requires |Select(d, events, hom)| > 0
    ensures exists i :: (0 <= i < |d| && d[i] == Select(d, events, hom)[0]
      && (forall j :: 0 <= j < i ==> d[j] == "*1" || Occurs(events, d[j], "1/1") != hom))
  {
    if d[0] != "*1" && Occurs(events, d[0], "1/1") == hom {
      assert d[0] == Select(d, events, hom)[0];
    } else {
      SelectFirst(d[1..], events, hom);
      var i :| 0 <= i < |d[1..]| && d[1..][i] == Select(d[1..], events, hom)[0]
        && (forall j :: 0 <= j < i ==> d[1..][j] == "*1" || Occurs(events, d[1..][j], "1/1") != hom);
      assert d[i + 1] == Select(d, events, hom)[0];
    }
  }

  lemma {:induction false} SelectNone(d: seq<string>, events: seq<Event>, hom: bool)
    requires forall i :: 0 <= i < |d| ==> d[i] == "*1" || Occurs(events, d[i], "1/1") != hom
    ensures Select(d, events, hom) == []
  {
    if d != [] {
      SelectNone(d[1..], events, hom);
    }
  }

  /** If any star other than *1 was observed homozygous, the call is X/X for the first
      such star in first-seen order. */
  lemma FirstHomozygousWins(events: seq<Event>, x: string)
    requires forall i :: 0 <= i < |events| ==> events[i].1 in {"0/1", "1/1"}
    requires x != "*1" && Occurs(events, x, "1/1")
    ensures var c := Resolve(SeenOf(events));
      var d := Dedup(StarsOf(events));
      c.allele1 == c.allele2 && !c.unphased
      && (exists i :: (0 <= i < |d| && d[i] == c.allele1 && Occurs(events, c.allele1, "1/1") && c.allele1 != "*1"
        && forall j :: 0 <= j < i ==> d[j] == "*1" || !Occurs(events, d[j], "1/1")))
  {
    var d := Dedup(StarsOf(events));
    StarLists(events);
    assert x in d by {
      var i :| 0 <= i < |events| && events[i] == (x, "1/1");
      assert StarsOf(events)[i] == x;
    }
    assert x in Select(d, events, true);
    SelectFirst(d, events, true);
    var h := Select(d, events, true);
    assert h[0] in h;
  }

  /** With no homozygous star, the heterozygous stars decide: none gives the reference pair
      (*1 twice), one star S gives *1 with S, two or more give the first two in first-seen order, marked unphased. */
  lemma HeterozygousCall(events: seq<Event>)
    requires forall i :: 0 <= i < |events| ==> events[i].1 in {"0/1", "1/1"}
    requires forall x :: x != "*1" ==> !Occurs(events, x, "1/1")
    ensures var c := Resolve(SeenOf(events));
      var het := Select(Dedup(StarsOf(events)), events, false);
      && (forall x :: x in het <==> x in StarsOf(events) && x != "*1")
      && (|het| == 0 ==> c == Call("*1", "*1", false))
      && (|het| == 1 ==> c == Call("*1", het[0], false))
      && (|het| >= 2 ==> c == Call(het[0], het[1], true))
  {
    StarLists(events);
    SelectNone(Dedup(StarsOf(events)), events, true);
  }

  const CausalTag: string := "rs75017182"
  const ProxyTag: string := "rs56038477"
  const UnphasedNote: string := "Unphased: trans assumed"
  const ProxyNote: string := "HapB3 called from proxy tag rs56038477 only"
  const Slco15Note: string := "Unphased: *15 (cis) assumed from rs4149056 + rs2306283 co-occurrence"

  /** Whether some row of the gene yields star *HapB3 and carries the given rsID. */
  function HapB3Tagged(gene: string, hasStar: bool, rows: seq<Row>, tag: string): bool {
    if rows == [] then false
    else
      var last := rows[|rows| - 1];
      var e := RowEvent(gene, hasStar, last);
      HapB3Tagged(gene, hasStar, rows[..|rows| - 1], tag)
      || (last.gene == gene && e.Some? && e.value.0 == "*HapB3" && last.rsid == Some(tag))
  }

  /** The Diplotype_Note parts, in order, joined by "; "; None when there are none. */
  function NoteOf(gene: string, diplotype: string, unphased: bool, causal: bool, proxy: bool): (r: Option<string>)
    ensures r.None? <==> (!unphased && !(gene == "DPYD" && proxy && !causal)
      && !(gene == "SLCO1B1" && Contains(diplotype, "*15")))
    ensures unphased && r.Some? ==> UnphasedNote <= r.value
  {
    var parts := (if unphased then [UnphasedNote] else [])
      + (if gene == "DPYD" && proxy && !causal then [ProxyNote] else [])
      + (if gene == "SLCO1B1" && Contains(diplotype, "*15") then [Slco15Note] else []);
    if parts == [] then None
    else
      assert unphased ==> parts[0] == UnphasedNote;
      Some(Join(parts, "; "))
  }

  datatype GeneCall = GeneCall(diplotype: string, note: Option<string>)

  /** The Diplotype and Diplotype_Note written to every row of the gene. */
  function CallGene(gene: string, hasStar: bool, rows: seq<Row>): GeneCall {
    var c := Resolve(SeenOf(Events(gene, hasStar, rows)));
    var d := c.allele1 + "/" + c.allele2;
    var causal := gene == "DPYD" && HapB3Tagged(gene, hasStar, rows, CausalTag);
    var proxy := gene == "DPYD" && HapB3Tagged(gene, hasStar, rows, ProxyTag);
    GeneCall(d, NoteOf(gene, d, c.unphased, causal, proxy))
  }

  /** The star a row of the gene contributes, with its normalised genotype: its usable
      STAR annotation first, else the gene's star for its rsID. */
  method RowStar(gene: string, hasStar: bool, row: Row) returns (star: Option<string>, gt: string)
    ensures star.Some? <==> row.gene == gene && RowEvent(gene, hasStar, row).Some?
    ensures star.Some? ==> RowEvent(gene, hasStar, row).value == (star.value, gt)
  {
    star := None;
    gt := NormalizeGenotype(row.genotype);
    if row.gene != gene || gt == "0/0" {
      return;
    }
    if hasStar {
      star := Annotation(row.star);
    }
    if star.None? {
      var starMap := StarMap(gene);
      if row.rsid.Some? && row.rsid.value in starMap {
        star := Some(starMap[row.rsid.value]);
      }
    }
  }

  lemma RowsStep(gene: string, hasStar: bool, rows: seq<Row>, i: nat)
    requires i < |rows|
    ensures var e := RowEvent(gene, hasStar, rows[i]);
      var hit := rows[i].gene == gene && e.Some?;
      Events(gene, hasStar, rows[..i + 1]) == Events(gene, hasStar, rows[..i]) + (if hit then [e.value] else [])
  {
    assert rows[..i + 1][..i] == rows[..i];
    assert rows[..i + 1][i] == rows[i];
  }

  lemma TaggedStep(gene: string, hasStar: bool, rows: seq<Row>, i: nat, tag: string)
    requires i < |rows|
    ensures var e := RowEvent(gene, hasStar, rows[i]);
      var hit := rows[i].gene == gene && e.Some?;
      HapB3Tagged(gene, hasStar, rows[..i + 1], tag) ==
        (HapB3Tagged(gene, hasStar, rows[..i], tag) || (hit && e.value.0 == "*HapB3" && rows[i].rsid == Some(tag)))
  {
    assert rows[..i + 1][..i] == rows[..i];
    assert rows[..i + 1][i] == rows[i];
  }

  lemma SeenOfSnoc(events: seq<Event>, e: Event)
    ensures SeenOf(events + [e]) == Record(SeenOf(events), e.0, e.1)
  {
    assert (events + [e])[..|events|] == events;
  }

  /** One seen_stars update: a new star is appended, a known one is overwritten unless
      it is already "1/1". */
  method RecordStar(seen: Seen, star: string, gt: string) returns (next: Seen)
    ensures next == Record(seen, star, gt)
  {
    next := seen;
    var k := KeyIndex(seen, star);
    if k.None? {
      next := seen + [(star, gt)];
    } else if seen[k.value].1 != "1/1" {
      next := seen[k.value := (star, gt)];
    }
  }

  /** The row loop of compute_diplotype for one gene, then the resolution of seen stars. */
  method ResolveGene(gene: string, hasStar: bool, rows: seq<Row>) returns (call: GeneCall)
    ensures call == CallGene(gene, hasStar, rows)
  {
    var seen: Seen := [];
    var causal, proxy := false, false;
    var i := 0;
    while i < |rows|
      invariant 0 <= i <= |rows|
      invariant seen == SeenOf(Events(gene, hasStar, rows[..i]))
      invariant causal == (gene == "DPYD" && HapB3Tagged(gene, hasStar, rows[..i], CausalTag))
      invariant proxy == (gene == "DPYD" && HapB3Tagged(gene, hasStar, rows[..i], ProxyTag))
    {
      RowsStep(gene, hasStar, rows, i);
      TaggedStep(gene, hasStar, rows, i, CausalTag);
      TaggedStep(gene, hasStar, rows, i, ProxyTag);
      var star, gt := RowStar(gene, hasStar, rows[i]);
      ghost var events := Events(gene, hasStar, rows[..i]);
      if star.Some? {
        assert Events(gene, hasStar, rows[..i + 1]) == events + [(star.value, gt)];
        if gene == "DPYD" && star.value == "*HapB3" {
          if rows[i].rsid == Some(CausalTag) {
            causal := true;
          } else if rows[i].rsid == Some(ProxyTag) {
            proxy := true;
          }
        }
        SeenOfSnoc(events, (star.value, gt));
        seen := RecordStar(seen, star.value, gt);
      } else {
        assert Events(gene, hasStar, rows[..i + 1]) == events;
      }
      i := i + 1;
    }
    assert rows[..|rows|] == rows;
    var c := Resolve(seen);
    var d := c.allele1 + "/" + c.allele2;
    call := GeneCall(d, NoteOf(gene, d, c.unphased, causal, proxy));
  }

  /** The order compute_diplotype visits the genes in; the genes' rows are disjoint,
      so the order does not affect the result. */
  const PgxGeneOrder: seq<string> := ["CYP2D6", "CYP2C19", "CYP2C9", "SLCO1B1", "TPMT", "DPYD"]

  /** A row of the result: the gene's call for rows of a pharmacogene, NA cells otherwise. */
  function CalledRow(hasStar: bool, rows: seq<Row>, row: Row): Row {
    if row.gene in PgxGenes then
      var c := CallGene(row.gene, hasStar, rows);
      WithDiplotype(row, Some(c.diplotype), c.note)
    else WithDiplotype(row, None, None)
  }

  /** The frame compute_diplotype returns, as a value. */
  function Diplotyped(f: Frame): Result<Frame> {
    var missing := MissingColumns(DiplotypeRequired, f.columns);
    if missing != [] then Err(MissingMessage(missing))
    else Ok(Frame(f.columns + {"Diplotype", "Diplotype_Note"},
      seq(|f.rows|, j requires 0 <= j < |f.rows| => CalledRow("STAR" in f.columns, f.rows, f.rows[j]))))
  }

  /** Any result meeting compute_diplotype's contract is that value. */
  lemma DiplotypedUnique(f: Frame, r: Result<Frame>)
    requires var missing := MissingColumns(DiplotypeRequired, f.columns);
      (r.Err? <==> missing != []) && (r.Err? ==> r.message == MissingMessage(missing))
    requires r.Ok? ==> (r.value.columns == f.columns + {"Diplotype", "Diplotype_Note"}
      && |r.value.rows| == |f.rows|
      && forall j :: 0 <= j < |f.rows| ==> r.value.rows[j] == CalledRow("STAR" in f.columns, f.rows, f.rows[j]))
    ensures r == Diplotyped(f)
  {
    if r.Ok? {
      assert r.value.rows == Diplotyped(f).value.rows;
    }
  }

  /** compute_diplotype: a ValueError naming the missing required columns in sorted order,
      or a copy of the frame with Diplotype and Diplotype_Note added, every row of a
      pharmacogene carrying its gene's call and every other row NA in both. */
  method ComputeDiplotype(f: Frame) returns (r: Result<Frame>)
    ensures var missing := MissingColumns(DiplotypeRequired, f.columns);
      (r.Err? <==> missing != []) && (r.Err? ==> r.message == MissingMessage(missing))
    ensures r.Ok? ==> (r.value.columns == f.columns + {"Diplotype", "Diplotype_Note"}
      && |r.value.rows| == |f.rows|
      && forall j :: 0 <= j < |f.rows| ==> r.value.rows[j] == CalledRow("STAR" in f.columns, f.rows, f.rows[j]))
  {
    var missing := MissingColumns(DiplotypeRequired, f.columns);
    if missing != [] {
      return Err(MissingMessage(missing));
    }
    var hasStar := "STAR" in f.columns;
    var rows := seq(|f.rows|, j requires 0 <= j < |f.rows| => WithDiplotype(f.rows[j], None, None));
    var g := 0;
    while g < |PgxGeneOrder|
      invariant 0 <= g <= |PgxGeneOrder|
      invariant |rows| == |f.rows|
      invariant forall j :: 0 <= j < |f.rows| ==> rows[j] == PartlyCalled(hasStar, f.rows, g, f.rows[j])
    {
      var gene := PgxGeneOrder[g];
      var call := ResolveGene(gene, hasStar, f.rows);
      ghost var prev := rows;
      rows := seq(|rows|, j requires 0 <= j < |rows| =>
        if f.rows[j].gene == gene then WithDiplotype(f.rows[j], Some(call.diplotype), call.note) else rows[j]);
      forall j | 0 <= j < |f.rows|
        ensures rows[j] == PartlyCalled(hasStar, f.rows, g + 1, f.rows[j])
      {
        PartlyCalledStep(hasStar, f.rows, g, f.rows[j]);
      }
      g := g + 1;
    }
    forall j | 0 <= j < |f.rows|
      ensures rows[j] == CalledRow(hasStar, f.rows, f.rows[j])
    {
      AllCalled(hasStar, f.rows, f.rows[j]);
    }
    r := Ok(Frame(f.columns + {"Diplotype", "Diplotype_Note"}, rows));
  }

  /** A row once the first g genes of the call order have been resolved. */
  function PartlyCalled(hasStar: bool, rows: seq<Row>, g: nat, row: Row): Row
    requires g <= |PgxGeneOrder|
  {
    if row.gene in PgxGeneOrder[..g] then CalledRow(hasStar, rows, row) else WithDiplotype(row, None, None)
  }

  lemma PartlyCalledStep(hasStar: bool, rows: seq<Row>, g: nat, row: Row)
    requires g < |PgxGeneOrder|
    ensures PartlyCalled(hasStar, rows, g + 1, row) ==
      if row.gene == PgxGeneOrder[g] then
        (var c := CallGene(row.gene, hasStar, rows); WithDiplotype(row, Some(c.diplotype), c.note))
      else PartlyCalled(hasStar, rows, g, row)
  {
    assert PgxGeneOrder[..g + 1] == PgxGeneOrder[..g] + [PgxGeneOrder[g]];
    assert PgxGeneOrder[g] in PgxGenes;
  }

  lemma AllCalled(hasStar: bool, rows: seq<Row>, row: Row)
    ensures PartlyCalled(hasStar, rows, |PgxGeneOrder|, row) == CalledRow(hasStar, rows, row)
  {
    assert PgxGeneOrder[..|PgxGeneOrder|] == PgxGeneOrder;
    assert forall x :: x in PgxGeneOrder <==> x in PgxGenes;
  }

  /** All rows of one pharmacogene share the same Diplotype and note. */
  lemma OneCallPerGene(hasStar: bool, rows: seq<Row>, i: nat, j: nat)
    requires i < |rows| && j < |rows| && rows[i].gene == rows[j].gene
    ensures CalledRow(hasStar, rows, rows[i]).diplotype == CalledRow(hasStar, rows, rows[j]).diplotype
    ensures CalledRow(hasStar, rows, rows[i]).note == CalledRow(hasStar, rows, rows[j]).note
    ensures rows[i].gene in PgxGenes <==> CalledRow(hasStar, rows, rows[i]).diplotype.Some?
  {
  }

  // ---------------------------------------------------------------------------
  // annotate_diplotype_phenotype
  // ---------------------------------------------------------------------------

  const NaTruthError: string := "TypeError: boolean value of NA is ambiguous"

  /** annotate_diplotype_phenotype: without a Diplotype column every row's Phenotype is
      "Unknown"; otherwise each row gets compute_phenotype of its Gene and Diplotype, and
      an NA Diplotype cell raises TypeError (its truth value is taken). */
  function AnnotatePhenotype(f: Frame): (r: Result<Frame>)
    ensures "Diplotype" !in f.columns ==> r.Ok?
    ensures r.Ok? ==> r.value.columns == f.columns + {"Phenotype"} && |r.value.rows| == |f.rows|
    ensures r.Ok? ==> forall j :: 0 <= j < |f.rows| ==>
      (r.value.rows[j] == f.rows[j].(phenotype := r.value.rows[j].phenotype)
      && r.value.rows[j].phenotype.Some? && r.value.rows[j].phenotype.value in Phenotypes)
    ensures "Diplotype" !in f.columns ==> (forall j :: 0 <= j < |f.rows| ==> r.value.rows[j].phenotype == Some("Unknown"))
    ensures "Diplotype" in f.columns ==> (r.Err? <==> exists j :: 0 <= j < |f.rows| && f.rows[j].diplotype.None?)
  {
    if "Diplotype" !in f.columns then
      Ok(Frame(f.columns + {"Phenotype"}, seq(|f.rows|, j requires 0 <= j < |f.rows| => f.rows[j].(phenotype := Some("Unknown")))))
    else if exists j :: 0 <= j < |f.rows| && f.rows[j].diplotype.None? then Err(NaTruthError)
    else
      Ok(Frame(f.columns + {"Phenotype"}, seq(|f.rows|, j requires 0 <= j < |f.rows| =>
        f.rows[j].(phenotype := Some(ComputePhenotype(f.rows[j].gene, f.rows[j].diplotype.value))))))
  }
}
