/** Python string behaviour the pipeline relies on: str.strip, str.upper/lower,
    str.split, substring tests, int() and str() on integers. Strings are
    sequences of characters; whitespace and case mapping cover ASCII. */
module Text {

  datatype Option<+T> = None | Some(value: T) {
    function GetOr(default: T): T {
      match this
      case Some(v) => v
      case None => default
    }
  }

  /** A value, or the message of the exception the source raises instead. */
  datatype Result<+T> = Ok(value: T) | Err(message: string)

  // ---------------------------------------------------------------------------
  // Whitespace and strip
  // ---------------------------------------------------------------------------

  /** The ASCII characters that Python's str.strip() and str.split() treat as whitespace. */
  predicate IsSpace(c: char) {
    c == ' ' || ('\t' <= c <= '\r') || ('\U{1C}' <= c <= '\U{1F}')
  }

  predicate AllSpace(s: string) {
    forall i :: 0 <= i < |s| ==> IsSpace(s[i])
  }

  predicate NoSpace(s: string) {
    forall i :: 0 <= i < |s| ==> !IsSpace(s[i])
  }

  /** Removes leading whitespace: the result is the suffix left after a run of spaces. */
  function TrimLeft(s: string): (r: string)
    ensures |r| <= |s| && r == s[|s| - |r|..]
    ensures AllSpace(s[..|s| - |r|])
    ensures r == [] || !IsSpace(r[0])
  {
    if |s| > 0 && IsSpace(s[0]) then
      var r := TrimLeft(s[1..]);
      assert s[..|s| - |r|] == [s[0]] + s[1..][..|s| - 1 - |r|];
      r
    else s
  }

  /** Removes trailing whitespace: the result is the prefix before a run of spaces. */
  function TrimRight(s: string): (r: string)
    ensures |r| <= |s| && r == s[..|r|]
    ensures AllSpace(s[|r|..])
    ensures r == [] || !IsSpace(r[|r| - 1])
  {
    if |s| > 0 && IsSpace(s[|s| - 1]) then
      var r := TrimRight(s[..|s| - 1]);
      assert s[|r|..] == s[..|s| - 1][|r|..] + [s[|s| - 1]];
      r
    else s
  }

  /** Python's str.strip() with no argument. */
  function Strip(s: string): (r: string)
    ensures |r| <= |s|
    ensures r == [] || (!IsSpace(r[0]) && !IsSpace(r[|r| - 1]))
  {
    TrimRight(TrimLeft(s))
  }

  lemma {:induction false} TrimLeftOfSpaces(p: string, t: string)
    requires AllSpace(p)
    requires t == [] || !IsSpace(t[0])
    ensures TrimLeft(p + t) == t
  {
    if p != [] {
      assert (p + t)[1..] == p[1..] + t;
      TrimLeftOfSpaces(p[1..], t);
    } else {
      assert p + t == t;
    }
  }

  lemma {:induction false} TrimRightOfSpaces(t: string, q: string)
    requires AllSpace(q)
    requires t == [] || !IsSpace(t[|t| - 1])
    ensures TrimRight(t + q) == t
  {
    if q != [] {
      assert (t + q)[..|t + q| - 1] == t + q[..|q| - 1];
      TrimRightOfSpaces(t, q[..|q| - 1]);
    } else {
      assert t + q == t;
    }
  }

  /** Strip returns exactly the part between a leading and a trailing run of spaces. */
  lemma StripOf(p: string, m: string, q: string)
    requires AllSpace(p) && AllSpace(q)
    requires m == [] || (!IsSpace(m[0]) && !IsSpace(m[|m| - 1]))
    ensures Strip(p + m + q) == m
  {
    if m == [] {
      assert p + m + q == (p + q) + [];
      TrimLeftOfSpaces(p + q, []);
    } else {
      assert p + m + q == p + (m + q);
      TrimLeftOfSpaces(p, m + q);
      TrimRightOfSpaces(m, q);
    }
  }

  /** Every string is its stripped form surrounded by two runs of spaces. */
  lemma StripParts(s: string) returns (p: string, q: string)
    ensures AllSpace(p) && AllSpace(q)
    ensures s == p + Strip(s) + q
  {
    var t := TrimLeft(s);
    var m := TrimRight(t);
    p := s[..|s| - |t|];
    q := t[|m|..];
    Cut(s, |s| - |t|);
    Cut(t, |m|);
    assert s == p + (m + q);
    Assoc(p, m, q);
  }

  lemma Assoc(a: string, b: string, c: string)
    ensures a + (b + c) == a + b + c
  {
  }

  lemma Cut(s: string, k: nat)
    requires k <= |s|
    ensures s == s[..k] + s[k..]
  {
  }

  lemma StripIdempotent(s: string)
    ensures Strip(Strip(s)) == Strip(s)
  {
    StripOf([], Strip(s), []);
    assert [] + Strip(s) + [] == Strip(s);
  }

  /** A non-empty text that neither starts nor ends with a space. */
  predicate Unpadded(s: string) {
    s != [] && !IsSpace(s[0]) && !IsSpace(s[|s| - 1])
  }

  /** A text that neither starts nor ends with a space is its own stripped form. */
  lemma StripKeeps(s: string)
    requires s != [] && !IsSpace(s[0]) && !IsSpace(s[|s| - 1])
    ensures Strip(s) == s
  {
    StripOf([], s, []);
    assert [] + s + [] == s;
  }

  /** Stripping a string around a non-space character trims only the outer ends. */
  lemma StripAround(x: string, c: char, y: string)
    requires !IsSpace(c)
    ensures Strip(x + [c] + y) == TrimLeft(x) + [c] + TrimRight(y)
  {
    var x' := TrimLeft(x);
    var y' := TrimRight(y);
    var p := x[..|x| - |x'|];
    var q := y[|y'|..];
    Cut(x, |x| - |x'|);
    Cut(y, |y'|);
    Regroup(p, x', [c], y', q);
    MiddleEnds(x', c, y');
    StripOf(p, x' + [c] + y', q);
  }

  lemma Regroup(p: string, a: string, b: string, c: string, q: string)
    ensures (p + a) + b + (c + q) == p + (a + b + c) + q
  {
  }

  lemma MiddleEnds(x: string, c: char, y: string)
    requires !IsSpace(c)
    requires x == [] || !IsSpace(x[0])
    requires y == [] || !IsSpace(y[|y| - 1])
    ensures var m := x + [c] + y; !IsSpace(m[0]) && !IsSpace(m[|m| - 1])
  {
    var m := x + [c] + y;
    if x == [] { assert m[0] == c; } else { assert m[0] == x[0]; }
    if y == [] { assert m[|m| - 1] == c; } else { assert m[|m| - 1] == y[|y| - 1]; }
  }

  lemma {:induction false} TrimLeftSpacesPrefix(p: string, x: string)
    requires AllSpace(p)
    ensures TrimLeft(p + x) == TrimLeft(x)
  {
    if p != [] {
      assert (p + x)[0] == p[0];
      assert (p + x)[1..] == p[1..] + x;
      TrimLeftSpacesPrefix(p[1..], x);
    } else {
      assert p + x == x;
    }
  }

  lemma {:induction false} TrimRightSpacesSuffix(x: string, q: string)
    requires AllSpace(q)
    ensures TrimRight(x + q) == TrimRight(x)
  {
    if q != [] {
      var q' := q[..|q| - 1];
      assert (x + q)[|x + q| - 1] == q[|q| - 1];
      assert (x + q)[..|x + q| - 1] == x + q';
      TrimRightSpacesSuffix(x, q');
    } else {
      assert x + q == x;
    }
  }

  lemma {:induction false} TrimLeftAppend(x: string, q: string)
    ensures TrimLeft(x + q) == if TrimLeft(x) == [] then TrimLeft(q) else TrimLeft(x) + q
  {
    if x == [] {
      assert x + q == q;
    } else if IsSpace(x[0]) {
      assert (x + q)[0] == x[0];
      assert (x + q)[1..] == x[1..] + q;
      TrimLeftAppend(x[1..], q);
    } else {
      assert (x + q)[0] == x[0];
    }
  }

  /** Leading spaces do not change the stripped text. */
  lemma StripSpacesPrefix(p: string, x: string)
    requires AllSpace(p)
    ensures Strip(p + x) == Strip(x)
  {
    TrimLeftSpacesPrefix(p, x);
  }

  /** Trailing spaces do not change the stripped text. */
  lemma StripSpacesSuffix(x: string, q: string)
    requires AllSpace(q)
    ensures Strip(x + q) == Strip(x)
  {
    TrimLeftAppend(x, q);
    if TrimLeft(x) == [] {
      TrimLeftOfSpaces(q, []);
      assert q + [] == q;
    } else {
      TrimRightSpacesSuffix(TrimLeft(x), q);
    }
  }

  lemma StripOfTrimLeft(x: string)
    ensures Strip(TrimLeft(x)) == Strip(x)
  {
    var t := TrimLeft(x);
    var p := x[..|x| - |t|];
    assert AllSpace(p);
    assert p + t == x;
    StripSpacesPrefix(p, t);
  }

  lemma StripOfTrimRight(x: string)
    ensures Strip(TrimRight(x)) == Strip(x)
  {
    var t := TrimRight(x);
    assert x == t + x[|t|..];
    StripSpacesSuffix(t, x[|t|..]);
  }

  // ---------------------------------------------------------------------------
  // Stripping a given character (str.strip('"'))
  // ---------------------------------------------------------------------------

  /** Python's str.strip(ch) for a single character ch. */
  function StripChar(s: string, ch: char): (r: string)
    ensures |r| <= |s|
    ensures r == [] || (r[0] != ch && r[|r| - 1] != ch)
    decreases |s|
  {
    if |s| > 0 && s[0] == ch then StripChar(s[1..], ch)
    else if |s| > 0 && s[|s| - 1] == ch then StripChar(s[..|s| - 1], ch)
    else s
  }

  // ---------------------------------------------------------------------------
  // ASCII case mapping
  // ---------------------------------------------------------------------------

  function UpperChar(c: char): char {
    if 'a' <= c <= 'z' then (c as int - 32) as char else c
  }

  function LowerChar(c: char): char {
    if 'A' <= c <= 'Z' then (c as int + 32) as char else c
  }

  /** Python's str.upper() on ASCII letters. */
  function Upper(s: string): (r: string)
    ensures |r| == |s| && forall i :: 0 <= i < |s| ==> r[i] == UpperChar(s[i])
  {
    seq(|s|, i requires 0 <= i < |s| => UpperChar(s[i]))
  }

  /** Python's str.lower() on ASCII letters. */
  function Lower(s: string): (r: string)
    ensures |r| == |s| && forall i :: 0 <= i < |s| ==> r[i] == LowerChar(s[i])
  {
    seq(|s|, i requires 0 <= i < |s| => LowerChar(s[i]))
  }

  lemma UpperConcat(a: string, b: string)
    ensures Upper(a + b) == Upper(a) + Upper(b)
  {
    assert forall i :: 0 <= i < |a + b| ==> Upper(a + b)[i] == (Upper(a) + Upper(b))[i];
  }

  lemma LowerConcat(a: string, b: string)
    ensures Lower(a + b) == Lower(a) + Lower(b)
  {
    assert forall i :: 0 <= i < |a + b| ==> Lower(a + b)[i] == (Lower(a) + Lower(b))[i];
  }

  /** Case mapping never turns a space into a non-space or back. */
  lemma CaseKeepsSpace(c: char)
    ensures IsSpace(UpperChar(c)) == IsSpace(c) && IsSpace(LowerChar(c)) == IsSpace(c)
  {
  }

  /** Case mapping commutes with strip, since it keeps spaces and non-spaces apart. */
  lemma StripUpper(s: string)
    ensures Strip(Upper(s)) == Upper(Strip(s))
  {
    var p, q := StripParts(s);
    var m := Strip(s);
    UpperConcat(p + m, q);
    UpperConcat(p, m);
    UpperKeepsSpaces(p);
    UpperKeepsSpaces(q);
    UpperKeepsEnds(m);
    StripOf(Upper(p), Upper(m), Upper(q));
  }

  lemma UpperKeepsSpaces(p: string)
    requires AllSpace(p)
    ensures AllSpace(Upper(p))
  {
    forall i | 0 <= i < |p| ensures IsSpace(Upper(p)[i]) { CaseKeepsSpace(p[i]); }
  }

  lemma UpperKeepsEnds(m: string)
    requires m == [] || (!IsSpace(m[0]) && !IsSpace(m[|m| - 1]))
    ensures var u := Upper(m); u == [] || (!IsSpace(u[0]) && !IsSpace(u[|u| - 1]))
  {
    if m != [] {
      CaseKeepsSpace(m[0]);
      CaseKeepsSpace(m[|m| - 1]);
    }
  }

  lemma StripLower(s: string)
    ensures Strip(Lower(s)) == Lower(Strip(s))
  {
    var p, q := StripParts(s);
    var m := Strip(s);
    LowerConcat(p + m, q);
    LowerConcat(p, m);
    LowerKeepsSpaces(p);
    LowerKeepsSpaces(q);
    LowerKeepsEnds(m);
    StripOf(Lower(p), Lower(m), Lower(q));
  }

  lemma LowerKeepsSpaces(p: string)
    requires AllSpace(p)
    ensures AllSpace(Lower(p))
  {
    forall i | 0 <= i < |p| ensures IsSpace(Lower(p)[i]) { CaseKeepsSpace(p[i]); }
  }

  lemma LowerKeepsEnds(m: string)
    requires m == [] || (!IsSpace(m[0]) && !IsSpace(m[|m| - 1]))
    ensures var u := Lower(m); u == [] || (!IsSpace(u[0]) && !IsSpace(u[|u| - 1]))
  {
    if m != [] {
      CaseKeepsSpace(m[0]);
      CaseKeepsSpace(m[|m| - 1]);
    }
  }

  /** A text with no capital letter is its own lower-case form. */
  lemma LowerKeeps(s: string)
    requires forall i :: 0 <= i < |s| ==> !('A' <= s[i] <= 'Z')
    ensures Lower(s) == s
  {
  }

  /** A text with no small letter is its own upper-case form. */
  lemma UpperKeeps(s: string)
    requires forall i :: 0 <= i < |s| ==> !('a' <= s[i] <= 'z')
    ensures Upper(s) == s
  {
  }

  lemma UpperOfLower(s: string)
    ensures Upper(Lower(s)) == Upper(s)
  {
  }

  lemma UpperIdempotent(s: string)
    ensures Upper(Upper(s)) == Upper(s)
  {
  }

  // ---------------------------------------------------------------------------
  // Searching
  // ---------------------------------------------------------------------------

  predicate StartsWith(s: string, prefix: string) {
    prefix <= s
  }

  /** Python's `sub in s`. */
  predicate Contains(s: string, sub: string)
    decreases |s|
  {
    sub <= s || (|s| > 0 && Contains(s[1..], sub))
  }

  /** True exactly when sub occurs at offset k of s. */
  predicate OccursAt(s: string, sub: string, k: int) {
    0 <= k && k + |sub| <= |s| && s[k..k + |sub|] == sub
  }

  /** Python's str.find: the first offset at which sub occurs. */
  function Find(s: string, sub: string): (r: Option<nat>)
    ensures r.Some? ==> OccursAt(s, sub, r.value)
    ensures r.Some? ==> forall k :: 0 <= k < r.value ==> !OccursAt(s, sub, k)
    ensures r.None? ==> forall k :: !OccursAt(s, sub, k)
    ensures r.Some? <==> Contains(s, sub)
    decreases |s|
  {
    if sub <= s then Some(0)
    else if |s| == 0 then None
    else
      match Find(s[1..], sub)
      case Some(k) =>
        NotBefore(s, sub, k);
        Some(k + 1)
      case None =>
        NotAnywhere(s, sub);
        None
  }

  /** sub occurs at j + 1 in s exactly when it occurs at j in s[1..]. */
  lemma OccursShift(s: string, sub: string, j: nat)
    requires |s| > 0
    ensures OccursAt(s, sub, j + 1) <==> OccursAt(s[1..], sub, j)
  {
    if j + 1 + |sub| <= |s| {
      assert s[j + 1..j + 1 + |sub|] == s[1..][j..j + |sub|];
    }
  }

  lemma NotBefore(s: string, sub: string, k: nat)
    requires |s| > 0 && !(sub <= s)
    requires forall j :: 0 <= j < k ==> !OccursAt(s[1..], sub, j)
    ensures forall j :: 0 <= j < k + 1 ==> !OccursAt(s, sub, j)
  {
    forall j | 0 <= j < k + 1 ensures !OccursAt(s, sub, j) {
      if j > 0 { OccursShift(s, sub, j - 1); }
    }
  }

  lemma NotAnywhere(s: string, sub: string)
    requires |s| > 0 && !(sub <= s)
    requires forall j :: !OccursAt(s[1..], sub, j)
    ensures forall j :: !OccursAt(s, sub, j)
  {
    forall j | true ensures !OccursAt(s, sub, j) {
      if j > 0 { OccursShift(s, sub, j - 1); }
    }
  }

  /** The first position of character c in s. */
  function FindChar(s: string, c: char): (r: Option<nat>)
    ensures r.Some? ==> r.value < |s| && s[r.value] == c && c !in s[..r.value]
    ensures r.None? <==> c !in s
  {
    if |s| == 0 then None
    else if s[0] == c then Some(0)
    else
      match FindChar(s[1..], c)
      case Some(k) => assert s[..k + 1] == [s[0]] + s[1..][..k]; Some(k + 1)
      case None => None
  }

  // ---------------------------------------------------------------------------
  // Splitting and joining
  // ---------------------------------------------------------------------------

  /** Python's str.split(c) for a one-character separator: never empty, pieces free of c. */
  function Split(s: string, c: char): (r: seq<string>)
    ensures |r| >= 1
    ensures forall i :: 0 <= i < |r| ==> c !in r[i]
    ensures c !in s ==> r == [s]
    ensures c in s ==> |r| >= 2
    decreases |s|
  {
    match FindChar(s, c)
    case None => [s]
    case Some(i) => [s[..i]] + Split(s[i + 1..], c)
  }

  /** Python's "sep".join(parts). */
  function Join(parts: seq<string>, sep: string): string {
    if |parts| == 0 then ""
    else if |parts| == 1 then parts[0]
    else parts[0] + sep + Join(parts[1..], sep)
  }

  /** Splitting a string and joining the pieces back gives the string. */
  lemma {:induction false} JoinSplit(s: string, c: char)
    ensures Join(Split(s, c), [c]) == s
    decreases |s|
  {
    match FindChar(s, c)
    case None =>
    case Some(i) =>
      var rest := s[i + 1..];
      var tail := Split(rest, c);
      JoinSplit(rest, c);
      JoinCons(s[..i], tail, [c]);
      calc {
        Join(Split(s, c), [c]);
        Join([s[..i]] + tail, [c]);
        s[..i] + [c] + Join(tail, [c]);
        s[..i] + [c] + rest;
        { CutAt(s, i, c); }
        s;
      }
  }

  /** Joining pieces free of c with c and splitting the result at c gives the pieces. */
  lemma {:induction false} SplitOfJoin(parts: seq<string>, c: char)
    requires |parts| >= 1 && forall i :: 0 <= i < |parts| ==> c !in parts[i]
    ensures Split(Join(parts, [c]), c) == parts
  {
    if |parts| > 1 {
      var x := parts[0];
      var y := Join(parts[1..], [c]);
      assert Join(parts, [c]) == x + [c] + y;
      assert c !in x;
      SplitAfterFirst(x, c, y);
      SplitOfJoin(parts[1..], c);
      assert parts == [x] + parts[1..];
    }
  }

  /** A string is its prefix before position i, the character at i and the rest. */
  lemma CutAt(s: string, i: nat, c: char)
    requires i < |s| && s[i] == c
    ensures s == s[..i] + [c] + s[i + 1..]
  {
  }

  lemma JoinCons(head: string, tail: seq<string>, sep: string)
    requires |tail| >= 1
    ensures Join([head] + tail, sep) == head + sep + Join(tail, sep)
  {
    assert ([head] + tail)[1..] == tail;
  }

  /** Splitting x + c + y at c, with c in neither part, gives the two parts. */
  lemma SplitTwo(x: string, c: char, y: string)
    requires c !in x && c !in y
    ensures Split(x + [c] + y, c) == [x, y]
  {
    var s := x + [c] + y;
    assert s[|x|] == c;
    assert s[..|x|] == x;
    assert FindChar(s, c) == Some(|x|);
    assert s[|x| + 1..] == y;
  }

  /** Splitting at c peels off the part before the first c. */
  lemma SplitAfterFirst(x: string, c: char, y: string)
    requires c !in x
    ensures Split(x + [c] + y, c) == [x] + Split(y, c)
  {
    var s := x + [c] + y;
    assert s[|x|] == c;
    assert s[..|x|] == x;
    assert FindChar(s, c) == Some(|x|);
    assert s[|x| + 1..] == y;
  }

  /** Trimming trailing whitespace keeps every non-space character. */
  lemma TrimRightKeeps(s: string, c: char)
    requires c in s && !IsSpace(c)
    ensures c in TrimRight(s)
  {
    var t := TrimRight(s);
    var i :| 0 <= i < |s| && s[i] == c;
    assert i < |t|;
    assert t[i] == c;
  }

  /** Python's text.split(c, 1) when c occurs: the parts before and after the first c. */
  function SplitFirst(s: string, c: char): (r: Option<(string, string)>)
    ensures r.None? <==> c !in s
    ensures r.Some? ==> s == r.value.0 + [c] + r.value.1 && c !in r.value.0
  {
    match FindChar(s, c)
    case None => None
    case Some(i) => assert s == s[..i] + [c] + s[i + 1..]; Some((s[..i], s[i + 1..]))
  }

  /** Splitting at the first c of x + c + y, where x holds no c, gives x and y. */
  lemma SplitFirstOf(x: string, c: char, y: string)
    requires c !in x
    ensures SplitFirst(x + [c] + y, c) == Some((x, y))
  {
    var s := x + [c] + y;
    assert s[|x|] == c;
    assert s[..|x|] == x && s[|x| + 1..] == y;
  }

  /** Stripping only removes characters. */
  lemma StripIn(s: string, c: char)
    requires c in Strip(s)
    ensures c in s
  {
    var t := TrimLeft(s);
    InPrefix(t, TrimRight(t), c);
    InSuffix(s, t, c);
  }

  lemma InPrefix(s: string, r: string, c: char)
    requires |r| <= |s| && r == s[..|r|] && c in r
    ensures c in s
  {
    var i :| 0 <= i < |r| && r[i] == c;
    assert s[i] == c;
  }

  lemma InSuffix(s: string, r: string, c: char)
    requires |r| <= |s| && r == s[|s| - |r|..] && c in r
    ensures c in s
  {
    var i :| 0 <= i < |r| && r[i] == c;
    assert s[|s| - |r| + i] == c;
  }

  /** The position of the first space in s, or |s| when there is none. */
  function FirstSpace(s: string): (k: nat)
    ensures k <= |s| && NoSpace(s[..k]) && (k < |s| ==> IsSpace(s[k]))
  {
    if |s| == 0 || IsSpace(s[0]) then 0
    else
      var k := FirstSpace(s[1..]);
      assert s[..k + 1] == [s[0]] + s[1..][..k];
      k + 1
  }

  /** Python's str.split() with no argument: the maximal runs of non-space characters. */
  function SplitWhitespace(s: string): (r: seq<string>)
    ensures forall i :: 0 <= i < |r| ==> r[i] != [] && NoSpace(r[i])
    decreases |s|
  {
    var t := TrimLeft(s);
    if t == [] then []
    else
      var k := FirstSpace(t);
      assert k > 0 by { assert !IsSpace(t[0]); }
      var head := t[..k];
      var rest := SplitWhitespace(t[k..]);
      Tokens(head, rest);
      [head] + rest
  }

  lemma Tokens(head: string, rest: seq<string>)
    requires head != [] && NoSpace(head)
    requires forall i :: 0 <= i < |rest| ==> rest[i] != [] && NoSpace(rest[i])
    ensures var r := [head] + rest; forall i :: 0 <= i < |r| ==> r[i] != [] && NoSpace(r[i])
  {
    var r := [head] + rest;
    forall i | 0 <= i < |r|
      ensures r[i] != [] && NoSpace(r[i])
    {
      if i > 0 {
        assert r[i] == rest[i - 1];
      }
    }
  }

  /** P holds of every character of s. */
  predicate AllChars(s: string, P: char -> bool) {
    forall j :: 0 <= j < |s| ==> P(s[j])
  }

  /** P holds of every character of every string in r. */
  predicate EveryChar(r: seq<string>, P: char -> bool) {
    forall i :: 0 <= i < |r| ==> AllChars(r[i], P)
  }

  lemma EveryCharCons(head: string, rest: seq<string>, P: char -> bool)
    requires AllChars(head, P) && EveryChar(rest, P)
    ensures EveryChar([head] + rest, P)
  {
    var r := [head] + rest;
    forall i | 0 <= i < |r| ensures AllChars(r[i], P) {
      if i > 0 { assert r[i] == rest[i - 1]; }
    }
  }

  /** A property of every character of the input holds of every character of every token. */
  lemma {:induction false} SplitWhitespaceKeeps(s: string, P: char -> bool)
    requires AllChars(s, P)
    ensures EveryChar(SplitWhitespace(s), P)
    decreases |s|
  {
    if TrimLeft(s) != [] {
      var head, tail := SplitWhitespaceStep(s, P);
      SplitWhitespaceKeeps(tail, P);
      EveryCharCons(head, SplitWhitespace(tail), P);
    }
  }

  /** One step of SplitWhitespace: the first token and the text after it, both keeping P. */
  lemma SplitWhitespaceStep(s: string, P: char -> bool) returns (head: string, tail: string)
    requires TrimLeft(s) != [] && AllChars(s, P)
    ensures |tail| < |s| && SplitWhitespace(s) == [head] + SplitWhitespace(tail)
    ensures AllChars(head, P) && AllChars(tail, P)
  {
    var t := TrimLeft(s);
    var k := FirstSpace(t);
    assert k > 0 by { assert !IsSpace(t[0]); }
    head, tail := t[..k], t[k..];
    SplitWhitespaceUnfold(s);
    SuffixKeeps(s, t, P);
    PrefixKeeps(t, head, P);
    SuffixKeeps(t, tail, P);
  }

  lemma SplitWhitespaceUnfold(s: string)
    requires TrimLeft(s) != []
    ensures var t := TrimLeft(s); var k := FirstSpace(t);
      SplitWhitespace(s) == [t[..k]] + SplitWhitespace(t[k..])
  {
  }

  lemma PrefixKeeps(s: string, r: string, P: char -> bool)
    requires |r| <= |s| && r == s[..|r|] && AllChars(s, P)
    ensures AllChars(r, P)
  {
    forall j | 0 <= j < |r| ensures P(r[j]) { assert r[j] == s[j]; }
  }

  lemma SuffixKeeps(s: string, r: string, P: char -> bool)
    requires |r| <= |s| && r == s[|s| - |r|..] && AllChars(s, P)
    ensures AllChars(r, P)
  {
    forall j | 0 <= j < |r| ensures P(r[j]) { assert r[j] == s[|s| - |r| + j]; }
  }

  /** Replaces every occurrence of character a by b (str.replace on one character). */
  function ReplaceChar(s: string, a: char, b: char): (r: string)
    ensures |r| == |s|
    ensures forall i :: 0 <= i < |s| ==> r[i] == (if s[i] == a then b else s[i])
  {
    seq(|s|, i requires 0 <= i < |s| => if s[i] == a then b else s[i])
  }

  /** Python's str.splitlines(): breaks at \n, \r, \r\n and the other line-boundary characters. */
  predicate IsLineBreak(c: char) {
    c == '\n' || c == '\r' || c == '\U{0B}' || c == '\U{0C}' || ('\U{1C}' <= c <= '\U{1E}')
    || c == '\U{85}' || c == '\U{2028}' || c == '\U{2029}'
  }

  function FirstLineBreak(s: string): (k: nat)
    ensures k <= |s| && (k < |s| ==> IsLineBreak(s[k]))
    ensures forall i :: 0 <= i < k ==> !IsLineBreak(s[i])
  {
    if |s| == 0 || IsLineBreak(s[0]) then 0 else FirstLineBreak(s[1..]) + 1
  }

  function SplitLines(s: string): (r: seq<string>)
    ensures forall i, j :: 0 <= i < |r| && 0 <= j < |r[i]| ==> !IsLineBreak(r[i][j])
    decreases |s|
  {
    if s == [] then []
    else
      var k := FirstLineBreak(s);
      if k == |s| then [s]
      else if s[k] == '\r' && k + 1 < |s| && s[k + 1] == '\n' then [s[..k]] + SplitLines(s[k + 2..])
      else [s[..k]] + SplitLines(s[k + 1..])
  }

  // ---------------------------------------------------------------------------
  // Integers: int() and str()
  // ---------------------------------------------------------------------------

  predicate IsDigit(c: char) {
    '0' <= c <= '9'
  }

  /** A decimal literal as int() accepts it: digits, with single underscores between digits. */
  predicate DigitBody(s: string) {
    && |s| > 0 && IsDigit(s[0]) && IsDigit(s[|s| - 1])
    && (forall i :: 0 <= i < |s| ==> IsDigit(s[i]) || s[i] == '_')
    && (forall i :: 0 <= i < |s| - 1 ==> !(s[i] == '_' && s[i + 1] == '_'))
  }

  /** The value of a string of digits and underscores, underscores ignored. */
  function DigitsValue(s: string): nat
    requires forall i :: 0 <= i < |s| ==> IsDigit(s[i]) || s[i] == '_'
  {
    if |s| == 0 then 0
    else if s[|s| - 1] == '_' then DigitsValue(s[..|s| - 1])
    else
      assert IsDigit(s[|s| - 1]);
      DigitsValue(s[..|s| - 1]) * 10 + (s[|s| - 1] as int - '0' as int)
  }

  /** Python's int(text) on an already stripped text, base 10; None where int() raises. */
  function ParseInt(s: string): (r: Option<int>)
    ensures r.Some? ==> s != []
    ensures |s| > 0 && s[0] == '-' && r.Some? ==> r.value <= 0
  {
    if |s| > 0 && (s[0] == '+' || s[0] == '-') then
      if DigitBody(s[1..]) then
        var v: int := DigitsValue(s[1..]);
        Some(if s[0] == '-' then -v else v)
      else None
    else if DigitBody(s) then Some(DigitsValue(s))
    else None
  }

  function DigitChar(d: nat): char
    requires d < 10
  {
    ('0' as int + d) as char
  }

  /** Python's str(n) for a non-negative integer. */
  function NatToString(n: nat): (r: string)
    ensures |r| > 0 && forall i :: 0 <= i < |r| ==> IsDigit(r[i])
  {
    if n < 10 then [DigitChar(n)] else NatToString(n / 10) + [DigitChar(n % 10)]
  }

  /** int() reads back what str() wrote. */
  lemma {:induction false} ParseNatToString(n: nat)
    ensures DigitBody(NatToString(n)) && DigitsValue(NatToString(n)) == n
    ensures ParseInt(NatToString(n)) == Some(n)
  {
    var s := NatToString(n);
    if n >= 10 {
      ParseNatToString(n / 10);
      assert s[..|s| - 1] == NatToString(n / 10);
    }
  }
}
