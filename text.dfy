/** The .NET string operations the library relies on, written out over
  * `seq<char>`: whitespace tests, `Trim`, prefix tests, `IndexOf`, `Split`,
  * composite-format alignment and integer text.
  * Case-insensitive comparison folds ASCII letters only. */
module Text {
  import opened Wrappers

  /** The characters for which `char.IsWhiteSpace` holds: U+0009..U+000D,
    * U+0020, U+0085, U+00A0 and the Unicode space and separator characters. */
  const WhiteSpace: set<char> := {
    '\t', '\n', '\U{000B}', '\U{000C}', '\r', ' ', '\U{0085}', '\U{00A0}',
    '\U{1680}', '\U{2000}', '\U{2001}', '\U{2002}', '\U{2003}', '\U{2004}',
    '\U{2005}', '\U{2006}', '\U{2007}', '\U{2008}', '\U{2009}', '\U{200A}',
    '\U{2028}', '\U{2029}', '\U{202F}', '\U{205F}', '\U{3000}'
  }

  /** The white space that integer parsing skips before and after the digits. */
  const NumberWhiteSpace: set<char> := {'\t', '\n', '\U{000B}', '\U{000C}', '\r', ' '}

  predicate IsWhiteSpace(c: char)
  {
    c in WhiteSpace
  }

  /** `string.IsNullOrWhiteSpace` of a string that is not null. */
  predicate IsBlank(s: string)
  {
    forall i :: 0 <= i < |s| ==> IsWhiteSpace(s[i])
  }

  predicate IsNullOrWhiteSpace(s: Option<string>)
  {
    s.None? || IsBlank(s.value)
  }

  predicate IsNullOrEmpty(s: Option<string>)
  {
    s.None? || s.value == ""
  }

  // ---------------------------------------------------------------------
  // Trimming a set of characters (`Trim()`, `Trim(char)`)

  /** Number of leading characters of `s` that belong to `cs`. */
  function LeadingCount(s: string, cs: set<char>): (k: nat)
    ensures k <= |s|
    ensures forall j :: 0 <= j < k ==> s[j] in cs
    ensures k < |s| ==> s[k] !in cs
  {
    if |s| > 0 && s[0] in cs then 1 + LeadingCount(s[1..], cs) else 0
  }

  /** Number of trailing characters of `s` that belong to `cs`. */
  function TrailingCount(s: string, cs: set<char>): (k: nat)
    ensures k <= |s|
    ensures forall j :: |s| - k <= j < |s| ==> s[j] in cs
    ensures k < |s| ==> s[|s| - 1 - k] !in cs
  {
    if |s| > 0 && s[|s| - 1] in cs then 1 + TrailingCount(s[..|s| - 1], cs) else 0
  }

  function TrimStartChars(s: string, cs: set<char>): (r: string)
    ensures |r| <= |s| && r == s[|s| - |r|..]
    ensures forall j :: 0 <= j < |s| - |r| ==> s[j] in cs
    ensures |r| > 0 ==> r[0] !in cs
  {
    s[LeadingCount(s, cs)..]
  }

  function TrimEndChars(s: string, cs: set<char>): (r: string)
    ensures |r| <= |s| && r == s[..|r|]
    ensures forall j :: |r| <= j < |s| ==> s[j] in cs
    ensures |r| > 0 ==> r[|r| - 1] !in cs
  {
    s[..|s| - TrailingCount(s, cs)]
  }

  /** `r` is the piece of `s` left between a leading and a trailing run of
    * characters in `cs`. */
  ghost predicate IsTrimOf(r: string, s: string, cs: set<char>)
  {
    exists a :: TrimmedAt(r, s, cs, a)
  }

  /** `r` sits at position `a` of `s`, with only characters in `cs` around it. */
  predicate TrimmedAt(r: string, s: string, cs: set<char>, a: int)
  {
    && 0 <= a <= |s| - |r| && r == s[a..a + |r|]
    && (forall j :: 0 <= j < a ==> s[j] in cs)
    && (forall j :: a + |r| <= j < |s| ==> s[j] in cs)
  }

  /** Trimming the start, then the end, removes two runs of trimmed characters. */
  lemma StartThenEndIsTrim(s: string, cs: set<char>)
    ensures IsTrimOf(TrimEndChars(TrimStartChars(s, cs), cs), s, cs)
  {
    var t := TrimStartChars(s, cs);
    var r := TrimEndChars(t, cs);
    var a := |s| - |t|;
    assert t == s[a..];
    assert r == t[..|r|];
    assert r == s[a..a + |r|];
    forall j | a + |r| <= j < |s|
      ensures s[j] in cs
    {
      assert s[j] == t[j - a];
    }
    assert TrimmedAt(r, s, cs, a);
  }

  /** `s.Trim(chars)`: removes every leading and trailing character in `cs`,
    * and keeps the text between them. */
  function Trim(s: string, cs: set<char>): (r: string)
    ensures |r| <= |s|
    ensures |r| > 0 ==> r[0] !in cs && r[|r| - 1] !in cs
    ensures IsTrimOf(r, s, cs)
  {
    StartThenEndIsTrim(s, cs);
    TrimEndChars(TrimStartChars(s, cs), cs)
  }

  /** `s.Trim()`. */
  function TrimWhite(s: string): string
  {
    Trim(s, WhiteSpace)
  }

  /** `s.Trim(c)`. */
  function TrimChar(s: string, c: char): string
  {
    Trim(s, {c})
  }

  /** Trimming leaves a string alone whose ends are outside the trimmed set. */
  lemma TrimKeeps(s: string, cs: set<char>)
    requires |s| > 0 ==> s[0] !in cs && s[|s| - 1] !in cs
    ensures Trim(s, cs) == s
  {
    var t := TrimStartChars(s, cs);
    assert |s| > 0 ==> LeadingCount(s, cs) == 0;
    assert t == s;
    assert |s| > 0 ==> TrailingCount(t, cs) == 0;
  }

  /** Trimming empties a string exactly when all its characters are trimmed. */
  lemma TrimEmptyIff(s: string, cs: set<char>)
    ensures Trim(s, cs) == "" <==> forall i :: 0 <= i < |s| ==> s[i] in cs
  {
    var t := TrimStartChars(s, cs);
    if forall i :: 0 <= i < |s| ==> s[i] in cs {
      assert LeadingCount(s, cs) == |s|;
    } else {
      var i :| 0 <= i < |s| && s[i] !in cs;
      assert |s| - |t| <= i;
      assert t[0] !in cs;
      var r := TrimEndChars(t, cs);
      assert |r| > 0;
    }
  }

  /** `string.IsNullOrWhiteSpace(s)` holds exactly when `s.Trim()` is empty. */
  lemma BlankIffTrimmedEmpty(s: string)
    ensures IsBlank(s) <==> TrimWhite(s) == ""
  {
    TrimEmptyIff(s, WhiteSpace);
  }

  /** The result of `Trim()` is never blank unless it is empty. */
  lemma TrimmedBlankIsEmpty(s: string)
    ensures IsBlank(TrimWhite(s)) ==> TrimWhite(s) == ""
  {
    var r := TrimWhite(s);
    if |r| > 0 {
      assert !IsWhiteSpace(r[0]);
    }
  }

  // ---------------------------------------------------------------------
  // Case folding and prefix tests

  function LowerChar(c: char): char
  {
    if 'A' <= c <= 'Z' then (c as int + 32) as char else c
  }

  function UpperChar(c: char): char
  {
    if 'a' <= c <= 'z' then (c as int - 32) as char else c
  }

  function Lower(s: string): string
  {
    seq(|s|, i requires 0 <= i < |s| => LowerChar(s[i]))
  }

  /** `ToUpperInvariant` restricted to ASCII letters. */
  function Upper(s: string): string
  {
    seq(|s|, i requires 0 <= i < |s| => UpperChar(s[i]))
  }

  predicate EqualsIgnoreCase(a: string, b: string)
  {
    Lower(a) == Lower(b)
  }

  /** Ordinal or case-insensitive equality, as chosen by `ignoreCase`. */
  predicate SameText(a: string, b: string, ignoreCase: bool)
  {
    if ignoreCase then EqualsIgnoreCase(a, b) else a == b
  }

  predicate StartsWith(s: string, p: string, ignoreCase: bool)
  {
    |p| <= |s| && SameText(s[..|p|], p, ignoreCase)
  }

  /** Ordinal prefix test. */
  predicate HasPrefix(s: string, p: string)
  {
    |p| <= |s| && s[..|p|] == p
  }

  predicate EndsWith(s: string, p: string)
  {
    |p| <= |s| && s[|s| - |p|..] == p
  }

  /** `s.StartsWith(prefixes, comparison)`: true when any prefix matches. */
  predicate StartsWithAny(s: string, ps: seq<string>, ignoreCase: bool)
  {
    exists i :: 0 <= i < |ps| && StartsWith(s, ps[i], ignoreCase)
  }

  // ---------------------------------------------------------------------
  // Removing indicator strings from either end (`TrimStart(string[])`,
  // `TrimStart(string)`, `Trim(string[])`): repeatedly remove the first
  // listed non-empty string that the text starts (ends) with.

  function FirstPrefixFrom(s: string, ps: seq<string>, k: nat): (r: Option<nat>)
    requires k <= |ps|
    ensures r.Some? ==> k <= r.value < |ps| && ps[r.value] != "" && HasPrefix(s, ps[r.value])
    ensures r.Some? ==> forall j :: k <= j < r.value ==> ps[j] == "" || !HasPrefix(s, ps[j])
    ensures r.None? ==> forall j :: k <= j < |ps| ==> ps[j] == "" || !HasPrefix(s, ps[j])
    decreases |ps| - k
  {
    if k == |ps| then None
    else if ps[k] != "" && HasPrefix(s, ps[k]) then Some(k)
    else FirstPrefixFrom(s, ps, k + 1)
  }

  function FirstSuffixFrom(s: string, ps: seq<string>, k: nat): (r: Option<nat>)
    requires k <= |ps|
    ensures r.Some? ==> k <= r.value < |ps| && ps[r.value] != "" && EndsWith(s, ps[r.value])
    ensures r.None? ==> forall j :: k <= j < |ps| ==> ps[j] == "" || !EndsWith(s, ps[j])
    decreases |ps| - k
  {
    if k == |ps| then None
    else if ps[k] != "" && EndsWith(s, ps[k]) then Some(k)
    else FirstSuffixFrom(s, ps, k + 1)
  }

  /** `s` is made of non-empty strings of `ps` laid end to end. */
  ghost predicate IsRun(s: string, ps: seq<string>)
    decreases |s|, 1
  {
    s == [] || exists k :: PeelsOff(s, ps, k)
  }

  /** `s` starts with the `k`-th string, and a run follows it. */
  ghost predicate PeelsOff(s: string, ps: seq<string>, k: int)
    decreases |s|, 0
  {
    0 <= k < |ps| && ps[k] != "" && HasPrefix(s, ps[k]) && IsRun(s[|ps[k]|..], ps)
  }

  /** A run followed by one more of its strings is a run. */
  lemma {:induction false} RunSnoc(a: string, ps: seq<string>, i: nat)
    requires IsRun(a, ps) && i < |ps| && ps[i] != ""
    ensures IsRun(a + ps[i], ps)
    decreases |a|
  {
    if a == [] {
      assert a + ps[i] == ps[i];
      assert ps[i][|ps[i]|..] == [];
      assert PeelsOff(ps[i], ps, i);
    } else {
      var k :| PeelsOff(a, ps, k);
      RunSnoc(a[|ps[k]|..], ps, i);
      assert (a + ps[i])[..|ps[k]|] == a[..|ps[k]|];
      assert (a + ps[i])[|ps[k]|..] == a[|ps[k]|..] + ps[i];
      assert PeelsOff(a + ps[i], ps, k);
    }
  }

  /** One of the strings followed by a run is a run. */
  lemma RunCons(ps: seq<string>, k: nat, t: string)
    requires k < |ps| && ps[k] != "" && IsRun(t, ps)
    ensures IsRun(ps[k] + t, ps)
  {
    assert (ps[k] + t)[..|ps[k]|] == ps[k];
    assert (ps[k] + t)[|ps[k]|..] == t;
    assert PeelsOff(ps[k] + t, ps, k);
  }

  /** Cutting `n` characters off the end of a text that starts with `p`
    * cuts them off what follows `p`. */
  lemma PrefixThenCut(s: string, p: string, n: nat)
    requires HasPrefix(s, p) && n <= |s| - |p|
    ensures s[..|s| - n] == p + s[|p|..][..|s| - |p| - n]
  {
  }

  /** A text that starts with one of the strings, cut short by `n`, is a
    * run when what follows that string, cut short by `n`, is one. */
  lemma RunThroughPrefix(s: string, ps: seq<string>, k: nat, n: nat)
    requires k < |ps| && ps[k] != "" && HasPrefix(s, ps[k]) && n <= |s| - |ps[k]|
    requires IsRun(s[|ps[k]|..][..|s| - |ps[k]| - n], ps)
    ensures IsRun(s[..|s| - n], ps)
  {
    PrefixThenCut(s, ps[k], n);
    RunCons(ps, k, s[|ps[k]|..][..|s| - |ps[k]| - n]);
  }

  /** `TrimStart(string[])`: repeatedly removes the first listed non-empty
    * string the text starts with; what is left starts with none of them. */
  function TrimStartAny(s: string, ps: seq<string>): (r: string)
    ensures |r| <= |s| && r == s[|s| - |r|..]
    ensures forall j :: 0 <= j < |ps| && ps[j] != "" ==> !HasPrefix(r, ps[j])
    decreases |s|
  {
    var first := FirstPrefixFrom(s, ps, 0);
    if first.None? then s
    else
      var rest := s[|ps[first.value]|..];
      TrimStartAny(rest, ps)
  }

  /** The `k`-th string is the first listed one the text starts with. */
  lemma {:induction false} FirstPrefixIs(s: string, ps: seq<string>, m: nat, k: nat)
    requires m <= k < |ps| && ps[k] != "" && HasPrefix(s, ps[k])
    requires forall j :: m <= j < k ==> ps[j] == "" || !HasPrefix(s, ps[j])
    ensures FirstPrefixFrom(s, ps, m) == Some(k)
    decreases k - m
  {
    if m < k {
      FirstPrefixIs(s, ps, m + 1, k);
    }
  }

  /** One step of `TrimStartAny`: the first listed string the text starts
    * with goes. */
  lemma TrimStartAnyStep(s: string, ps: seq<string>, k: nat)
    requires FirstPrefixFrom(s, ps, 0) == Some(k)
    ensures TrimStartAny(s, ps) == TrimStartAny(s[|ps[k]|..], ps)
  {
  }

  lemma TrimEndAnyStep(s: string, ps: seq<string>, i: nat)
    requires FirstSuffixFrom(s, ps, 0) == Some(i)
    ensures TrimEndAny(s, ps) == TrimEndAny(s[..|s| - |ps[i]|], ps)
  {
  }

  /** What `TrimStartAny` removes is a run of the strings. */
  lemma {:induction false} TrimStartAnyRemovesRun(s: string, ps: seq<string>)
    ensures IsRun(s[..|s| - |TrimStartAny(s, ps)|], ps)
    decreases |s|
  {
    var first := FirstPrefixFrom(s, ps, 0);
    if first.None? {
      assert TrimStartAny(s, ps) == s;
      assert s[..|s| - |s|] == [];
    } else {
      var k := first.value;
      var rest := s[|ps[k]|..];
      TrimStartAnyStep(s, ps, k);
      var n := |TrimStartAny(rest, ps)|;
      TrimStartAnyRemovesRun(rest, ps);
      RunThroughPrefix(s, ps, k, n);
    }
  }

  /** The trailing half of `Trim(string[])`: repeatedly removes the first
    * listed non-empty string the text ends with; what is left ends with
    * none of them. */
  function TrimEndAny(s: string, ps: seq<string>): (r: string)
    ensures |r| <= |s| && r == s[..|r|]
    ensures forall j :: 0 <= j < |ps| && ps[j] != "" ==> !EndsWith(r, ps[j])
    decreases |s|
  {
    match FirstSuffixFrom(s, ps, 0)
    case None => s
    case Some(i) =>
      var rest := s[..|s| - |ps[i]|];
      var r := TrimEndAny(rest, ps);
      assert r == s[..|r|] by {
        assert r == rest[..|r|];
      }
      r
  }

  /** What `TrimEndAny` removes is a run of the strings. */
  lemma {:induction false} TrimEndAnyRemovesRun(s: string, ps: seq<string>)
    ensures IsRun(s[|TrimEndAny(s, ps)|..], ps)
    decreases |s|
  {
    match FirstSuffixFrom(s, ps, 0)
    case None =>
      assert TrimEndAny(s, ps) == s;
      assert s[|s|..] == [];
    case Some(i) =>
      var rest := s[..|s| - |ps[i]|];
      TrimEndAnyStep(s, ps, i);
      var r := TrimEndAny(rest, ps);
      TrimEndAnyRemovesRun(rest, ps);
      assert r == rest[..|r|];
      assert s[|r|..] == rest[|r|..] + ps[i];
      RunSnoc(rest[|r|..], ps, i);
  }

  function TrimAny(s: string, ps: seq<string>): string
  {
    TrimEndAny(TrimStartAny(s, ps), ps)
  }

  /** `r` is a piece of `s` with a run of the strings before it and a run
    * of them after it. */
  ghost predicate IsCore(r: string, s: string, ps: seq<string>)
  {
    exists i :: 0 <= i <= |s| - |r| && s[i..i + |r|] == r && IsRun(s[..i], ps) && IsRun(s[i + |r|..], ps)
  }

  /** Trimming both ends leaves a core of the text. */
  lemma TrimAnyLeavesCore(s: string, ps: seq<string>)
    ensures IsCore(TrimAny(s, ps), s, ps)
  {
    var t := TrimStartAny(s, ps);
    TrimStartAnyRemovesRun(s, ps);
    TrimEndAnyRemovesRun(t, ps);
    CoreOfEndStart(s, t, TrimEndAny(t, ps), ps);
  }

  /** The start `r` of the end `t` of `s` is a core of `s` when runs are cut
    * off before `t` and after `r`. */
  lemma CoreOfEndStart(s: string, t: string, r: string, ps: seq<string>)
    requires |t| <= |s| && t == s[|s| - |t|..] && IsRun(s[..|s| - |t|], ps)
    requires |r| <= |t| && r == t[..|r|] && IsRun(t[|r|..], ps)
    ensures IsCore(r, s, ps)
  {
    var i := |s| - |t|;
    assert s[i..i + |r|] == r;
    assert s[i + |r|..] == t[|r|..];
  }

  // ---------------------------------------------------------------------
  // `IndexOf(string, comparison)`

  predicate MatchAt(s: string, sub: string, j: nat, ignoreCase: bool)
  {
    j + |sub| <= |s| && SameText(s[j..j + |sub|], sub, ignoreCase)
  }

  function IndexOfFrom(s: string, sub: string, k: nat, ignoreCase: bool): (r: int)
    requires k <= |s|
    ensures r == -1 || k <= r <= |s|
    ensures r >= 0 ==> MatchAt(s, sub, r, ignoreCase)
    ensures r >= 0 ==> forall j :: k <= j < r ==> !MatchAt(s, sub, j, ignoreCase)
    ensures r == -1 ==> forall j :: k <= j <= |s| ==> !MatchAt(s, sub, j, ignoreCase)
    decreases |s| - k
  {
    if MatchAt(s, sub, k, ignoreCase) then k
    else if k == |s| then -1
    else IndexOfFrom(s, sub, k + 1, ignoreCase)
  }

  /** Index of the first occurrence of `sub` in `s`, or -1. */
  function IndexOf(s: string, sub: string, ignoreCase: bool): int
  {
    IndexOfFrom(s, sub, 0, ignoreCase)
  }

  // ---------------------------------------------------------------------
  // `Split(char)` and its inverse

  /** Position of the first `c` in `s`, or `|s|` when there is none. */
  function CharIndex(s: string, c: char): (k: nat)
    ensures k <= |s|
    ensures forall j :: 0 <= j < k ==> s[j] != c
    ensures k < |s| ==> s[k] == c
  {
    if |s| == 0 || s[0] == c then 0 else 1 + CharIndex(s[1..], c)
  }

  /** `string.Join(c, parts)`. */
  function Join(parts: seq<string>, c: char): string
    requires |parts| >= 1
  {
    if |parts| == 1 then parts[0] else parts[0] + [c] + Join(parts[1..], c)
  }

  /** `s.Split(c)`: the pieces between occurrences of `c`; joining them back
    * with `c` gives `s`. */
  function Split(s: string, c: char): (r: seq<string>)
    ensures |r| >= 1
    ensures forall i :: 0 <= i < |r| ==> c !in r[i]
    ensures Join(r, c) == s
    decreases |s|
  {
    var k := CharIndex(s, c);
    if k == |s| then
      assert c !in s;
      [s]
    else
      var tail := Split(s[k + 1..], c);
      var r := [s[..k]] + tail;
      assert r[1..] == tail;
      assert s == s[..k] + [c] + s[k + 1..];
      r
  }

  // ---------------------------------------------------------------------
  // Composite-format alignment (`{0,w}`)

  function Spaces(n: nat): (r: string)
    ensures |r| == n && forall i :: 0 <= i < n ==> r[i] == ' '
  {
    seq(n, _ => ' ')
  }

  /** Right-aligns `s` in a field of `w` characters. */
  function PadLeft(s: string, w: nat): (r: string)
    ensures |r| == if |s| >= w then |s| else w
    ensures forall i :: 0 <= i < |s| ==> r[|r| - |s| + i] == s[i]
    ensures forall i :: 0 <= i < |r| - |s| ==> r[i] == ' '
  {
    if |s| >= w then s else Spaces(w - |s|) + s
  }

  /** Left-aligns `s` in a field of `w` characters. */
  function PadRight(s: string, w: nat): (r: string)
    ensures |r| == if |s| >= w then |s| else w
    ensures r[..|s|] == s
    ensures forall i :: |s| <= i < |r| ==> r[i] == ' '
  {
    if |s| >= w then s else s + Spaces(w - |s|)
  }

  /** `string.Format("{0,w}", s)`: a positive width right-aligns, a negative
    * one left-aligns. */
  function Align(s: string, w: int): string
  {
    if w >= 0 then PadLeft(s, w) else PadRight(s, -w)
  }

  // ---------------------------------------------------------------------
  // Integer text

  predicate IsDigit(c: char)
  {
    '0' <= c <= '9'
  }

  predicate IsDigits(s: string)
  {
    forall i :: 0 <= i < |s| ==> IsDigit(s[i])
  }

  function DigitChar(d: nat): char
    requires d < 10
  {
    ('0' as int + d) as char
  }

  function DigitsValue(s: string): nat
    requires IsDigits(s)
  {
    if s == "" then 0 else 10 * DigitsValue(s[..|s| - 1]) + (s[|s| - 1] as int - '0' as int)
  }

  /** Decimal text of a natural number, as `{0}` in a format string prints it. */
  function NatToString(n: nat): (r: string)
    ensures |r| >= 1 && IsDigits(r)
    ensures DigitsValue(r) == n
  {
    if n < 10 then [DigitChar(n)]
    else
      var r := NatToString(n / 10) + [DigitChar(n % 10)];
      assert r[..|r| - 1] == NatToString(n / 10);
      r
  }

  /** Integer parsing with `NumberStyles.Integer`: optional surrounding white
    * space, an optional `+` or `-`, then at least one decimal digit. */
  function ParseInteger(s: string): Option<int>
  {
    var t := Trim(s, NumberWhiteSpace);
    if t == "" then None
    else
      var negative := t[0] == '-';
      var digits := if t[0] == '-' || t[0] == '+' then t[1..] else t;
      if digits != "" && IsDigits(digits) then
        var v: int := if negative then -(DigitsValue(digits) as int) else DigitsValue(digits);
        Some(v)
      else None
  }

  /** A run of digits parses to its value. */
  lemma ParseDigits(d: string)
    requires d != "" && IsDigits(d)
    ensures ParseInteger(d) == Some(DigitsValue(d) as int)
  {
    assert !IsDigit(' ') && !IsDigit('\t');
    assert IsDigit(d[0]) && IsDigit(d[|d| - 1]);
    TrimKeeps(d, NumberWhiteSpace);
  }

  /** A minus sign followed by a run of digits parses to the negated value. */
  lemma ParseNegatedDigits(d: string)
    requires d != "" && IsDigits(d)
    ensures ParseInteger("-" + d) == Some(-(DigitsValue(d) as int))
  {
    var s := "-" + d;
    assert !IsDigit(' ') && !IsDigit('\t');
    assert s[0] == '-' && s[|s| - 1] == d[|d| - 1] && IsDigit(d[|d| - 1]);
    TrimKeeps(s, NumberWhiteSpace);
    assert s[1..] == d;
  }

  /** The decimal text of `n`, optionally negated, parses back to its value. */
  lemma ParseIntegerOfText(n: nat, negative: bool)
    ensures ParseInteger(if negative then "-" + NatToString(n) else NatToString(n))
            == Some(if negative then -(n as int) else n as int)
  {
    if negative {
      ParseNegatedDigits(NatToString(n));
    } else {
      ParseDigits(NatToString(n));
    }
  }
}
