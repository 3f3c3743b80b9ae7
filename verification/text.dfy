/**
 * The string operations the dashboard relies on: `toLowerCase` + `includes` for search,
 * `trim` for required text fields, `Number.prototype.toString` for lookup Ids and
 * `parseInt` for sending them back.
 */
module Text {
  import opened Wrappers

  // ---- case-insensitive search ----

  /** `toLowerCase` on one character (ASCII letters only; see README). */
  function LowerChar(c: char): char {
    if 'A' <= c <= 'Z' then (c as int + 32) as char else c
  }

  function Lower(s: string): (r: string)
    ensures |r| == |s|
    ensures forall i :: 0 <= i < |s| ==> r[i] == LowerChar(s[i])
  {
    seq(|s|, i requires 0 <= i < |s| => LowerChar(s[i]))
  }

  predicate OccursAt(s: string, t: string, i: int) {
    0 <= i && i + |t| <= |s| && s[i..i + |t|] == t
  }

  /** `s.includes(t)`. */
  predicate Contains(s: string, t: string) {
    exists i | 0 <= i <= |s| :: OccursAt(s, t, i)
  }

  /** `s.toLowerCase().includes(term.toLowerCase())`. */
  predicate IncludesIgnoringCase(s: string, term: string) {
    Contains(Lower(s), Lower(term))
  }

  /** Every string includes the empty string, so an empty search term matches everything. */
  lemma EmptyTermMatches(s: string)
    ensures IncludesIgnoringCase(s, "")
  {
    assert OccursAt(Lower(s), Lower(""), 0);
  }

  /** Search ignores case: a string matches a term exactly when it matches the term lower-cased. */
  lemma {:induction false} SearchIgnoresCase(s: string, term: string)
    ensures IncludesIgnoringCase(s, term) <==> IncludesIgnoringCase(s, Lower(term))
  {
    LowerIdempotent(term);
  }

  /** Lower-casing twice is lower-casing once. */
  lemma LowerIdempotent(s: string)
    ensures Lower(Lower(s)) == Lower(s)
  {
    forall i | 0 <= i < |s| ensures Lower(Lower(s))[i] == Lower(s)[i] {
      var c := s[i];
      if 'A' <= c <= 'Z' {
        assert LowerChar(c) == (c as int + 32) as char;
      }
    }
  }

  // ---- whitespace and trim ----

  /** The characters `String.prototype.trim` removes: WhiteSpace and LineTerminator. */
  predicate IsSpace(c: char) {
    var k := c as int;
    k == 0x20 || 0x09 <= k <= 0x0D || k == 0xA0 || k == 0x1680 || 0x2000 <= k <= 0x200A
    || k == 0x2028 || k == 0x2029 || k == 0x202F || k == 0x205F || k == 0x3000 || k == 0xFEFF
  }

  /** Empty or only whitespace: the strings for which `!s.trim()` holds. */
  predicate Blank(s: string) {
    forall i :: 0 <= i < |s| ==> IsSpace(s[i])
  }

  function TrimStart(s: string): string
    decreases |s|
  {
    if s != [] && IsSpace(s[0]) then TrimStart(s[1..]) else s
  }

  function TrimEnd(s: string): string
    decreases |s|
  {
    if s != [] && IsSpace(s[|s| - 1]) then TrimEnd(s[..|s| - 1]) else s
  }

  /** `s.trim()`. */
  function Trim(s: string): string {
    TrimEnd(TrimStart(s))
  }

  lemma {:induction false} TrimStartShape(s: string)
    ensures var r := TrimStart(s);
      |r| <= |s| && r == s[|s| - |r|..] && Blank(s[..|s| - |r|]) && (r != [] ==> !IsSpace(r[0]))
    decreases |s|
  {
    if s != [] && IsSpace(s[0]) {
      TrimStartShape(s[1..]);
      var r := TrimStart(s[1..]);
      assert s[1..][..|s| - 1 - |r|] == s[1..|s| - |r|];
    }
  }

  lemma {:induction false} TrimEndShape(s: string)
    ensures var r := TrimEnd(s);
      |r| <= |s| && r == s[..|r|] && Blank(s[|r|..]) && (r != [] ==> !IsSpace(r[|r| - 1]))
    decreases |s|
  {
    if s != [] && IsSpace(s[|s| - 1]) {
      var p := s[..|s| - 1];
      TrimEndShape(p);
      var r := TrimEnd(p);
      assert TrimEnd(s) == r;
      assert r == s[..|r|] by { assert p[..|r|] == s[..|r|]; }
      assert s[|r|..] == p[|r|..] + [s[|s| - 1]];
    }
  }

  /** `trim` removes exactly the leading and trailing whitespace: what is left is a slice of the
      input that neither starts nor ends with whitespace, and everything cut off is whitespace. */
  lemma TrimShape(s: string)
    ensures var r := Trim(s);
      exists i, j :: 0 <= i <= j <= |s| && r == s[i..j] && Blank(s[..i]) && Blank(s[j..])
    ensures var r := Trim(s); r != [] ==> !IsSpace(r[0]) && !IsSpace(r[|r| - 1])
  {
    TrimStartShape(s);
    var t := TrimStart(s);
    TrimEndShape(t);
    var r := TrimEnd(t);
    var i := |s| - |t|;
    var j := i + |r|;
    assert r == s[i..j];
    assert s[j..] == t[|r|..];
  }

  /** `!s.trim()` holds exactly for blank strings. */
  lemma TrimEmptyIffBlank(s: string)
    ensures Trim(s) == [] <==> Blank(s)
  {
    TrimStartShape(s);
    var t := TrimStart(s);
    TrimEndShape(t);
    var r := TrimEnd(t);
    var i := |s| - |t|;
    assert t == s[i..];
    if r == [] {
      assert t == [];
      forall k | 0 <= k < |s| ensures IsSpace(s[k]) {
        assert s[..i][k] == s[k];
      }
    } else {
      assert r[0] == t[0] == s[i];
    }
  }

  // ---- numeric Ids as text ----

  predicate IsDigit(c: char) {
    '0' <= c <= '9'
  }

  predicate AllDigits(s: string) {
    forall i :: 0 <= i < |s| ==> IsDigit(s[i])
  }

  function DigitChar(d: nat): (c: char)
    requires d < 10
  {
    (d + '0' as int) as char
  }

  function DigitValue(c: char): nat
    requires IsDigit(c)
  {
    c as int - '0' as int
  }

  /** `n.toString()` for a non-negative integer Id. */
  function IdText(n: nat): (s: string)
    ensures s != [] && AllDigits(s)
    decreases n
  {
    if n < 10 then [DigitChar(n)] else IdText(n / 10) + [DigitChar(n % 10)]
  }

  /** The number a string of decimal digits denotes. */
  function DigitsValue(s: string): nat
    requires AllDigits(s)
    decreases |s|
  {
    if s == [] then 0 else DigitsValue(s[..|s| - 1]) * 10 + DigitValue(s[|s| - 1])
  }

  /** Length of the longest prefix of decimal digits. */
  function DigitPrefixLength(s: string): (k: nat)
    ensures k <= |s| && AllDigits(s[..k])
    ensures k < |s| ==> !IsDigit(s[k])
    decreases |s|
  {
    if s == [] || !IsDigit(s[0]) then 0
    else
      var k := 1 + DigitPrefixLength(s[1..]);
      assert forall i :: 1 <= i < k ==> s[..k][i] == s[1..][..k - 1][i - 1];
      k
  }

  /** `parseInt(s)` for strings that start with a digit; `None` stands for NaN. */
  function ParseInt(s: string): (r: Option<nat>)
    ensures r.None? <==> (s == [] || !IsDigit(s[0]))
  {
    var k := DigitPrefixLength(s);
    if k == 0 then None else Some(DigitsValue(s[..k]))
  }

  lemma {:induction false} AllDigitsPrefixLength(s: string)
    requires AllDigits(s)
    ensures DigitPrefixLength(s) == |s|
    decreases |s|
  {
    if s != [] {
      AllDigitsPrefixLength(s[1..]);
    }
  }

  lemma {:induction false} IdTextValue(n: nat)
    ensures DigitsValue(IdText(n)) == n
    decreases n
  {
    if n >= 10 {
      IdTextValue(n / 10);
      var s := IdText(n);
      assert s[..|s| - 1] == IdText(n / 10);
    }
  }

  /** The digit prefix of `d + rest` is `d` when `rest` does not go on with a digit. */
  lemma {:induction false} DigitPrefixOf(d: string, rest: string)
    requires AllDigits(d) && (rest == [] || !IsDigit(rest[0]))
    ensures DigitPrefixLength(d + rest) == |d|
    decreases |d|
  {
    if d != [] {
      DigitPrefixOf(d[1..], rest);
      assert (d + rest)[1..] == d[1..] + rest;
    } else {
      assert d + rest == rest;
    }
  }

  /** `parseInt` reads the leading run of decimal digits and ignores whatever follows it:
      `parseInt("42 acres") === 42`. */
  lemma ParseIntReadsLeadingDigits(d: string, rest: string)
    requires d != [] && AllDigits(d) && (rest == [] || !IsDigit(rest[0]))
    ensures ParseInt(d + rest) == Some(DigitsValue(d))
  {
    DigitPrefixOf(d, rest);
    assert (d + rest)[..|d|] == d;
  }

  /** `parseInt(n.toString()) === n`: an Id turned into text and parsed back is the same Id. */
  lemma IdTextRoundTrip(n: nat)
    ensures ParseInt(IdText(n)) == Some(n)
  {
    AllDigitsPrefixLength(IdText(n));
    IdTextValue(n);
    assert IdText(n)[..|IdText(n)|] == IdText(n);
  }

  /** Different Ids have different texts. */
  lemma IdTextInjective(m: nat, n: nat)
    ensures IdText(m) == IdText(n) <==> m == n
  {
    IdTextRoundTrip(m);
    IdTextRoundTrip(n);
  }

  // ---- an order on strings ----

  /** Lexicographic order by code unit: one total preorder `localeCompare` may stand for. */
  predicate CodeUnitLe(a: string, b: string)
    decreases |a|
  {
    a == [] || (b != [] && (a[0] < b[0] || (a[0] == b[0] && CodeUnitLe(a[1..], b[1..]))))
  }

  lemma {:induction false} CodeUnitLeTotal(a: string, b: string)
    ensures CodeUnitLe(a, b) || CodeUnitLe(b, a)
    decreases |a|
  {
    if a != [] && b != [] && a[0] == b[0] {
      CodeUnitLeTotal(a[1..], b[1..]);
    }
  }

  lemma {:induction false} CodeUnitLeTransitive(a: string, b: string, c: string)
    requires CodeUnitLe(a, b) && CodeUnitLe(b, c)
    ensures CodeUnitLe(a, c)
    decreases |a|
  {
    if a != [] && a[0] == b[0] && b[0] == c[0] {
      CodeUnitLeTransitive(a[1..], b[1..], c[1..]);
    }
  }

  /** `a.localeCompare(b)` stands for any comparator whose "not after" relation (`<= 0`) is total
      and transitive; the locale's collation itself is not modelled. */
  ghost predicate IsCollation(collate: (string, string) -> int) {
    && (forall a, b :: collate(a, b) <= 0 || collate(b, a) <= 0)
    && (forall a, b, c :: collate(a, b) <= 0 && collate(b, c) <= 0 ==> collate(a, c) <= 0)
  }

  /** Comparison by code units. */
  function CodeUnitCompare(a: string, b: string): (r: int)
    ensures r == 0 <==> a == b
  {
    if a == b then 0 else if CodeUnitLe(a, b) then -1 else 1
  }

  /** Code-unit comparison is one collation the model admits. */
  lemma CodeUnitCompareIsCollation()
    ensures IsCollation(CodeUnitCompare)
  {
    forall a, b ensures CodeUnitCompare(a, b) <= 0 || CodeUnitCompare(b, a) <= 0 {
      CodeUnitLeTotal(a, b);
    }
    forall a, b, c | CodeUnitCompare(a, b) <= 0 && CodeUnitCompare(b, c) <= 0
      ensures CodeUnitCompare(a, c) <= 0
    {
      if a != b && b != c {
        CodeUnitLeTransitive(a, b, c);
      }
    }
  }
}
