/**
  The Python string built-ins the decoder relies on: `str.strip()`,
  `str.lower()`/`str.upper()` (as far as comparisons with "true" and "#TEXT"
  can tell), `str.startswith`, and `int(text)` / `str(n)` in base 10.
 */
module PyText {
  import opened Wrappers

  /** `str.isspace()` for one character. */
  predicate IsSpace(c: char) {
    var n := c as int;
    (0x09 <= n <= 0x0D) || (0x1C <= n <= 0x20) || n == 0x85 || n == 0xA0 ||
    n == 0x1680 || (0x2000 <= n <= 0x200A) || n == 0x2028 || n == 0x2029 ||
    n == 0x202F || n == 0x205F || n == 0x3000
  }

  function StripLeft(s: string): (r: string)
    ensures |r| <= |s| && r == s[|s| - |r|..]
    ensures r == [] || !IsSpace(r[0])
    ensures forall i | 0 <= i < |s| - |r| :: IsSpace(s[i])
  {
    if s != [] && IsSpace(s[0]) then StripLeft(s[1..]) else s
  }

  function StripRight(s: string): (r: string)
    ensures |r| <= |s| && r == s[..|r|]
    ensures r == [] || !IsSpace(r[|r| - 1])
    ensures forall i | |r| <= i < |s| :: IsSpace(s[i])
  {
    if s != [] && IsSpace(s[|s| - 1]) then StripRight(s[..|s| - 1]) else s
  }

  /** The number of leading white-space characters of `s`. */
  function Leading(s: string): nat {
    |s| - |StripLeft(s)|
  }

  /** `r` is `s` with exactly `k` leading and some trailing characters
      removed, all of them white space. */
  predicate TrimmedFrom(s: string, k: nat, r: string) {
    && k + |r| <= |s| && r == s[k..k + |r|]
    && (forall i | 0 <= i < k :: IsSpace(s[i]))
    && (forall i | k + |r| <= i < |s| :: IsSpace(s[i]))
  }

  /** `str.strip()`: the text without leading and trailing white space. */
  function Strip(s: string): (r: string)
    ensures |r| <= |s|
    ensures r == [] || (!IsSpace(r[0]) && !IsSpace(r[|r| - 1]))
    ensures (s == [] || (!IsSpace(s[0]) && !IsSpace(s[|s| - 1]))) ==> r == s
  {
    StripRight(StripLeft(s))
  }

  /** `str.strip()` removes the leading and the trailing white space and
      nothing else: its result is a slice of `s` with only white space
      around it. */
  lemma StripExact(s: string)
    ensures TrimmedFrom(s, Leading(s), Strip(s))
  {
    var l := StripLeft(s);
    var k := |s| - |l|;
    var r := StripRight(l);
    assert l == s[k..];
    assert r == l[..|r|];
    forall i | k + |r| <= i < |s| ensures IsSpace(s[i]) {
      assert s[i] == l[i - k];
    }
  }

  function StartsWith(s: string, prefix: string): bool {
    |prefix| <= |s| && s[..|prefix|] == prefix
  }

  function LowerChar(c: char): char {
    if 'A' <= c <= 'Z' then (c as int + 32) as char else c
  }

  function UpperChar(c: char): char {
    if 'a' <= c <= 'z' then (c as int - 32) as char else c
  }

  /** `str.lower()` on ASCII letters. No other character lower-cases to one of
      the letters of "true", so `Lower(s) == "true"` agrees with Python. */
  function Lower(s: string): (r: string)
    ensures |r| == |s| && forall i | 0 <= i < |s| :: r[i] == LowerChar(s[i])
  {
    if s == [] then [] else [LowerChar(s[0])] + Lower(s[1..])
  }

  /** `str.upper()` on ASCII letters; enough to decide `Upper(s) == "#TEXT"`. */
  function Upper(s: string): (r: string)
    ensures |r| == |s| && forall i | 0 <= i < |s| :: r[i] == UpperChar(s[i])
  {
    if s == [] then [] else [UpperChar(s[0])] + Upper(s[1..])
  }

  predicate IsDigit(c: char) { '0' <= c <= '9' }

  function DigitValue(c: char): nat requires IsDigit(c) { c as int - '0' as int }

  /** Digits with single underscores between them, as `int()` accepts. */
  predicate IsDigitGroups(s: string) {
    |s| > 0 && IsDigit(s[0]) && IsDigit(s[|s| - 1]) &&
    (forall i | 0 <= i < |s| :: IsDigit(s[i]) || s[i] == '_') &&
    (forall i | 0 <= i < |s| - 1 :: !(s[i] == '_' && s[i + 1] == '_'))
  }

  function DropUnderscores(s: string): (r: string)
    ensures (forall i | 0 <= i < |s| :: IsDigit(s[i]) || s[i] == '_') ==>
              forall i | 0 <= i < |r| :: IsDigit(r[i])
    ensures (forall i | 0 <= i < |s| :: s[i] != '_') ==> r == s
  {
    if s == [] then [] else (if s[0] == '_' then [] else [s[0]]) + DropUnderscores(s[1..])
  }

  /** The number a string of decimal digits denotes. */
  function DigitsValue(ds: string): nat
    requires forall i | 0 <= i < |ds| :: IsDigit(ds[i])
  {
    if ds == [] then 0 else 10 * DigitsValue(ds[..|ds| - 1]) + DigitValue(ds[|ds| - 1])
  }

  function Unsigned(t: string): Option<nat> {
    if IsDigitGroups(t) then Some(DigitsValue(DropUnderscores(t))) else None
  }

  /** `int(text)` for base 10: surrounding white space, an optional sign,
      ASCII digits separated by single underscores; None where Python raises
      `ValueError`. */
  function ParseInt(s: string): Option<int> {
    var t := Strip(s);
    if |t| > 0 && t[0] == '-' then
      match Unsigned(t[1..])
      case Some(n) => Some(-(n as int))
      case None => None
    else if |t| > 0 && t[0] == '+' then
      match Unsigned(t[1..])
      case Some(n) => Some(n)
      case None => None
    else
      match Unsigned(t)
      case Some(n) => Some(n)
      case None => None
  }

  function DigitChar(d: nat): (c: char)
    requires d < 10
    ensures IsDigit(c) && DigitValue(c) == d
  {
    ('0' as int + d) as char
  }

  /** `str(n)` for a natural number: its shortest decimal digits. */
  function ShowNat(n: nat): (r: string)
    ensures |r| > 0 && forall i | 0 <= i < |r| :: IsDigit(r[i])
  {
    if n < 10 then [DigitChar(n)] else ShowNat(n / 10) + [DigitChar(n % 10)]
  }

  /** `str(n)` for an integer. */
  function ShowInt(n: int): (r: string)
    ensures |r| > 0
  {
    if n < 0 then "-" + ShowNat(-n) else ShowNat(n)
  }

  lemma {:induction false} ShowNatValue(n: nat)
    ensures DigitsValue(ShowNat(n)) == n
    decreases n
  {
    var s := ShowNat(n);
    if n >= 10 {
      ShowNatValue(n / 10);
      assert s[..|s| - 1] == ShowNat(n / 10);
    }
  }

  lemma ShowNatIsGroups(n: nat)
    ensures IsDigitGroups(ShowNat(n)) && DropUnderscores(ShowNat(n)) == ShowNat(n)
  {
  }

  /** Text whose first and last characters are not white space is its own strip. */
  lemma StripUnchanged(s: string)
    requires |s| > 0 && !IsSpace(s[0]) && !IsSpace(s[|s| - 1])
    ensures Strip(s) == s
  {
  }

  lemma UnsignedShowNat(n: nat)
    ensures Unsigned(ShowNat(n)) == Some(n)
  {
    ShowNatValue(n);
    ShowNatIsGroups(n);
  }

  lemma ParseDigits(d: string, n: nat)
    requires |d| > 0 && IsDigit(d[0]) && IsDigit(d[|d| - 1]) && Unsigned(d) == Some(n)
    ensures ParseInt(d) == Some(n)
  {
    StripUnchanged(d);
    assert d[0] != '-' && d[0] != '+';
  }

  lemma ParseNegated(d: string, n: nat)
    requires |d| > 0 && IsDigit(d[|d| - 1]) && Unsigned(d) == Some(n)
    ensures ParseInt("-" + d) == Some(-(n as int))
  {
    var s := "-" + d;
    assert s[|s| - 1] == d[|d| - 1];
    StripUnchanged(s);
    assert s[1..] == d;
  }

  /** `int(str(n)) == n`: the parser reads back every integer Python prints. */
  lemma ParseShowInt(n: int)
    ensures ParseInt(ShowInt(n)) == Some(n)
  {
    if n < 0 {
      UnsignedShowNat(-n);
      ParseNegated(ShowNat(-n), -n);
    } else {
      UnsignedShowNat(n);
      ParseDigits(ShowNat(n), n);
    }
  }

  /** `int("10") == 10`. */
  lemma ParseTen()
    ensures ParseInt("10") == Some(10)
  {
    ParseShowInt(10);
    assert ShowInt(10) == "10";
  }

  /** `int("abc")` raises: text holding an ASCII letter anywhere is no integer. */
  lemma ParseRejectsLetters(s: string, k: int)
    requires 0 <= k < |s| && ('a' <= s[k] <= 'z' || 'A' <= s[k] <= 'Z')
    ensures ParseInt(s) == None
  {
    var t := Strip(s);
    var a := Leading(s);
    StripExact(s);
    assert !IsSpace(s[k]);
    assert a <= k < a + |t|;
    var j := k - a;
    assert t[j] == s[k] && !IsDigit(t[j]) && t[j] != '_';
    if t[0] == '-' || t[0] == '+' {
      assert 0 < j && t[1..][j - 1] == t[j];
      assert !IsDigitGroups(t[1..]);
    } else {
      assert !IsDigitGroups(t);
    }
  }

  /** `int("")` raises, unlike an absent value, which the decoder turns into 0. */
  lemma ParseRejectsBlank(s: string)
    requires forall i | 0 <= i < |s| :: IsSpace(s[i])
    ensures ParseInt(s) == None
  {
  }

  /** `"TRUE".lower() == "true"` and `"yes".lower() != "true"`. */
  lemma LowerExamples()
    ensures Lower("TRUE") == "true" && Lower("True") == "true" && Lower("true") == "true"
    ensures Lower("yes") != "true" && Lower("false") != "true"
  {
  }
}
