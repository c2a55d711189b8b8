/** The fragment of Python's text handling the orchestrator relies on: decimal
    printing and parsing (`str`, `int`), `str.strip`, and code-point order. */
module Text {
  import opened Wrappers

  // ---- decimal numerals ----

  predicate IsDigit(ch: char) {
    '0' <= ch <= '9'
  }

  function DigitChar(d: nat): (ch: char)
    requires d < 10
    ensures IsDigit(ch)
  {
    ('0' as int + d) as char
  }

  function PrintNat(n: nat): (s: string)
    ensures |s| > 0 && forall i | 0 <= i < |s| :: IsDigit(s[i])
  {
    if n < 10 then [DigitChar(n)] else PrintNat(n / 10) + [DigitChar(n % 10)]
  }

  /** `str(n)` of a Python integer. */
  function PrintInt(n: int): string {
    if n < 0 then "-" + PrintNat(-n) else PrintNat(n)
  }

  function ParseNat(s: string): Option<nat> {
    if |s| == 0 then None
    else
      var ch := s[|s| - 1];
      if !IsDigit(ch) then None
      else
        var d := ch as int - '0' as int;
        if |s| == 1 then Some(d)
        else match ParseNat(s[..|s| - 1])
          case None => None
          case Some(n) => Some(10 * n + d)
  }

  /** Python 3.12 refuses to convert decimal text with more digits, leading zeros included. */
  const MaxDigits: nat := 4300

  /** `int(s)` of ASCII text without underscores: an optional sign and decimal digits, with
      surrounding white space; `None` stands for the `ValueError`. */
  function ParseInt(s: string): Option<int> {
    var t := Trim(s, ForInt);
    if |t| > 0 && t[0] == '-' then
      match ParseDigits(t[1..])
      case None => None
      case Some(n) => Some(0 - n as int)
    else if |t| > 0 && t[0] == '+' then ParseDigits(t[1..])
    else ParseDigits(t)
  }

  function ParseDigits(s: string): Option<nat> {
    if |s| > MaxDigits then None else ParseNat(s)
  }

  function Magnitude(n: int): nat {
    if n < 0 then -n else n
  }

  /** How many digits `str(n)` has. */
  function Digits(n: int): nat {
    |PrintNat(Magnitude(n))|
  }

  lemma {:induction false} ParsePrintNat(n: nat)
    ensures ParseNat(PrintNat(n)) == Some(n)
  {
    if n >= 10 {
      var s := PrintNat(n);
      assert s[..|s| - 1] == PrintNat(n / 10);
      ParsePrintNat(n / 10);
    }
  }

  /** Printing then parsing is the identity on exactly the integers within the digit limit. */
  lemma {:induction false} ParsePrintInt(n: int)
    ensures ParseInt(PrintInt(n)) == if Digits(n) <= 4300 then Some(n) else None
  {
    var s := PrintInt(n);
    TrimSolid(s, ForInt);
    if n < 0 {
      assert s[1..] == PrintNat(-n);
      ParsePrintNat(-n);
    } else {
      ParsePrintNat(n);
    }
  }

  /** Distinct integers print differently, of any length. */
  lemma {:induction false} PrintIntInjective(m: int, n: int)
    requires PrintInt(m) == PrintInt(n)
    ensures m == n
  {
    assert m < 0 ==> PrintInt(m)[0] == '-' && PrintInt(m)[1..] == PrintNat(-m);
    assert n < 0 ==> PrintInt(n)[0] == '-' && PrintInt(n)[1..] == PrintNat(-n);
    assert m >= 0 ==> IsDigit(PrintInt(m)[0]);
    assert n >= 0 ==> IsDigit(PrintInt(n)[0]);
    ParsePrintNat(Magnitude(m));
    ParsePrintNat(Magnitude(n));
  }

  function Pow10(k: nat): nat {
    if k == 0 then 1 else 10 * Pow10(k - 1)
  }

  function Zeros(k: nat): (s: string)
    ensures |s| == k && forall i | 0 <= i < k :: s[i] == '0'
  {
    if k == 0 then "" else Zeros(k - 1) + "0"
  }

  lemma {:induction false} PrintPow10(k: nat)
    ensures PrintNat(Pow10(k)) == "1" + Zeros(k)
  {
    if k > 0 {
      Pow10Positive(k - 1);
      PrintPow10(k - 1);
      assert Pow10(k) / 10 == Pow10(k - 1) && Pow10(k) % 10 == 0;
    } else {
      assert DigitChar(1) == '1';
    }
  }

  lemma {:induction false} Pow10Positive(k: nat)
    ensures Pow10(k) >= 1
  {
    if k > 0 {
      Pow10Positive(k - 1);
    }
  }

  lemma {:induction false} Pow10Sum(j: nat, k: nat)
    ensures Pow10(j + k) == Pow10(j) * Pow10(k)
  {
    if j > 0 {
      Pow10Sum(j - 1, k);
      assert Pow10(j) == 10 * Pow10(j - 1) && Pow10(j + k) == 10 * Pow10(j - 1 + k);
    }
  }

  lemma {:induction false} Pow10OfMove()
    ensures Pow10(78) > 0x1_0000000000000000_0000000000000000_0000000000000000_0000000000000000
  {
    assert Pow10(3) == 10 * Pow10(2) == 100 * Pow10(1) == 1000 * Pow10(0) == 1000;
    assert Pow10(1) == 10;
    hide Pow10;
    assert Pow10(6) == 1000000 by { Pow10Sum(3, 3); }
    assert Pow10(12) == 1000000000000 by { Pow10Sum(6, 6); }
    assert Pow10(13) == 10000000000000 by { Pow10Sum(1, 12); }
    assert Pow10(26) == 100000000000000000000000000 by { Pow10Sum(13, 13); }
    assert Pow10(52) == 10000000000000000000000000000000000000000000000000000 by { Pow10Sum(26, 26); }
    assert Pow10(78) == 1000000000000000000000000000000000000000000000000000000000000000000000000000000 by {
      Pow10Sum(52, 26);
    }
  }

  /** A natural number has at most `k` digits exactly when it is below 10^k. */
  lemma {:induction false} DigitsIff(n: nat, k: nat)
    requires k > 0
    ensures |PrintNat(n)| <= k <==> n < Pow10(k)
  {
    Pow10Positive(k - 1);
    if n >= 10 && k > 1 {
      DigitsIff(n / 10, k - 1);
    } else if k == 1 {
      assert Pow10(1) == 10 * Pow10(0) == 10;
    }
  }

  /** The digits, by example. */
  lemma DigitsAre()
    ensures DigitChar(0) == '0' && DigitChar(1) == '1' && DigitChar(2) == '2' && DigitChar(3) == '3' &&
      DigitChar(4) == '4'
    ensures DigitChar(5) == '5' && DigitChar(6) == '6' && DigitChar(7) == '7' && DigitChar(8) == '8' &&
      DigitChar(9) == '9'
  {}

  /** Their order, the sign, and what does not read as an integer, by example. */
  lemma {:induction false} NumeralExample()
    ensures PrintInt(-12) == "-12" && ParseInt("-12") == Some(-12)
    ensures ParseInt("") == ParseInt("-") == ParseInt("1x") == None
  {
    assert PrintNat(12) == "12";
    ParsePrintInt(-12);
    assert "-"[1..] == "";
    TrimSolid("-", ForInt);
    TrimSolid("1x", ForInt);
  }

  // ---- every spelling of an integer ----

  predicate SignFits(sign: string, n: int) {
    (sign == "-" && n <= 0) || ((sign == "" || sign == "+") && n >= 0)
  }

  ghost predicate AllBlank(s: string, use: Use) {
    forall i | 0 <= i < |s| :: IsBlank(s[i], use)
  }

  /** `n` written with a sign, leading zeros and surrounding text. */
  function Spell(before: string, sign: string, zeros: nat, n: int, after: string): string {
    before + (sign + (Zeros(zeros) + PrintNat(Magnitude(n)))) + after
  }

  ghost predicate Spells(s: string, n: int, before: string, sign: string, zeros: nat, after: string) {
    AllBlank(before, ForInt) && AllBlank(after, ForInt) && SignFits(sign, n) &&
      s == Spell(before, sign, zeros, n, after)
  }

  lemma {:induction false} ParseZeros(k: nat)
    requires k > 0
    ensures ParseNat(Zeros(k)) == Some(0)
  {
    if k > 1 {
      assert Zeros(k)[..k - 1] == Zeros(k - 1);
      ParseZeros(k - 1);
    }
  }

  lemma {:induction false} ParsePadded(k: nat, n: nat)
    ensures ParseNat(Zeros(k) + PrintNat(n)) == Some(n)
  {
    var s := Zeros(k) + PrintNat(n);
    if n >= 10 {
      assert s[..|s| - 1] == Zeros(k) + PrintNat(n / 10);
      ParsePadded(k, n / 10);
    } else if k > 0 {
      assert s[..|s| - 1] == Zeros(k);
      ParseZeros(k);
    }
  }

  lemma {:induction false} AppendDigit(j: nat, m: nat, d: nat)
    requires d < 10
    ensures Zeros(j) + PrintNat(m) + [DigitChar(d)] == Zeros(if m == 0 then j + 1 else j) + PrintNat(10 * m + d)
  {
    if m == 0 {
      assert PrintNat(0) == "0";
    } else {
      assert (10 * m + d) / 10 == m && (10 * m + d) % 10 == d;
      assert PrintNat(10 * m + d) == PrintNat(m) + [DigitChar(d)];
    }
  }

  /** Text of digits only is the numeral of its value behind leading zeros. */
  lemma {:induction false} DigitsAreNumeral(s: string, n: nat)
    requires ParseNat(s) == Some(n)
    ensures |PrintNat(n)| <= |s| && s == Zeros(|s| - |PrintNat(n)|) + PrintNat(n)
  {
    var ch := s[|s| - 1];
    var d := ch as int - '0' as int;
    if |s| == 1 {
      assert s == [DigitChar(d)];
    } else {
      var front := s[..|s| - 1];
      var m := ParseNat(front).value;
      DigitsAreNumeral(front, m);
      assert s == front + [DigitChar(d)] && n == 10 * m + d;
      hide PrintNat, Zeros, ParseNat;
      AppendDigit(|front| - |PrintNat(m)|, m, d);
    }
  }

  lemma {:induction false} ParseSigned(s: string, sign: string, digits: string)
    requires sign in {"", "+", "-"} && digits != "" && IsDigit(digits[0]) && Trim(s, ForInt) == sign + digits
    ensures ParseDigits(digits).None? ==> ParseInt(s) == None
    ensures ParseDigits(digits).Some? ==>
      ParseInt(s) == Some(if sign == "-" then 0 - ParseDigits(digits).value as int
        else ParseDigits(digits).value as int)
  {
    hide Trim, ParseDigits;
    var core := sign + digits;
    assert core[|sign|..] == digits;
    assert sign == "" ==> core == digits;
  }

  lemma {:induction false} ParseSpelled(s: string, n: int, before: string, sign: string, zeros: nat, after: string)
    requires Spells(s, n, before, sign, zeros, after)
    ensures ParseInt(s) == if zeros + Digits(n) <= MaxDigits then Some(n) else None
  {
    var digits := Zeros(zeros) + PrintNat(Magnitude(n));
    assert forall i | 0 <= i < |digits| :: IsDigit(digits[i]);
    TrimPadded(before, sign + digits, after, ForInt);
    ParsePadded(zeros, Magnitude(n));
    hide Trim, ParseNat, ParseInt, PrintNat, Zeros;
    ParseSigned(s, sign, digits);
  }

  lemma {:induction false} SignAndDigits(s: string, n: int) returns (sign: string, digits: string)
    requires ParseInt(s) == Some(n)
    ensures Trim(s, ForInt) == sign + digits && ParseDigits(digits) == Some(Magnitude(n)) && SignFits(sign, n)
  {
    hide Trim, ParseDigits;
    var t := Trim(s, ForInt);
    sign := if t != "" && t[0] == '-' then "-" else if t != "" && t[0] == '+' then "+" else "";
    digits := t[|sign|..];
  }

  lemma {:induction false} ParsedIsSpelled(s: string, n: int)
    returns (before: string, sign: string, zeros: nat, after: string)
    requires ParseInt(s) == Some(n)
    ensures Spells(s, n, before, sign, zeros, after) && zeros + Digits(n) <= MaxDigits
  {
    var digits;
    sign, digits := SignAndDigits(s, n);
    before, after := TrimParts(s, ForInt);
    DigitsAreNumeral(digits, Magnitude(n));
    hide Trim, ParseNat, ParseInt, PrintNat, Zeros;
    zeros := |digits| - Digits(n);
  }

  /** `int(s)` is `n` exactly if `s` spells `n`: blanks, an optional fitting sign, any
      leading zeros, the numeral, blanks, with no more digits than the limit. */
  lemma {:induction false} ParseIntIff(s: string, n: int)
    ensures ParseInt(s) == Some(n) <==>
      exists before, sign, zeros: nat, after ::
        Spells(s, n, before, sign, zeros, after) && zeros + Digits(n) <= MaxDigits
  {
    if ParseInt(s) == Some(n) {
      var before, sign, zeros, after := ParsedIsSpelled(s, n);
    }
    forall before, sign, zeros: nat, after | Spells(s, n, before, sign, zeros, after) && zeros + Digits(n) <= MaxDigits
      ensures ParseInt(s) == Some(n)
    {
      ParseSpelled(s, n, before, sign, zeros, after);
    }
  }

  // ---- white space ----

  /** `str.strip` and `int` disagree on the four ASCII separators 28 to 31. */
  datatype Use = ForStrip | ForInt

  predicate IsBlank(ch: char, use: Use) {
    9 <= ch as int <= 13 || ch == ' ' || (use.ForStrip? && 28 <= ch as int <= 31)
  }

  predicate IsSpace(ch: char) {
    IsBlank(ch, ForStrip)
  }

  /** The characters `str.strip` takes away, and those `int` does. */
  lemma BlanksAre(ch: char)
    ensures IsBlank(ch, ForStrip) <==>
      ch in {'\t', '\n', '\U{0B}', '\U{0C}', '\r', '\U{1C}', '\U{1D}', '\U{1E}', '\U{1F}', ' '}
    ensures IsBlank(ch, ForInt) <==> ch in {'\t', '\n', '\U{0B}', '\U{0C}', '\r', ' '}
  {}

  function TrimLeft(s: string, use: Use): string {
    if |s| > 0 && IsBlank(s[0], use) then TrimLeft(s[1..], use) else s
  }

  function TrimRight(s: string, use: Use): string {
    if |s| > 0 && IsBlank(s[|s| - 1], use) then TrimRight(s[..|s| - 1], use) else s
  }

  function Trim(s: string, use: Use): string {
    TrimRight(TrimLeft(s, use), use)
  }

  /** `s.strip()` over ASCII white space. */
  function Strip(s: string): string {
    Trim(s, ForStrip)
  }

  predicate Solid(s: string, use: Use) {
    |s| > 0 ==> !IsBlank(s[0], use) && !IsBlank(s[|s| - 1], use)
  }

  lemma {:induction false} TrimSolid(s: string, use: Use)
    requires Solid(s, use)
    ensures Trim(s, use) == s
  {}

  lemma {:induction false} TrimLeftHead(s: string, use: Use)
    ensures |TrimLeft(s, use)| > 0 ==> !IsBlank(TrimLeft(s, use)[0], use)
  {
    if |s| > 0 && IsBlank(s[0], use) {
      TrimLeftHead(s[1..], use);
    }
  }

  lemma {:induction false} TrimRightEnds(s: string, use: Use)
    ensures TrimRight(s, use) <= s
    ensures |TrimRight(s, use)| > 0 ==> !IsBlank(TrimRight(s, use)[|TrimRight(s, use)| - 1], use)
    ensures AllBlank(s[|TrimRight(s, use)|..], use)
  {
    if |s| > 0 && IsBlank(s[|s| - 1], use) {
      var front := s[..|s| - 1];
      TrimRightEnds(front, use);
      var k := |TrimRight(s, use)|;
      assert s == front + [s[|s| - 1]] && s[k..] == front[k..] + [s[|s| - 1]];
    }
  }

  lemma {:induction false} TrimLeftParts(s: string, use: Use)
    ensures |TrimLeft(s, use)| <= |s| && s[|s| - |TrimLeft(s, use)|..] == TrimLeft(s, use)
    ensures AllBlank(s[..|s| - |TrimLeft(s, use)|], use)
  {
    if |s| > 0 && IsBlank(s[0], use) {
      TrimLeftParts(s[1..], use);
      var k := |s| - |TrimLeft(s, use)|;
      assert s[1..][k - 1..] == s[k..];
      assert s[1..][..k - 1] == s[1..k];
      assert forall i | 0 < i < k :: s[i] == s[1..k][i - 1];
    }
  }

  /** What trimming takes away on either side is blank. */
  lemma {:induction false} TrimParts(s: string, use: Use) returns (before: string, after: string)
    ensures AllBlank(before, use) && AllBlank(after, use) && s == before + Trim(s, use) + after
  {
    TrimLeftParts(s, use);
    var left := TrimLeft(s, use);
    TrimRightEnds(left, use);
    before, after := s[..|s| - |left|], left[|Trim(s, use)|..];
  }

  lemma {:induction false} TrimLeftPadded(before: string, core: string, use: Use)
    requires AllBlank(before, use)
    ensures TrimLeft(before + core, use) == TrimLeft(core, use)
  {
    if before == "" {
      assert before + core == core;
    } else {
      assert (before + core)[1..] == before[1..] + core;
      TrimLeftPadded(before[1..], core, use);
    }
  }

  lemma {:induction false} TrimRightPadded(core: string, after: string, use: Use)
    requires AllBlank(after, use)
    ensures TrimRight(core + after, use) == TrimRight(core, use)
  {
    if after == "" {
      assert core + after == core;
    } else {
      var k := |after| - 1;
      assert (core + after)[..|core + after| - 1] == core + after[..k];
      TrimRightPadded(core, after[..k], use);
    }
  }

  /** Trimming takes away the blanks around a core that neither begins nor ends with one. */
  lemma {:induction false} TrimPadded(before: string, core: string, after: string, use: Use)
    requires AllBlank(before, use) && AllBlank(after, use) && core != "" && Solid(core, use)
    ensures Trim(before + core + after, use) == core
  {
    assert before + core + after == before + (core + after);
    TrimLeftPadded(before, core + after, use);
    assert (core + after)[0] == core[0];
    TrimRightPadded(core, after, use);
    TrimSolid(core, use);
  }

  /** Stripping twice is stripping once. */
  lemma {:induction false} StripIdempotent(s: string)
    ensures Solid(Strip(s), ForStrip) && Strip(Strip(s)) == Strip(s)
  {
    TrimLeftHead(s, ForStrip);
    TrimRightEnds(TrimLeft(s, ForStrip), ForStrip);
    TrimSolid(Strip(s), ForStrip);
  }

  // ---- code-point order on strings ----

  predicate Less(a: string, b: string) {
    if |b| == 0 then false
    else if |a| == 0 then true
    else a[0] < b[0] || (a[0] == b[0] && Less(a[1..], b[1..]))
  }

  lemma {:induction false} LessTotal(a: string, b: string)
    ensures Less(a, b) || a == b || Less(b, a)
    ensures !(Less(a, b) && Less(b, a)) && !Less(a, a)
  {
    if |a| > 0 {
      LessTotal(a[1..], a[1..]);
      if |b| > 0 {
        LessTotal(a[1..], b[1..]);
        if a[0] == b[0] && a[1..] == b[1..] {
          assert a == [a[0]] + a[1..] == b;
        }
      }
    }
  }

  /** The texts first differ at `k`, where `a` has ended or has the smaller code point. */
  predicate Differ(a: string, b: string, k: nat) {
    && k <= |a| && k < |b| && a[..k] == b[..k]
    && (k < |a| ==> a[k] < b[k])
  }

  lemma {:induction false} HeadsAgree(a: string, b: string, k: nat)
    ensures Differ(a, b, k) && k > 0 ==> a != "" && b != "" && a[0] == b[0]
  {
    if Differ(a, b, k) && k > 0 {
      assert a[..k][0] == b[..k][0];
    }
  }

  lemma {:induction false} LessIff(a: string, b: string)
    ensures Less(a, b) <==> exists k :: Differ(a, b, k)
  {
    if a != "" && b != "" && a[0] == b[0] {
      LessIff(a[1..], b[1..]);
      if Less(a[1..], b[1..]) {
        var k: nat :| Differ(a[1..], b[1..], k);
        assert a[..k + 1] == [a[0]] + a[1..][..k] && b[..k + 1] == [b[0]] + b[1..][..k];
        assert Differ(a, b, k + 1);
      }
      forall k: nat | Differ(a, b, k)
        ensures k > 0 && Differ(a[1..], b[1..], k - 1)
      {
        assert a[..k][1..] == a[1..][..k - 1] && b[..k][1..] == b[1..][..k - 1];
      }
    } else {
      assert b != "" && (a == "" || a[0] < b[0]) ==> Differ(a, b, 0);
      forall k: nat | Differ(a, b, k)
        ensures Less(a, b)
      {
        HeadsAgree(a, b, k);
      }
    }
  }
}
