/** The parts of Go's strings, unicode and fmt packages that the page text goes through. */
module GoStrings {

  /** unicode.IsSpace: the White_Space property. */
  predicate IsSpace(c: char) {
    || '\t' <= c <= '\r'
    || c in {' ', '\U{85}', '\U{A0}', '\U{1680}', '\U{2028}', '\U{2029}', '\U{202F}', '\U{205F}', '\U{3000}'}
    || '\U{2000}' <= c <= '\U{200A}'
  }

  /** The same, by code points. */
  lemma BlankCodePoints(c: char)
    ensures var n := c as int;
            IsSpace(c) <==>
            || 0x09 <= n <= 0x0D || 0x2000 <= n <= 0x200A
            || n in {0x20, 0x85, 0xA0, 0x1680, 0x2028, 0x2029, 0x202F, 0x205F, 0x3000}
  {
  }

  // ----- Trimming ----------------------------------------------------------------------

  function TrimLeft(s: string): string {
    if s != "" && IsSpace(s[0]) then TrimLeft(s[1..]) else s
  }

  function TrimRight(s: string): string
    decreases |s|
  {
    if s != "" && IsSpace(s[|s| - 1]) then TrimRight(s[..|s| - 1]) else s
  }

  function TrimSpace(s: string): string {
    TrimRight(TrimLeft(s))
  }

  /** Nothing to trim. */
  predicate IsTrimmed(s: string) {
    s == "" || (!IsSpace(s[0]) && !IsSpace(s[|s| - 1]))
  }

  function NonSpaces(s: string): nat
    decreases |s|
  {
    if s == "" then 0 else NonSpaces(s[..|s| - 1]) + if IsSpace(s[|s| - 1]) then 0 else 1
  }

  lemma {:induction false} NonSpacesAppend(a: string, b: string)
    ensures NonSpaces(a + b) == NonSpaces(a) + NonSpaces(b)
    decreases |b|
  {
    if b == "" {
      assert a + b == a;
    } else {
      NonSpacesAppend(a, b[..|b| - 1]);
      assert (a + b)[..|a + b| - 1] == a + b[..|b| - 1];
    }
  }

  lemma {:induction false} TrimRightFacts(s: string)
    ensures NonSpaces(TrimRight(s)) == NonSpaces(s)
    ensures TrimRight(s) <= s
    ensures TrimRight(s) == "" || !IsSpace(TrimRight(s)[|TrimRight(s)| - 1])
    decreases |s|
  {
    if s != "" && IsSpace(s[|s| - 1]) {
      TrimRightFacts(s[..|s| - 1]);
    }
  }

  lemma {:induction false} TrimLeftFacts(s: string)
    ensures NonSpaces(TrimLeft(s)) == NonSpaces(s)
    ensures TrimLeft(s) == "" || !IsSpace(TrimLeft(s)[0])
    ensures |TrimLeft(s)| <= |s| && TrimLeft(s) == s[|s| - |TrimLeft(s)|..]
    ensures forall i | 0 <= i < |s| - |TrimLeft(s)| :: IsSpace(s[i])
  {
    if s != "" && IsSpace(s[0]) {
      TrimLeftFacts(s[1..]);
      assert s == s[..1] + s[1..];
      NonSpacesAppend(s[..1], s[1..]);
      assert s[..1][..0] == "";
    }
  }

  lemma TrimSpaceFacts(s: string) returns (i: nat, j: nat)
    ensures IsTrimmed(TrimSpace(s)) && NonSpaces(TrimSpace(s)) == NonSpaces(s)
    ensures i <= j <= |s| && TrimSpace(s) == s[i..j]
  {
    var l := TrimLeft(s);
    TrimLeftFacts(s);
    TrimRightFacts(l);
    i := |s| - |l|;
    j := i + |TrimSpace(s)|;
    assert s[i..][..j - i] == s[i..j];
    if TrimSpace(s) != "" {
      assert TrimSpace(s)[0] == l[0];
    }
  }

  lemma TrimmedStays(s: string)
    requires IsTrimmed(s)
    ensures TrimSpace(s) == s
  {
  }

  lemma TrimSkipsLeading(c: char, s: string)
    requires IsSpace(c)
    ensures TrimSpace([c] + s) == TrimSpace(s)
  {
    assert ([c] + s)[1..] == s;
  }

  lemma {:induction false} TrimLeftSnoc(s: string, c: char)
    requires IsSpace(c)
    ensures TrimLeft(s + [c]) == if TrimLeft(s) == "" then "" else TrimLeft(s) + [c]
  {
    if s == "" {
      assert TrimLeft([c]) == TrimLeft([c][1..]);
    } else if IsSpace(s[0]) {
      assert (s + [c])[1..] == s[1..] + [c];
      TrimLeftSnoc(s[1..], c);
    }
  }

  lemma TrimSkipsTrailing(s: string, c: char)
    requires IsSpace(c)
    ensures TrimSpace(s + [c]) == TrimSpace(s)
  {
    TrimLeftSnoc(s, c);
    var l := TrimLeft(s);
    assert (l + [c])[..|l|] == l;
  }

  // ----- Searching and splitting -------------------------------------------------------------

  predicate OccursAt(s: string, sub: string, i: nat) {
    i + |sub| <= |s| && s[i..i + |sub|] == sub
  }

  ghost predicate Contains(s: string, sub: string) {
    exists i: nat :: OccursAt(s, sub, i)
  }

  /** strings.Index: the leftmost occurrence, or -1. */
  function Index(s: string, sub: string): (r: int)
    ensures r == -1 || (r >= 0 && OccursAt(s, sub, r))
    ensures r == -1 ==> !Contains(s, sub)
    ensures forall i: nat | r >= 0 && OccursAt(s, sub, i) :: r <= i
  {
    IndexFrom(s, sub, 0)
  }

  function IndexFrom(s: string, sub: string, i: nat): (r: int)
    requires i <= |s|
    requires forall j: nat | j < i :: !OccursAt(s, sub, j)
    ensures r == -1 || (r >= i && OccursAt(s, sub, r))
    ensures r == -1 ==> !Contains(s, sub)
    ensures forall j: nat | r >= 0 && OccursAt(s, sub, j) :: r <= j
    decreases |s| - i
  {
    if OccursAt(s, sub, i) then i else if i == |s| then -1 else IndexFrom(s, sub, i + 1)
  }

  /** strings.Split for a non-empty separator. */
  function Split(s: string, sep: string): (parts: seq<string>)
    requires sep != ""
    ensures parts != []
    decreases |s|
  {
    var i := Index(s, sep);
    if i < 0 then [s] else [s[..i]] + Split(s[i + |sep|..], sep)
  }

  /** An occurrence inside a part of `s` is one in `s`. */
  lemma ContainsWithin(pre: string, s: string, post: string, sub: string)
    requires Contains(s, sub)
    ensures Contains(pre + s + post, sub)
  {
    var i: nat :| OccursAt(s, sub, i);
    var all := pre + s + post;
    assert all[|pre| + i..|pre| + i + |sub|] == s[i..i + |sub|];
    assert OccursAt(all, sub, |pre| + i);
  }

  // ----- Decimal numbers -----------------------------------------------------------------------

  /** A machine int: 64 bits, two's complement. */
  predicate FitsInt(n: int) {
    -0x8000_0000_0000_0000 <= n < 0x8000_0000_0000_0000
  }

  type GoInt = n: int | FitsInt(n)

  const DIGITS := "0123456789"

  predicate IsDigit(c: char) {
    '0' <= c <= '9'
  }

  function Digits(n: nat): string {
    if n < 10 then [DIGITS[n]] else Digits(n / 10) + [DIGITS[n % 10]]
  }

  /** The verb %d when printing. */
  function Decimal(n: int): string {
    if n < 0 then "-" + Digits(-n) else Digits(n)
  }

  function DigitValue(c: char): nat
    requires IsDigit(c)
  {
    (c - '0') as int
  }

  predicate AllDigits(s: string) {
    forall i | 0 <= i < |s| :: IsDigit(s[i])
  }

  function Value(s: string): nat
    requires AllDigits(s)
    decreases |s|
  {
    if s == "" then 0 else Value(s[..|s| - 1]) * 10 + DigitValue(s[|s| - 1])
  }

  function LeadingDigits(s: string): (d: string)
    ensures AllDigits(d) && d <= s
  {
    if s != "" && IsDigit(s[0]) then [s[0]] + LeadingDigits(s[1..]) else ""
  }

  /** Scanning skips blanks, but a newline is an error. */
  function SkipBlanks(s: string): string {
    if s != "" && s[0] != '\n' && IsSpace(s[0]) then SkipBlanks(s[1..]) else s
  }

  /** fmt.Sscanf with "%d" into a variable that held 0: blanks, a sign, digits; whatever follows is left.
      No digits, or a value that does not fit, leaves the 0. */
  function ScanInt(s: string): GoInt {
    var t := SkipBlanks(s);
    var negative := t != "" && t[0] == '-';
    var d := LeadingDigits(if t != "" && (t[0] == '-' || t[0] == '+') then t[1..] else t);
    var v: int := if negative then 0 - Value(d) else Value(d);
    if d != "" && FitsInt(v) then v else 0
  }

  lemma {:induction false} DigitsFacts(n: nat)
    ensures Digits(n) != "" && AllDigits(Digits(n)) && Value(Digits(n)) == n
  {
    var last := [DIGITS[n % 10]];
    assert IsDigit(DIGITS[n % 10]) && DigitValue(DIGITS[n % 10]) == n % 10;
    if n < 10 {
      assert last[..0] == "" && Value("") == 0;
    } else {
      DigitsFacts(n / 10);
      var front := Digits(n / 10);
      assert (front + last)[..|front + last| - 1] == front;
    }
  }

  lemma {:induction false} LeadingDigitsWhole(s: string)
    requires AllDigits(s)
    ensures LeadingDigits(s) == s
  {
    if s != "" {
      LeadingDigitsWhole(s[1..]);
    }
  }

  lemma DigitIsNotSpace(c: char)
    requires IsDigit(c) || c == '-'
    ensures !IsSpace(c) && c != ']' && c != '\n'
  {
  }

  /** A printed number is free of blanks, newlines and brackets. */
  lemma DecimalPlain(n: int)
    ensures Decimal(n) != ""
    ensures forall i | 0 <= i < |Decimal(n)| ::
              !IsSpace(Decimal(n)[i]) && Decimal(n)[i] != ']' && Decimal(n)[i] != '\n' && Decimal(n)[i] != '['
  {
    DigitsFacts(if n < 0 then -n else n);
    forall i | 0 <= i < |Decimal(n)|
      ensures !IsSpace(Decimal(n)[i]) && Decimal(n)[i] != ']' && Decimal(n)[i] != '\n' && Decimal(n)[i] != '['
    {
      DigitIsNotSpace(Decimal(n)[i]);
    }
  }

  lemma {:induction false} BlanksSkipped(blanks: string, t: string)
    requires forall i | 0 <= i < |blanks| :: IsSpace(blanks[i]) && blanks[i] != '\n'
    ensures SkipBlanks(blanks + t) == SkipBlanks(t)
  {
    if blanks == "" {
      assert blanks + t == t;
    } else {
      assert (blanks + t)[1..] == blanks[1..] + t;
      BlanksSkipped(blanks[1..], t);
    }
  }

  lemma {:induction false} DigitsThenRest(d: string, rest: string)
    requires AllDigits(d) && (rest == "" || !IsDigit(rest[0]))
    ensures LeadingDigits(d + rest) == d
  {
    if d == "" {
      assert d + rest == rest;
    } else {
      assert (d + rest)[1..] == d[1..] + rest;
      DigitsThenRest(d[1..], rest);
    }
  }

  lemma ScanBehindBlanks(blanks: string, t: string)
    requires forall i | 0 <= i < |blanks| :: IsSpace(blanks[i]) && blanks[i] != '\n'
    ensures ScanInt(blanks + t) == ScanInt(t)
  {
    BlanksSkipped(blanks, t);
  }

  lemma ScanUnsigned(t: string)
    requires t != "" && IsDigit(t[0])
    ensures var d := LeadingDigits(t); ScanInt(t) == if FitsInt(Value(d)) then Value(d) else 0
  {
    DigitIsNotSpace(t[0]);
    assert SkipBlanks(t) == t;
  }

  lemma ScanSigned(t: string)
    requires |t| > 1 && t[0] in {'-', '+'} && IsDigit(t[1])
    ensures var d := LeadingDigits(t[1..]);
            var v := if t[0] == '-' then 0 - Value(d) else Value(d);
            ScanInt(t) == if FitsInt(v) then v else 0
  {
    assert SkipBlanks(t) == t && t[1..][0] == t[1];
  }

  lemma StartsWithDigit(n: nat, rest: string)
    requires rest == "" || !IsDigit(rest[0])
    ensures var t := Decimal(n) + rest; t != "" && IsDigit(t[0]) && LeadingDigits(t) == Decimal(n)
    ensures AllDigits(Decimal(n)) && Value(Decimal(n)) == n
  {
    DigitsFacts(n);
    DigitsThenRest(Decimal(n), rest);
    assert (Decimal(n) + rest)[0] == Decimal(n)[0];
  }

  lemma ScanBehindSign(sign: string, n: nat, rest: string)
    requires sign in {"-", "+"} && (rest == "" || !IsDigit(rest[0]))
    ensures var v := if sign == "-" then 0 - n else n;
            ScanInt(sign + (Decimal(n) + rest)) == if FitsInt(v) then v else 0
  {
    var t := sign + (Decimal(n) + rest);
    StartsWithDigit(n, rest);
    assert t[1..] == Decimal(n) + rest && t[0] == sign[0];
    ScanSigned(t);
  }

  /** Scanning skips blanks, takes a sign and digits, and stops at whatever follows; a value that does not fit
      leaves the 0. */
  lemma ScanAround(blanks: string, sign: string, n: nat, rest: string)
    requires forall i | 0 <= i < |blanks| :: IsSpace(blanks[i]) && blanks[i] != '\n'
    requires sign in {"", "-", "+"} && (rest == "" || !IsDigit(rest[0]))
    ensures var v := if sign == "-" then 0 - n else n;
            ScanInt(blanks + (sign + (Decimal(n) + rest))) == if FitsInt(v) then v else 0
  {
    var t := Decimal(n) + rest;
    ScanBehindBlanks(blanks, sign + t);
    if sign == "" {
      StartsWithDigit(n, rest);
      ScanUnsigned(t);
      assert sign + t == t;
    } else {
      ScanBehindSign(sign, n, rest);
    }
  }

  lemma ScanPlain(n: nat)
    ensures ScanInt(Decimal(n)) == if FitsInt(n) then n else 0
  {
    StartsWithDigit(n, "");
    assert Decimal(n) + "" == Decimal(n);
    ScanUnsigned(Decimal(n));
  }

  lemma ScanMinus(n: nat)
    ensures ScanInt("-" + Decimal(n)) == if FitsInt(0 - n) then 0 - n else 0
  {
    assert Decimal(n) + "" == Decimal(n);
    ScanBehindSign("-", n, "");
  }

  /** Scanning reads back what printing wrote, for every machine int. */
  lemma ScanPrinted(n: GoInt)
    ensures ScanInt(Decimal(n)) == n
  {
    if n >= 0 {
      ScanPlain(n);
    } else {
      ScanMinus(0 - n as int);
    }
  }

  /** Without a digit at the front, a sign apart, the 0 is left. */
  lemma ScanNothing(blanks: string, rest: string)
    requires forall i | 0 <= i < |blanks| :: IsSpace(blanks[i]) && blanks[i] != '\n'
    requires rest == "" || rest[0] == '\n' || (!IsSpace(rest[0]) && !IsDigit(rest[0]))
    requires |rest| > 1 && rest[0] in {'-', '+'} ==> !IsDigit(rest[1])
    ensures ScanInt(blanks + rest) == 0
  {
    ScanBehindBlanks(blanks, rest);
  }
}
