/**
  Decimal numerals as Go formats and parses them: `fmt.Sprintf("%d", n)`, `strconv.Atoi` and
  `fmt.Sscanf(s, "%d", &n)`.
 */
module Decimal {
  import opened Options

  const MIN_INT64 := -0x8000_0000_0000_0000
  const MAX_INT64 := 0x7fff_ffff_ffff_ffff

  predicate IsDigit(c: char) { '0' <= c <= '9' }

  function Digit(d: nat): char
    requires d < 10
  {
    '0' + d as char
  }

  function DigitValue(c: char): nat
    requires IsDigit(c)
  {
    (c - '0') as nat
  }

  function ShowNat(n: nat): string {
    if n < 10 then [Digit(n)] else ShowNat(n / 10) + [Digit(n % 10)]
  }

  function Show(n: int): string { if n < 0 then "-" + ShowNat(-n) else ShowNat(n) }

  predicate AllDigits(s: string) { forall i | 0 <= i < |s| :: IsDigit(s[i]) }

  function NatOf(s: string): nat
    requires AllDigits(s)
  {
    if s == "" then 0 else 10 * NatOf(s[..|s| - 1]) + DigitValue(s[|s| - 1])
  }

  /** The longest prefix of digits. */
  function Leading(s: string): (d: string)
    ensures AllDigits(d) && d <= s && (|d| < |s| ==> !IsDigit(s[|d|]))
  {
    if s == "" || !IsDigit(s[0]) then "" else [s[0]] + Leading(s[1..])
  }

  function InInt64(n: int): Option<int> { if MIN_INT64 <= n <= MAX_INT64 then Some(n) else None }

  function Signed(s: string): (bool, string) {
    if s != "" && (s[0] == '-' || s[0] == '+') then (s[0] == '-', s[1..]) else (false, s)
  }

  function Value(negative: bool, n: int): int { if negative then -n else n }

  /** Base-10 conversion of a whole string. */
  function Atoi(s: string): Option<int> {
    var (negative, digits) := Signed(s);
    if digits == "" || !AllDigits(digits) then None
    else InInt64(Value(negative, NatOf(digits)))
  }

  predicate IsBlank(c: char) { c == ' ' || c == '\t' || c == '\r' || c as int == 11 || c as int == 12 }

  function SkipBlanks(s: string): string {
    if s != "" && IsBlank(s[0]) then SkipBlanks(s[1..]) else s
  }

  /** Scanning `%d`: blanks are skipped, a newline is an error, and whatever follows the digits is ignored. */
  function Scan(s: string): Option<int> {
    var (negative, rest) := Signed(SkipBlanks(s));
    var digits := Leading(rest);
    if digits == "" then None
    else InInt64(Value(negative, NatOf(digits)))
  }

  // ----- reading back what was written

  lemma {:induction false} ShowNatIsDigits(n: nat)
    ensures ShowNat(n) != "" && AllDigits(ShowNat(n)) && NatOf(ShowNat(n)) == n
  {
    if n >= 10 {
      ShowNatIsDigits(n / 10);
      var s := ShowNat(n);
      assert s[..|s| - 1] == ShowNat(n / 10);
    } else {
      assert ShowNat(n)[..0] == "";
    }
  }

  lemma {:induction false} LeadingOfDigits(s: string)
    requires AllDigits(s)
    ensures Leading(s) == s
  {
    if s != "" {
      LeadingOfDigits(s[1..]);
    }
  }

  function WithSign(negative: bool, digits: string): string { if negative then "-" + digits else digits }

  lemma SignSplits(negative: bool, digits: string)
    requires digits != "" && AllDigits(digits)
    ensures Signed(WithSign(negative, digits)) == (negative, digits)
  {
    assert ("-" + digits)[1..] == digits;
  }

  lemma NothingToSkip(negative: bool, digits: string)
    requires digits != "" && AllDigits(digits)
    ensures SkipBlanks(WithSign(negative, digits)) == WithSign(negative, digits)
  {
    assert IsDigit(digits[0]);
  }

  /** A signed string of digits means the same number whether it is read whole or scanned. */
  lemma ParseSigned(negative: bool, digits: string)
    requires digits != "" && AllDigits(digits)
    ensures Atoi(WithSign(negative, digits)) == InInt64(Value(negative, NatOf(digits)))
    ensures Scan(WithSign(negative, digits)) == InInt64(Value(negative, NatOf(digits)))
  {
    SignSplits(negative, digits);
    NothingToSkip(negative, digits);
    LeadingOfDigits(digits);
  }

  /** Both parsers read back every int64 numeral. */
  lemma ParsersReadBack(n: int)
    requires MIN_INT64 <= n <= MAX_INT64
    ensures Atoi(Show(n)) == Some(n) && Scan(Show(n)) == Some(n)
  {
    var m := if n < 0 then -n else n;
    ShowNatIsDigits(m);
    ParseSigned(n < 0, ShowNat(m));
  }

  /** Whenever a whole string converts, scanning it gives the same number. */
  lemma ScanExtendsAtoi(s: string)
    requires Atoi(s).Some?
    ensures Scan(s) == Atoi(s)
  {
    LeadingOfDigits(Signed(s).1);
  }

  /** The parsers part where something follows the digits: scanning stops there, converting the whole string fails. Leading
      blanks likewise only stop the second. */
  lemma OnlyScanIsLenient(n: int, rest: string)
    requires MIN_INT64 <= n <= MAX_INT64 && rest != "" && !IsDigit(rest[0])
    ensures Scan(Show(n) + rest) == Some(n) && Atoi(Show(n) + rest) == None
    ensures Scan(" " + Show(n)) == Some(n) && Atoi(" " + Show(n)) == None
  {
    var negative, digits := n < 0, ShowNat(if n < 0 then -n else n);
    ShowNatIsDigits(if n < 0 then -n else n);
    assert Show(n) == WithSign(negative, digits);
    ParsersReadBack(n);
    ScanStops(negative, digits, rest);
    BlankFirst(Show(n));
  }

  lemma BlankFirst(s: string)
    ensures Scan(" " + s) == Scan(s) && Atoi(" " + s) == None
  {
    var t := " " + s;
    assert t[0] == ' ' && t[1..] == s;
    assert SkipBlanks(t) == SkipBlanks(s);
    assert Signed(t) == (false, t);
  }

  lemma ScanStops(negative: bool, digits: string, rest: string)
    requires digits != "" && AllDigits(digits) && rest != "" && !IsDigit(rest[0])
    ensures Scan(WithSign(negative, digits) + rest) == InInt64(Value(negative, NatOf(digits)))
    ensures Atoi(WithSign(negative, digits) + rest) == None
  {
    var s := WithSign(negative, digits) + rest;
    assert IsDigit(digits[0]) && s[0] == (if negative then '-' else digits[0]);
    assert SkipBlanks(s) == s;
    assert Signed(s) == (negative, digits + rest) by {
      if negative { assert s[1..] == digits + rest; }
    }
    LeadingStops(digits, rest);
    assert (digits + rest)[|digits|] == rest[0];
  }

  lemma {:induction false} LeadingStops(digits: string, rest: string)
    requires AllDigits(digits) && rest != "" && !IsDigit(rest[0])
    ensures Leading(digits + rest) == digits
  {
    if digits == "" {
      assert digits + rest == rest;
    } else {
      assert (digits + rest)[1..] == digits[1..] + rest;
      LeadingStops(digits[1..], rest);
    }
  }
}
