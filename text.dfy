/** Decimal text: std::to_string on integers, std::stoi, the strtod-based number
    test of the PUMS record classes, ASCII lower-casing and token splitting. */
module Text {
  import opened Wrappers

  predicate IsDigit(c: char) { '0' <= c <= '9' }

  function DigitValue(c: char): (d: nat)
    requires IsDigit(c)
    ensures d < 10
  {
    (c as int - '0' as int) as nat
  }

  function DigitChar(d: nat): (c: char)
    requires d < 10
    ensures IsDigit(c) && DigitValue(c) == d
  {
    (d + '0' as int) as char
  }

  predicate AllDigits(s: string) { forall i :: 0 <= i < |s| ==> IsDigit(s[i]) }

  /** The value of a non-empty run of decimal digits. */
  function DigitsValue(s: string): nat
    requires AllDigits(s)
  {
    if |s| == 0 then 0 else DigitsValue(s[..|s| - 1]) * 10 + DigitValue(s[|s| - 1])
  }

  /** std::to_string of a non-negative integer. */
  function NatToString(n: nat): (s: string)
    ensures |s| > 0 && AllDigits(s)
    ensures DigitsValue(s) == n
  {
    if n < 10 then [DigitChar(n)]
    else
      var s := NatToString(n / 10) + [DigitChar(n % 10)];
      assert s[..|s| - 1] == NatToString(n / 10);
      s
  }

  /** std::to_string of an integer ("-" followed by the digits of its magnitude). */
  function IntToString(i: int): (s: string)
    ensures |s| > 0
    ensures i >= 0 ==> AllDigits(s) && DigitsValue(s) == i
    ensures i < 0 ==> s[0] == '-' && AllDigits(s[1..]) && DigitsValue(s[1..]) == -i
  {
    if i >= 0 then NatToString(i) else "-" + NatToString(-i)
  }

  predicate IsSpace(c: char) { c == ' ' || c == '\t' || c == '\n' || c == '\r' || c == 11 as char || c == 12 as char }

  function ApplySign(negative: bool, v: nat): int
  {
    if negative then 0 - v as int else v
  }

  /** Where strtol is in reading an integer: before it (white space may still be
      skipped), just after its sign, or inside its digits. */
  datatype IntScan = IntStart | IntSign(negative: bool) | IntDigits(negative: bool, value: nat)

  /** std::stoi: leading white space, an optional sign and at least one digit;
      None where std::stoi throws std::invalid_argument (no digits).
      Values beyond the range of int (std::out_of_range) are not modelled. */
  function ParseInt(s: string): (r: Option<int>)
  {
    ScanInt(s, IntStart)
  }

  /** The integer scan, one character at a time; the first character that cannot
      continue the number ends it. */
  function ScanInt(s: string, st: IntScan): (r: Option<int>)
    decreases |s|
  {
    if |s| == 0 then (if st.IntDigits? then Some(ApplySign(st.negative, st.value)) else None)
    else
      var c, rest := s[0], s[1..];
      match st
      case IntStart =>
        if IsSpace(c) then ScanInt(rest, IntStart)
        else if c == '-' || c == '+' then ScanInt(rest, IntSign(c == '-'))
        else if IsDigit(c) then ScanInt(rest, IntDigits(false, DigitValue(c)))
        else None
      case IntSign(negative) =>
        if IsDigit(c) then ScanInt(rest, IntDigits(negative, DigitValue(c))) else None
      case IntDigits(negative, v) =>
        if IsDigit(c) then ScanInt(rest, IntDigits(negative, v * 10 + DigitValue(c))) else Some(ApplySign(negative, v))
  }

  /** Reading on through the digits t after the digits p gives the value of p + t. */
  lemma {:induction false} ScanIntDigits(p: string, t: string, negative: bool)
    requires AllDigits(p) && AllDigits(t)
    ensures ScanInt(t, IntDigits(negative, DigitsValue(p))) == Some(ApplySign(negative, DigitsValue(p + t)))
    decreases |t|
  {
    if |t| == 0 {
      assert p + t == p;
    } else {
      var q := p + [t[0]];
      assert q[..|q| - 1] == p;
      assert q + t[1..] == p + t;
      ScanIntDigits(q, t[1..], negative);
    }
  }

  /** std::stoi(std::to_string(i)) == i: the string keys the simulation builds from
      integers read back to the same integers. */
  lemma ParseIntOfIntToString(i: int)
    ensures ParseInt(IntToString(i)) == Some(i)
  {
    var d := NatToString(if i >= 0 then i else -i);
    var first := [d[0]];
    assert first[..0] == [] && first + d[1..] == d;
    ScanIntDigits(first, d[1..], i < 0);
    if i < 0 {
      var s := IntToString(i);
      assert s[0] == '-' && s[1..] == d;
      assert ScanInt(s, IntStart) == ScanInt(d, IntSign(true));
    }
  }

  /** The value of a run of fractional digits d1 d2 ...: 0.d1d2... */
  function FractionValue(ds: seq<nat>): real
  {
    if |ds| == 0 then 0.0 else (ds[0] as real + FractionValue(ds[1..])) / 10.0
  }

  /** Where strtod is in reading a decimal number: before it, just after its sign,
      in its whole digits, or after its point (with the fractional digits read and
      whether any whole digit came before the point). */
  datatype DecimalScan = DecStart | DecSign(negative: bool) | DecWhole(negative: bool, whole: nat)
                       | DecFraction(negative: bool, whole: nat, wholeDigits: bool, fraction: seq<nat>)

  /** The decimal number strtod reads at the start of a string: optional white space,
      an optional sign and digits with an optional fractional part, at least one
      digit in all. Exponents, hexadecimal, "inf" and "nan" are not modelled. */
  function DecimalPrefix(s: string): (r: Option<real>)
  {
    ScanDecimal(s, DecStart)
  }

  /** The number read so far, when there is one. */
  function DecimalEnd(st: DecimalScan): Option<real>
  {
    match st
    case DecWhole(negative, whole) => Some(if negative then -(whole as real) else whole as real)
    case DecFraction(negative, whole, wholeDigits, fraction) =>
      if !wholeDigits && |fraction| == 0 then None
      else
        var magnitude := whole as real + FractionValue(fraction);
        Some(if negative then -magnitude else magnitude)
    case _ => None
  }

  /** The decimal scan, one character at a time. */
  function ScanDecimal(s: string, st: DecimalScan): (r: Option<real>)
    decreases |s|
  {
    if |s| == 0 then DecimalEnd(st)
    else
      var c, rest := s[0], s[1..];
      match st
      case DecStart =>
        if IsSpace(c) then ScanDecimal(rest, DecStart)
        else if c == '-' || c == '+' then ScanDecimal(rest, DecSign(c == '-'))
        else if IsDigit(c) then ScanDecimal(rest, DecWhole(false, DigitValue(c)))
        else if c == '.' then ScanDecimal(rest, DecFraction(false, 0, false, []))
        else None
      case DecSign(negative) =>
        if IsDigit(c) then ScanDecimal(rest, DecWhole(negative, DigitValue(c)))
        else if c == '.' then ScanDecimal(rest, DecFraction(negative, 0, false, []))
        else None
      case DecWhole(negative, whole) =>
        if IsDigit(c) then ScanDecimal(rest, DecWhole(negative, whole * 10 + DigitValue(c)))
        else if c == '.' then ScanDecimal(rest, DecFraction(negative, whole, true, []))
        else DecimalEnd(st)
      case DecFraction(negative, whole, wholeDigits, fraction) =>
        if IsDigit(c) then ScanDecimal(rest, DecFraction(negative, whole, wholeDigits, fraction + [DigitValue(c)]))
        else DecimalEnd(st)
  }

  /** Reading on through the digits t after the whole digits p gives the value of p + t. */
  lemma {:induction false} ScanDecimalDigits(p: string, t: string, negative: bool)
    requires AllDigits(p) && AllDigits(t)
    ensures ScanDecimal(t, DecWhole(negative, DigitsValue(p))) == Some(ApplySign(negative, DigitsValue(p + t)) as real)
    decreases |t|
  {
    if |t| == 0 {
      assert p + t == p;
    } else {
      var q := p + [t[0]];
      assert q[..|q| - 1] == p;
      assert q + t[1..] == p + t;
      ScanDecimalDigits(q, t[1..], negative);
    }
  }

  /** strtod reads back the text std::to_string writes for an integer. */
  lemma DecimalOfIntToString(i: int)
    ensures DecimalPrefix(IntToString(i)) == Some(i as real)
  {
    var d := NatToString(if i >= 0 then i else -i);
    var first := [d[0]];
    assert first[..0] == [] && first + d[1..] == d;
    ScanDecimalDigits(first, d[1..], i < 0);
    if i < 0 {
      var s := IntToString(i);
      assert s[0] == '-' && s[1..] == d;
      assert ScanDecimal(s, DecStart) == ScanDecimal(d, DecSign(true));
    }
  }

  /** PersonPums::to_number<int> / HouseholdPums::to_number<int>: -1 unless strtod
      accepts a prefix; then the integer prefix read by operator>>, 0 when there is
      none (".5" passes strtod but holds no integer). */
  function ToNumberInt(s: string): (r: int)
    ensures DecimalPrefix(s).None? ==> r == -1
    ensures DecimalPrefix(s).Some? ==> r == ParseInt(s).GetOr(0)
  {
    if |s| == 0 || DecimalPrefix(s).None? then -1
    else
      match ParseInt(s)
      case Some(v) => v
      case None => 0
  }

  /** PersonPums::to_number<double> / HouseholdPums::to_number<double>: -1 unless
      strtod accepts a prefix, and then the decimal number operator>> reads there. */
  function ToNumberReal(s: string): (r: real)
    ensures DecimalPrefix(s).None? ==> r == -1.0
    ensures DecimalPrefix(s).Some? ==> r == DecimalPrefix(s).value
  {
    if |s| == 0 then -1.0
    else
      match DecimalPrefix(s)
      case Some(v) => v
      case None => -1.0
  }

  /** to_number<int> reads back what std::to_string wrote; text without a number
      gives the sentinel -1. */
  lemma ToNumberIntOfIntToString(i: int)
    ensures ToNumberInt(IntToString(i)) == i
  {
    ParseIntOfIntToString(i);
    DecimalOfIntToString(i);
  }

  lemma ToNumberIntOfLetters(s: string)
    requires |s| > 0 && 'A' <= s[0] <= 'Z'
    ensures ToNumberInt(s) == -1
  {
  }

  /** The C library tolower on ASCII letters; other characters unchanged. */
  function ToLower(s: string): (r: string)
    ensures |r| == |s|
    ensures forall i :: 0 <= i < |s| ==>
      r[i] == (if 'A' <= s[i] <= 'Z' then (s[i] as int + 32) as char else s[i])
  {
    if |s| == 0 then [] else ToLower(s[..|s| - 1]) + [if 'A' <= s[|s| - 1] <= 'Z' then (s[|s| - 1] as int + 32) as char else s[|s| - 1]]
  }

  /** The last field of boost::split on a separator: everything after the last
      occurrence of sep (the whole string when sep does not occur). */
  function LastField(s: string, sep: char): (r: string)
    ensures |r| <= |s| && r == s[|s| - |r|..]
    ensures sep !in r
    ensures |r| < |s| ==> s[|s| - |r| - 1] == sep
  {
    if |s| == 0 then []
    else if s[|s| - 1] == sep then []
    else LastField(s[..|s| - 1], sep) + [s[|s| - 1]]
  }

  /** boost::char_separator tokens: the maximal runs not containing sep (empty
      tokens are dropped). */
  function Tokens(s: string, sep: char): (r: seq<string>)
    ensures forall i :: 0 <= i < |r| ==> |r[i]| > 0 && sep !in r[i]
  {
    TokensFrom(s, sep, [])
  }

  function TokensFrom(s: string, sep: char, cur: string): (r: seq<string>)
    requires sep !in cur
    ensures forall i :: 0 <= i < |r| ==> |r[i]| > 0 && sep !in r[i]
    decreases |s|
  {
    if |s| == 0 then (if |cur| > 0 then [cur] else [])
    else if s[0] == sep then (if |cur| > 0 then [cur] else []) + TokensFrom(s[1..], sep, [])
    else TokensFrom(s[1..], sep, cur + [s[0]])
  }

  /** A run of characters without the separator extends the token being read. */
  lemma {:induction false} TokensFromRun(s: string, rest: string, sep: char, cur: string)
    requires sep !in s && sep !in cur
    ensures TokensFrom(s + rest, sep, cur) == TokensFrom(rest, sep, cur + s)
    decreases |s|
  {
    if |s| > 0 {
      assert (s + rest)[0] == s[0];
      assert (s + rest)[1..] == s[1..] + rest;
      TokensFromRun(s[1..], rest, sep, cur + [s[0]]);
      assert cur + [s[0]] + s[1..] == cur + s;
    } else {
      assert s + rest == rest;
      assert cur + s == cur;
    }
  }

  /** A leading token followed by the separator comes off the front. */
  lemma TokensCons(a: string, rest: string, sep: char)
    requires |a| > 0 && sep !in a
    ensures Tokens(a + [sep] + rest, sep) == [a] + Tokens(rest, sep)
  {
    TokensFromRun(a, [sep] + rest, sep, []);
    assert a + [sep] + rest == a + ([sep] + rest);
    assert [] + a == a;
    assert ([sep] + rest)[1..] == rest;
  }

  /** A run without the separator is a single token. */
  lemma TokensOfOne(a: string, sep: char)
    requires |a| > 0 && sep !in a
    ensures Tokens(a, sep) == [a]
  {
    TokensFromRun(a, [], sep, []);
    assert a + [] == a;
    assert [] + a == a;
  }

  /** std::stod: the decimal number at the start of the text, std::invalid_argument
      when there is none. */
  function Stod(s: string): (r: Result<real>)
  {
    match DecimalPrefix(s)
    case Some(v) => Success(v)
    case None => Fail(NotANumber(s))
  }

  /** std::stoi, with std::invalid_argument as a failure. */
  function Stoi(s: string): (r: Result<int>)
  {
    match ParseInt(s)
    case Some(v) => Success(v)
    case None => Fail(NotANumber(s))
  }

  /** std::stod reads back the decimal text of a count, std::stoi the text of any
      integer: the string-valued estimate tables hold exactly these. */
  lemma StodOfNatToString(n: nat)
    ensures Stod(NatToString(n)) == Success(n as real)
  {
    DecimalOfIntToString(n);
  }

  lemma StoiOfIntToString(i: int)
    ensures Stoi(IntToString(i)) == Success(i)
  {
    ParseIntOfIntToString(i);
  }
}
