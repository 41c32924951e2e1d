/** The port marker file `<config_dir>/port`: `write_port` stores the port as
    Rust's `format!("{port}")` prints a `u32`, and `read_port` reads it back
    with `trim_end()` followed by `u32::from_str`.  This module models the
    three text operations involved and proves that they round-trip. */
module PortMarker {
  import opened Results

  const U32_LIMIT := 0x1_0000_0000

  /** Rust's `u32`. */
  type u32 = x: int | 0 <= x < 0x1_0000_0000

  predicate IsDigit(c: char) {
    '0' <= c <= '9'
  }

  predicate AllDigits(s: string) {
    forall i :: 0 <= i < |s| ==> IsDigit(s[i])
  }

  function DigitValue(c: char): (d: nat)
    requires IsDigit(c)
    ensures d < 10
  {
    c as int - '0' as int
  }

  function DigitChar(d: nat): (c: char)
    requires d < 10
    ensures IsDigit(c) && DigitValue(c) == d
  {
    ('0' as int + d) as char
  }

  /** The number a string of decimal digits denotes, most significant digit
      first.  This is the reference meaning of decimal text. */
  function Value(s: string): nat
    requires AllDigits(s)
  {
    if s == [] then 0 else Value(s[..|s| - 1]) * 10 + DigitValue(s[|s| - 1])
  }

  /** Decimal text as `format!("{n}")` writes it: at least one digit, no
      sign, no leading zero except in "0" itself, no padding, no newline. */
  function Decimal(n: nat): (s: string)
    ensures s != [] && AllDigits(s)
    ensures (s[0] == '0') == (n == 0)
    ensures n == 0 ==> s == "0"
  {
    if n < 10 then [DigitChar(n)] else Decimal(n / 10) + [DigitChar(n % 10)]
  }

  /** Printing and then reading back the digits gives the number. */
  lemma {:induction false} ValueOfDecimal(n: nat)
    ensures Value(Decimal(n)) == n
  {
    var s := Decimal(n);
    if n < 10 {
      assert s[..|s| - 1] == [];
    } else {
      assert s[..|s| - 1] == Decimal(n / 10);
      ValueOfDecimal(n / 10);
    }
  }

  /** Digits without a superfluous leading zero. */
  predicate IsCanonical(s: string) {
    s != [] && AllDigits(s) && (s[0] == '0' ==> s == "0")
  }

  lemma {:induction false} ValuePositive(s: string)
    requires s != [] && AllDigits(s) && s[0] != '0'
    ensures Value(s) > 0
  {
    if |s| > 1 {
      ValuePositive(s[..|s| - 1]);
    }
  }

  /** The converse round trip: canonical digits are exactly what Decimal
      prints for their value, so Decimal and Value are mutually inverse. */
  lemma {:induction false} DecimalOfValue(s: string)
    requires IsCanonical(s)
    ensures Decimal(Value(s)) == s
  {
    if |s| > 1 {
      var p := s[..|s| - 1];
      var d := DigitValue(s[|s| - 1]);
      ValuePositive(p);
      DecimalOfValue(p);
      assert Value(s) == Value(p) * 10 + d;
      assert Value(s) / 10 == Value(p) && Value(s) % 10 == d;
      assert DigitChar(d) == s[|s| - 1];
      assert s == p + [s[|s| - 1]];
    } else {
      assert DigitChar(DigitValue(s[0])) == s[0];
    }
  }

  /** The left-to-right accumulation that the digit loop of `u32::from_str`
      performs, without its overflow checks. */
  function Fold(s: string, acc: nat): nat
    requires AllDigits(s)
  {
    if s == [] then acc else Fold(s[1..], acc * 10 + DigitValue(s[0]))
  }

  lemma {:induction false} FoldGrows(s: string, acc: nat)
    requires AllDigits(s)
    ensures Fold(s, acc) >= acc
  {
    if s != [] {
      FoldGrows(s[1..], acc * 10 + DigitValue(s[0]));
    }
  }

  lemma {:induction false} FoldSnoc(s: string, c: char, acc: nat)
    requires AllDigits(s) && IsDigit(c)
    ensures AllDigits(s + [c])
    ensures Fold(s + [c], acc) == Fold(s, acc) * 10 + DigitValue(c)
  {
    if s != [] {
      assert (s + [c])[1..] == s[1..] + [c];
      FoldSnoc(s[1..], c, acc * 10 + DigitValue(s[0]));
    } else {
      assert [c][1..] == [];
    }
  }

  /** The loop computes the positional value. */
  lemma {:induction false} FoldIsValue(s: string)
    requires AllDigits(s)
    ensures Fold(s, 0) == Value(s)
  {
    if s != [] {
      var p := s[..|s| - 1];
      FoldIsValue(p);
      FoldSnoc(p, s[|s| - 1], 0);
      assert p + [s[|s| - 1]] == s;
    }
  }

  /** The digit loop of `u32::from_str`, most significant digit first.  At
      each character the digit is checked before the multiplication and
      addition are checked for overflow, so an invalid character is only
      reported when no overflow happened before it. */
  function ParseDigits(s: string, acc: nat): Result<u32>
    requires acc < U32_LIMIT
    decreases |s|
  {
    if s == [] then Ok(acc)
    else if !IsDigit(s[0]) then Err(ParseInt(InvalidDigit))
    else if acc * 10 + DigitValue(s[0]) >= U32_LIMIT then Err(ParseInt(PosOverflow))
    else ParseDigits(s[1..], acc * 10 + DigitValue(s[0]))
  }

  lemma {:induction false} ParseDigitsCorrect(s: string, acc: nat)
    requires acc < U32_LIMIT
    ensures ParseDigits(s, acc).Ok? <==> AllDigits(s) && Fold(s, acc) < U32_LIMIT
    ensures ParseDigits(s, acc).Ok? ==> ParseDigits(s, acc).value == Fold(s, acc)
  {
    if s != [] && IsDigit(s[0]) {
      assert AllDigits(s) <==> AllDigits(s[1..]);
      var next := acc * 10 + DigitValue(s[0]);
      if AllDigits(s) {
        FoldGrows(s[1..], next);
      }
      if next < U32_LIMIT {
        ParseDigitsCorrect(s[1..], next);
      }
    }
  }

  /** The digits `u32::from_str` reads: one leading '+' is accepted and
      skipped; a '-' is not (it is then an invalid digit). */
  function Unsigned(s: string): string {
    if |s| > 0 && s[0] == '+' then s[1..] else s
  }

  /** The texts `u32::from_str` accepts: an optional '+', then one or more
      decimal digits (leading zeros allowed) whose value fits in 32 bits. */
  predicate IsU32Text(s: string) {
    var d := Unsigned(s);
    d != [] && AllDigits(d) && Value(d) < U32_LIMIT
  }

  /** `u32::from_str` on decimal text. */
  function ParseU32(s: string): (r: Result<u32>)
    ensures r.Ok? <==> IsU32Text(s)
    ensures r.Ok? ==> r.value == Value(Unsigned(s))
    ensures s == [] ==> r == Err(ParseInt(Empty))
  {
    if s == [] then Err(ParseInt(Empty))
    else if |s| == 1 && (s[0] == '+' || s[0] == '-') then Err(ParseInt(InvalidDigit))
    else
      var d := Unsigned(s);
      ParseDigitsCorrect(d, 0);
      if AllDigits(d) then FoldIsValue(d); ParseDigits(d, 0) else ParseDigits(d, 0)
  }

  /** Rust's `char::is_whitespace`: the Unicode White_Space property. */
  predicate IsWhitespace(c: char) {
    var n := c as int;
    (0x09 <= n <= 0x0D) || n == 0x20 || n == 0x85 || n == 0xA0 || n == 0x1680
    || (0x2000 <= n <= 0x200A) || n == 0x2028 || n == 0x2029 || n == 0x202F
    || n == 0x205F || n == 0x3000
  }

  /** `str::trim_end`: the longest prefix that does not end in whitespace,
      where everything cut off is whitespace. */
  function TrimEnd(s: string): (t: string)
    ensures t <= s
    ensures t == [] || !IsWhitespace(t[|t| - 1])
    ensures forall i :: |t| <= i < |s| ==> IsWhitespace(s[i])
  {
    if s != [] && IsWhitespace(s[|s| - 1]) then TrimEnd(s[..|s| - 1]) else s
  }

  /** The three properties of TrimEnd determine its result. */
  lemma TrimEndUnique(s: string, t: string)
    requires t <= s
    requires t == [] || !IsWhitespace(t[|t| - 1])
    requires forall i :: |t| <= i < |s| ==> IsWhitespace(s[i])
    ensures TrimEnd(s) == t
  {
  }

  /** `read_port`'s treatment of the port file's text. */
  function ParsePortText(text: string): (r: Result<u32>)
    ensures r.Ok? <==> IsU32Text(TrimEnd(text))
  {
    ParseU32(TrimEnd(text))
  }

  /** What `write_port` writes, `read_port` reads back: the port, for every
      u32, 0 included. */
  lemma PortRoundTrip(port: u32)
    ensures ParsePortText(Decimal(port)) == Ok(port)
  {
    var s := Decimal(port);
    TrimEndUnique(s, s);
    ValueOfDecimal(port);
  }

  /** Trailing whitespace, such as a newline added by an editor, does not
      change the port that is read back. */
  lemma PortRoundTripPadded(port: u32, pad: string)
    requires forall i :: 0 <= i < |pad| ==> IsWhitespace(pad[i])
    ensures ParsePortText(Decimal(port) + pad) == Ok(port)
  {
    var s := Decimal(port);
    assert !IsWhitespace(s[|s| - 1]);
    TrimEndUnique(s + pad, s);
    ValueOfDecimal(port);
  }

  /** Text that, once trailing whitespace is cut, holds a character
      that is neither a digit nor a leading '+' is refused. */
  lemma NonNumericRejected(text: string, i: nat)
    requires i < |TrimEnd(text)|
    requires !IsDigit(TrimEnd(text)[i])
    requires i > 0 || TrimEnd(text)[i] != '+'
    ensures ParsePortText(text).Err?
  {
  }

  /** Numbers of 2^32 and above are refused rather than wrapped. */
  lemma OverflowRejected(n: nat)
    requires n >= U32_LIMIT
    ensures ParsePortText(Decimal(n)).Err?
  {
    var s := Decimal(n);
    TrimEndUnique(s, s);
    ValueOfDecimal(n);
  }
}
