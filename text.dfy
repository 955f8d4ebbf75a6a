/** Stand-ins for two parts of Go's standard library that the keyboard
    formatters call: strings.Join and the decimal rendering of fmt's %d verb.
    Each comes with the inverse that shows the rendering loses nothing
    (strings.Split for Join, a decimal parser for %d). The conversion of a
    code to a one-character string is written inline in Keyboard. */
module Text {

  datatype Option<+T> = None | Some(value: T)

  /** strings.Join: the parts in order with `sep` between neighbours; no parts
      give the empty string. */
  function Join(parts: seq<string>, sep: string): string
  {
    if |parts| == 0 then ""
    else if |parts| == 1 then parts[0]
    else parts[0] + sep + Join(parts[1..], sep)
  }

  /** strings.Split with a one-character separator: the maximal pieces of `s`
      between occurrences of `sep`. There is always at least one piece, and no
      piece contains the separator. */
  function Split(s: string, sep: char): (r: seq<string>)
    ensures |r| >= 1
    ensures forall i :: 0 <= i < |r| ==> sep !in r[i]
  {
    if s == [] then [""]
    else
      var rest := Split(s[1..], sep);
      if s[0] == sep then [""] + rest
      else [[s[0]] + rest[0]] + rest[1..]
  }

  lemma {:induction false} SplitNoSeparator(p: string, sep: char)
    requires sep !in p
    ensures Split(p, sep) == [p]
  {
    if p != [] {
      SplitNoSeparator(p[1..], sep);
      assert [p[0]] + p[1..] == p;
    }
  }

  lemma {:induction false} SplitAfterPiece(p: string, t: string, sep: char)
    requires sep !in p
    ensures Split(p + [sep] + t, sep) == [p] + Split(t, sep)
  {
    var s := p + [sep] + t;
    if p == [] {
      assert s[1..] == t;
    } else {
      assert s[1..] == p[1..] + [sep] + t;
      SplitAfterPiece(p[1..], t, sep);
      assert [p[0]] + p[1..] == p;
    }
  }

  /** Splitting what Join produced gives the parts back, provided no part
      contains the separator and there is at least one part. */
  lemma {:induction false} SplitJoin(parts: seq<string>, sep: char)
    requires |parts| >= 1
    requires forall i :: 0 <= i < |parts| ==> sep !in parts[i]
    ensures Split(Join(parts, [sep]), sep) == parts
  {
    if |parts| == 1 {
      SplitNoSeparator(parts[0], sep);
    } else {
      SplitAfterPiece(parts[0], Join(parts[1..], [sep]), sep);
      SplitJoin(parts[1..], sep);
      assert [parts[0]] + parts[1..] == parts;
    }
  }

  predicate IsDigit(c: char)
  {
    '0' <= c <= '9'
  }

  predicate AllDigits(s: string)
  {
    forall i :: 0 <= i < |s| ==> IsDigit(s[i])
  }

  function DigitChar(d: int): (c: char)
    requires 0 <= d < 10
    ensures IsDigit(c) && c as int - '0' as int == d
  {
    ('0' as int + d) as char
  }

  /** The decimal digits of `n`, most significant first, without leading zeros. */
  function NatToDecimal(n: nat): (r: string)
    ensures |r| >= 1 && AllDigits(r)
    ensures r[0] == '0' ==> n == 0 && r == "0"
    decreases n
  {
    if n < 10 then [DigitChar(n)]
    else NatToDecimal(n / 10) + [DigitChar(n % 10)]
  }

  /** fmt's %d of an integer: a minus sign for negative values, then the
      digits of the magnitude. */
  function IntToDecimal(i: int): (r: string)
    ensures |r| >= 1
    ensures r[0] == '-' <==> i < 0
    ensures AllDigits(r[1..])
    ensures i >= 0 ==> AllDigits(r)
    ensures i < 0 ==> |r| >= 2 && r[1] != '0'
    ensures i > 0 ==> r[0] != '0'
    ensures i == 0 ==> r == "0"
  {
    if i < 0 then "-" + NatToDecimal(-i) else NatToDecimal(i)
  }

  /** The value of a string of decimal digits (the empty string reads as 0). */
  function ParseNat(s: string): nat
    requires AllDigits(s)
  {
    if s == [] then 0
    else ParseNat(s[..|s| - 1]) * 10 + (s[|s| - 1] as int - '0' as int)
  }

  /** Reads back an optionally negative decimal integer; anything else is None. */
  function ParseDecimal(s: string): Option<int>
  {
    if |s| >= 2 && s[0] == '-' && AllDigits(s[1..]) then Some(0 - ParseNat(s[1..]) as int)
    else if |s| >= 1 && AllDigits(s) then Some(ParseNat(s))
    else None
  }

  lemma {:induction false} ParseNatDecimal(n: nat)
    ensures ParseNat(NatToDecimal(n)) == n
  {
    if n >= 10 {
      var r := NatToDecimal(n);
      assert r[..|r| - 1] == NatToDecimal(n / 10);
      ParseNatDecimal(n / 10);
    }
  }

  /** The decimal rendering of every integer reads back as that integer, so
      two distinct integers never render alike. */
  lemma ParseDecimalRoundTrip(i: int)
    ensures ParseDecimal(IntToDecimal(i)) == Some(i)
  {
    if i < 0 {
      var d := NatToDecimal(-i);
      assert ("-" + d)[1..] == d;
      ParseNatDecimal(-i);
    } else {
      var d := NatToDecimal(i);
      assert IsDigit(d[0]);
      ParseNatDecimal(i);
    }
  }

  lemma IntToDecimalInjective(i: int, j: int)
    requires IntToDecimal(i) == IntToDecimal(j)
    ensures i == j
  {
    ParseDecimalRoundTrip(i);
    ParseDecimalRoundTrip(j);
  }

  /** The renderings fmt's %d gives for a few values. */
  lemma DecimalSamples()
    ensures IntToDecimal(38) == "38"
    ensures IntToDecimal(97) == "97"
    ensures IntToDecimal(9999) == "9999"
    ensures IntToDecimal(-1) == "-1"
  {
    assert NatToDecimal(3) == "3";
    assert NatToDecimal(9) == "9";
    assert NatToDecimal(99) == "99";
    assert NatToDecimal(999) == "999";
  }
}
