/** The text primitives that the level file reader and writer rely on:
    String.Split on one separator character, joining with that character,
    Int32.ToString, Int32.TryParse and float.TryParse (in the integer and
    plain decimal forms that the level files use). */
module Text {
  import opened Common

  /** String.Split(sep): every occurrence of the separator ends a piece, so
      the result has one piece more than the string has separators. */
  function Split(s: string, sep: char): (parts: seq<string>)
    ensures |parts| >= 1
  {
    if s == [] then [""]
    else
      var rest := Split(s[1..], sep);
      if s[0] == sep then [""] + rest
      else [[s[0]] + rest[0]] + rest[1..]
  }

  /** No piece of a split contains the separator. */
  lemma {:induction false} SplitExcludesSeparator(s: string, sep: char)
    ensures forall i :: 0 <= i < |Split(s, sep)| ==> sep !in Split(s, sep)[i]
  {
    if s != [] {
      SplitExcludesSeparator(s[1..], sep);
      var rest := Split(s[1..], sep);
      if s[0] != sep {
        assert sep !in rest[0];
        assert sep !in [s[0]] + rest[0];
      }
    }
  }

  /** String.Join(sep, parts). */
  function Join(parts: seq<string>, sep: char): string
  {
    if |parts| == 0 then ""
    else if |parts| == 1 then parts[0]
    else parts[0] + [sep] + Join(parts[1..], sep)
  }

  lemma {:induction false} SplitWithoutSeparator(w: string, sep: char)
    requires sep !in w
    ensures Split(w, sep) == [w]
  {
    if w != [] {
      SplitWithoutSeparator(w[1..], sep);
      assert [w[0]] + w[1..] == w;
    }
  }

  lemma {:induction false} SplitAfterPiece(w: string, rest: string, sep: char)
    requires sep !in w
    ensures Split(w + [sep] + rest, sep) == [w] + Split(rest, sep)
  {
    if w == [] {
      assert w + [sep] + rest == [sep] + rest;
      assert ([sep] + rest)[1..] == rest;
    } else {
      SplitAfterPiece(w[1..], rest, sep);
      assert (w + [sep] + rest)[1..] == w[1..] + [sep] + rest;
      assert [w[0]] + w[1..] == w;
    }
  }

  /** Splitting a joined line gives back its pieces, provided no piece
      contains the separator. */
  lemma {:induction false} SplitJoin(parts: seq<string>, sep: char)
    requires |parts| >= 1
    requires forall i :: 0 <= i < |parts| ==> sep !in parts[i]
    ensures Split(Join(parts, sep), sep) == parts
  {
    if |parts| == 1 {
      SplitWithoutSeparator(parts[0], sep);
    } else {
      SplitJoin(parts[1..], sep);
      SplitAfterPiece(parts[0], Join(parts[1..], sep), sep);
      assert [parts[0]] + parts[1..] == parts;
    }
  }

  // ---------------------------------------------------------------- digits

  predicate IsDigit(c: char) { '0' <= c <= '9' }

  predicate AllDigits(s: string) { forall i :: 0 <= i < |s| ==> IsDigit(s[i]) }

  function DigitValue(c: char): nat
    requires IsDigit(c)
  {
    (c as int - '0' as int) as nat
  }

  function DigitChar(d: nat): (c: char)
    requires d < 10
    ensures IsDigit(c) && DigitValue(c) == d
  {
    ('0' as int + d) as char
  }

  /** The value of a string of decimal digits, most significant first, or
      None when some character is not a digit. */
  function DigitsValue(s: string): (r: Option<nat>)
    decreases |s|
  {
    if s == [] then Some(0)
    else if !IsDigit(s[|s| - 1]) then None
    else match DigitsValue(s[..|s| - 1])
      case None => None
      case Some(v) => Some(v * 10 + DigitValue(s[|s| - 1]))
  }

  lemma {:induction false} DigitsValueDefined(s: string)
    ensures DigitsValue(s).Some? <==> AllDigits(s)
    decreases |s|
  {
    if s != [] {
      DigitsValueDefined(s[..|s| - 1]);
      if AllDigits(s[..|s| - 1]) && IsDigit(s[|s| - 1]) {
        forall i | 0 <= i < |s| ensures IsDigit(s[i]) {
          if i < |s| - 1 {
            assert s[i] == s[..|s| - 1][i];
          }
        }
      }
      if AllDigits(s) {
        assert forall i :: 0 <= i < |s| - 1 ==> s[..|s| - 1][i] == s[i];
      }
    }
  }

  /** The decimal digits of n, with no leading zeros. */
  function NatToString(n: nat): (s: string)
    ensures |s| >= 1 && AllDigits(s)
    decreases n
  {
    if n < 10 then [DigitChar(n)] else NatToString(n / 10) + [DigitChar(n % 10)]
  }

  /** Int32.ToString() in the invariant culture: a minus sign for negative
      values, then the digits of the magnitude. */
  function IntToString(n: int): (s: string)
    ensures |s| >= 1 && (s[0] == '-' <==> n < 0)
  {
    if n < 0 then "-" + NatToString(-n) else NatToString(n)
  }

  lemma {:induction false} NatToStringValue(n: nat)
    ensures DigitsValue(NatToString(n)) == Some(n)
    decreases n
  {
    var s := NatToString(n);
    if n >= 10 {
      NatToStringValue(n / 10);
      assert s[..|s| - 1] == NatToString(n / 10);
    }
  }

  // ------------------------------------------------------------- parsing

  /** The characters that the .NET number parsers accept around a number. */
  predicate IsWhite(c: char) { c == ' ' || '\t' <= c <= '\r' }

  function TrimStart(s: string): (t: string)
    ensures |t| <= |s| && (t == [] || !IsWhite(t[0]))
  {
    if s != [] && IsWhite(s[0]) then TrimStart(s[1..]) else s
  }

  function TrimEnd(s: string): (t: string)
    ensures |t| <= |s| && (t == [] || !IsWhite(t[|t| - 1]))
    decreases |s|
  {
    if s != [] && IsWhite(s[|s| - 1]) then TrimEnd(s[..|s| - 1]) else s
  }

  function Trim(s: string): string { TrimEnd(TrimStart(s)) }

  const Int32Min := -0x8000_0000
  const Int32Max := 0x7FFF_FFFF

  predicate IsInt32(n: int) { Int32Min <= n <= Int32Max }

  /** Int32.TryParse with NumberStyles.Integer: surrounding white space, an
      optional sign, at least one decimal digit, and a value that fits in a
      32-bit signed integer. */
  function ParseInt(s: string): (r: Option<int>)
    ensures r.Some? ==> IsInt32(r.value)
  {
    var t := Trim(s);
    var negative := |t| > 0 && t[0] == '-';
    var digits := if |t| > 0 && (t[0] == '-' || t[0] == '+') then t[1..] else t;
    if |digits| == 0 then None
    else match DigitsValue(digits)
      case None => None
      case Some(magnitude) =>
        var v: int := if negative then 0 - magnitude as int else magnitude;
        if IsInt32(v) then Some(v) else None
  }

  /** float.TryParse on the plain decimal forms: surrounding white space, an
      optional sign, digits with at most one decimal point, and at least one
      digit. */
  function ParseReal(s: string): (r: Option<real>)
    ensures r.Some? ==> |Trim(s)| >= 1
    ensures r.Some? && r.value < 0.0 ==> Trim(s)[0] == '-'
  {
    var t := Trim(s);
    var negative := |t| > 0 && t[0] == '-';
    var body := if |t| > 0 && (t[0] == '-' || t[0] == '+') then t[1..] else t;
    match DecimalValue(body)
    case None => None
    case Some(v) => Some(if negative then -v else v)
  }

  /** The value 0.d1d2...dk of the digits d1 d2 ... dk after a decimal
      point, or None when some character is not a digit. */
  function FractionValue(s: string): (r: Option<real>)
    ensures r.Some? ==> 0.0 <= r.value <= 1.0
    decreases |s|
  {
    if s == [] then Some(0.0)
    else if !IsDigit(s[0]) then None
    else match FractionValue(s[1..])
      case None => None
      case Some(v) => Some((DigitValue(s[0]) as real + v) / 10.0)
  }

  /** The index of the first '.' in s, or |s| when there is none. */
  function PointIndex(s: string): (i: nat)
    ensures i <= |s|
    decreases |s|
  {
    if s == [] then 0 else if s[0] == '.' then 0 else PointIndex(s[1..]) + 1
  }

  /** The value of digits with an optional decimal point. */
  function DecimalValue(body: string): Option<real>
  {
    var i := PointIndex(body);
    var whole := DigitsValue(body[..i]);
    if i == |body| then
      if i == 0 || whole.None? then None else Some(whole.value as real)
    else
      var fraction := FractionValue(body[i + 1..]);
      if |body| == 1 || whole.None? || fraction.None? then None
      else Some(whole.value as real + fraction.value)
  }

  lemma TrimNumeral(s: string)
    requires |s| >= 1 && !IsWhite(s[0]) && !IsWhite(s[|s| - 1])
    ensures Trim(s) == s
  {
  }

  lemma {:induction false} ParseIntToString(n: int)
    requires IsInt32(n)
    ensures ParseInt(IntToString(n)) == Some(n)
  {
    var s := IntToString(n);
    var m: nat := if n < 0 then -n else n;
    NatToStringValue(m);
    TrimNumeral(s);
    if n < 0 {
      assert s[1..] == NatToString(m);
    }
  }

  lemma {:induction false} ParseRealOfIntString(n: int)
    ensures ParseReal(IntToString(n)) == Some(n as real)
  {
    var s := IntToString(n);
    var m: nat := if n < 0 then -n else n;
    NatToStringValue(m);
    TrimNumeral(s);
    var body := NatToString(m);
    if n < 0 {
      assert s[1..] == body;
    }
    PointIndexOfDigits(body);
    assert body[..|body|] == body;
  }

  lemma {:induction false} PointIndexOfDigits(s: string)
    requires AllDigits(s)
    ensures PointIndex(s) == |s|
    decreases |s|
  {
    if s != [] {
      assert IsDigit(s[0]);
      PointIndexOfDigits(s[1..]);
    }
  }

  /** A printed integer never contains a space, so it stays one piece of
      a split line. */
  lemma IntToStringNoSpace(n: int)
    ensures ' ' !in IntToString(n)
  {
    var digits := NatToString(if n < 0 then -n else n);
    assert forall i :: 0 <= i < |digits| ==> IsDigit(digits[i]);
  }
}
