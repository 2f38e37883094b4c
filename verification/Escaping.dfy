/** Percent escaping, and why escaped fields can be told apart again. */
module Escaping {
  import opened Schemes

  const DIGITS: Text := "0123456789ABCDEF"

  function HexDigit(n: nat): Byte
    requires n < 16
  {
    DIGITS[n]
  }

  function FromHex(c: Byte): nat {
    if '0' <= c <= '9' then c as int - '0' as int
    else if 'A' <= c <= 'F' then c as int - 'A' as int + 10
    else 0
  }

  predicate Printable(b: Byte) { 0x21 <= b as int <= 0x7e }

  function EscapeByte(b: Byte): Text {
    match b
    case '%' => "%25"
    case '&' => "%26"
    case '=' => "%3D"
    case '|' => "%7C"
    case _ => if Printable(b) then [b] else ['%', HexDigit(b as int / 16), HexDigit(b as int % 16)]
  }

  function Escape(value: Text): Text {
    if value == [] then [] else EscapeByte(value[0]) + Escape(value[1..])
  }

  function Unescape(s: Text): Text {
    if s == [] then []
    else if s[0] == '%' && |s| >= 3 then
      var code := FromHex(s[1]) * 16 + FromHex(s[2]);
      [code as char] + Unescape(s[3..])
    else [s[0]] + Unescape(s[1..])
  }

  /** Bytes from '!' to '~' stand for themselves, but for the percent sign and the separators; every
      other byte becomes a percent sign and the two hexadecimal digits of its value. */
  lemma EscapedForm(b: Byte)
    ensures EscapeByte(b) == [b] <==> '!' <= b <= '~' && b != '%' && b != '&' && b != '=' && b != '|'
    ensures EscapeByte(b) != [b] ==>
              var e := EscapeByte(b);
              |e| == 3 && e[0] == '%' && FromHex(e[1]) * 16 + FromHex(e[2]) == b as int && e[1] in DIGITS && e[2] in DIGITS
  {
    var high, low := b as int / 16, b as int % 16;
    HexDigitOf(high);
    HexDigitOf(low);
    assert DIGITS[2] == '2' && DIGITS[3] == '3' && DIGITS[7] == '7' && DIGITS[5] == '5' && DIGITS[6] == '6';
    assert DIGITS[12] == 'C' && DIGITS[13] == 'D';
    hide HexDigit;
  }

  lemma HexDigitOf(n: nat)
    requires n < 16
    ensures FromHex(HexDigit(n)) == n && HexDigit(n) in DIGITS
  {
    assert DIGITS[n] in DIGITS;
  }

  /** The bytes that separate fields of the pre-image. */
  predicate Separator(b: Byte) { b == '|' || b == '&' || b == '=' }

  ghost predicate Free(s: Text) { forall b :: b in s ==> !Separator(b) }

  lemma HexDigits(n: nat)
    requires n < 16
    ensures FromHex(HexDigit(n)) == n && !Separator(HexDigit(n))
  {}

  lemma EscapeByteIsReadable(b: Byte, rest: Text)
    ensures Unescape(EscapeByte(b) + rest) == [b] + Unescape(rest)
    ensures Free(EscapeByte(b)) && EscapeByte(b) != []
  {
    var e := EscapeByte(b);
    HexDigits(b as int / 16);
    HexDigits(b as int % 16);
    if e == [b] {
      assert ([b] + rest)[1..] == rest;
    } else {
      assert e == ['%', HexDigit(b as int / 16), HexDigit(b as int % 16)] by {
        assert b == '%' || b == '&' || b == '=' || b == '|' || !Printable(b);
      }
      assert (e + rest)[3..] == rest;
      assert (e + rest)[0] == '%' && (e + rest)[1] == HexDigit(b as int / 16) && (e + rest)[2] == HexDigit(b as int % 16);
      assert (b as int / 16) * 16 + b as int % 16 == b as int;
    }
  }

  /** Escaping loses nothing. */
  lemma {:induction false} UnescapeEscape(value: Text)
    ensures Unescape(Escape(value)) == value
  {
    if value != [] {
      EscapeByteIsReadable(value[0], Escape(value[1..]));
      UnescapeEscape(value[1..]);
    }
  }

  /** An escaped field holds no separator. */
  lemma {:induction false} EscapeIsFree(value: Text)
    ensures Free(Escape(value))
  {
    if value != [] {
      EscapeByteIsReadable(value[0], []);
      EscapeIsFree(value[1..]);
    }
  }

  lemma EscapeIsInjective(a: Text, b: Text)
    requires Escape(a) == Escape(b)
    ensures a == b
  {
    UnescapeEscape(a);
    UnescapeEscape(b);
  }

  lemma EscapeEnds(value: Text, rest: Text)
    requires |rest| == 0
    ensures Escape(value[0..]) == Escape(value) && |Escape(rest)| == 0
  {
    assert value[0..] == value;
  }

  lemma EscapeNext(out: Text, value: Text, i: nat)
    requires i < |value|
    ensures out + Escape(value[i..]) == out + EscapeByte(value[i]) + Escape(value[i + 1..])
  {
    assert value[i..][1..] == value[i + 1..];
  }

  /** The byte loop. */
  method EscapeInto(value: Text) returns (out: Text)
    ensures out == Escape(value)
  {
    out := [];
    EscapeEnds(value, value[|value|..]);
    for i := 0 to |value|
      invariant out + Escape(value[i..]) == Escape(value)
    {
      hide Escape;
      EscapeNext(out, value, i);
      out := out + EscapeByte(value[i]);
    }
  }

  // ---------------------------------------------------------------- splitting

  lemma FirstSeparator(sep: Byte, a: Text, x: Text, k: nat)
    requires sep !in a && k < |a| + 1 + |x| && (a + [sep] + x)[k] == sep
    ensures |a| <= k
  {}

  /** The first separator ends the first field, so a field without it can be read back. */
  lemma SplitAt(sep: Byte, a: Text, x: Text, b: Text, y: Text)
    requires sep !in a && sep !in b
    requires a + [sep] + x == b + [sep] + y
    ensures a == b && x == y
  {
    var s, t := a + [sep] + x, b + [sep] + y;
    assert s[|a|] == sep && t[|b|] == sep;
    FirstSeparator(sep, a, x, |b|);
    FirstSeparator(sep, b, y, |a|);
    assert s[..|a|] == a && t[..|b|] == b;
    assert s[|a| + 1..] == x && t[|b| + 1..] == y;
  }

  // ---------------------------------------------------------------- decimal numbers

  function Decimal(n: nat): Text {
    if n < 10 then [HexDigit(n)] else Decimal(n / 10) + [HexDigit(n % 10)]
  }

  lemma {:induction false} DecimalIsInjective(m: nat, n: nat)
    requires Decimal(m) == Decimal(n)
    ensures m == n
  {
    DecimalEnds(m);
    DecimalEnds(n);
    if m >= 10 && n >= 10 {
      assert Decimal(m)[..|Decimal(m)| - 1] == Decimal(m / 10);
      assert Decimal(n)[..|Decimal(n)| - 1] == Decimal(n / 10);
      DecimalIsInjective(m / 10, n / 10);
    }
  }

  lemma DecimalEnds(n: nat)
    ensures Decimal(n) != [] && FromHex(Decimal(n)[|Decimal(n)| - 1]) == n % 10
    ensures n >= 10 ==> |Decimal(n)| > 1
  {
    HexDigits(n % 10);
  }

  lemma {:induction false} DecimalIsFree(n: nat)
    ensures Free(Decimal(n))
  {
    HexDigits(n % 10);
    if n >= 10 {
      DecimalIsFree(n / 10);
    }
  }
}
