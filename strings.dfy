/*
 * String operations the generator and the renderers rely on: decimal
 * integers, the binding-variable token derived from a label, UTF-8
 * encoding, joining, and line-prefix facts used to count generated lines.
 */
module Strings {
  import opened Elements

  // ---------------------------------------------------------------------
  // Decimal integers (Int32.ToString: digits, '-' for negatives)

  function DigitChar(d: nat): (c: char)
    requires d < 10
    ensures '0' <= c <= '9'
  {
    "0123456789"[d]
  }

  function NatToString(n: nat): (s: string)
    ensures |s| > 0
    ensures forall i :: 0 <= i < |s| ==> '0' <= s[i] <= '9'
    decreases n
  {
    if n < 10 then [DigitChar(n)] else NatToString(n / 10) + [DigitChar(n % 10)]
  }

  function IntToString(n: int): (s: string)
    ensures |s| > 0
    ensures (s[0] == '-') <==> n < 0
  {
    if n < 0 then "-" + NatToString(-n) else NatToString(n)
  }

  /** The value a decimal numeral denotes. */
  function DigitsValue(s: string): int
    requires forall i :: 0 <= i < |s| ==> '0' <= s[i] <= '9'
  {
    if s == [] then 0 else 10 * DigitsValue(s[..|s| - 1]) + (s[|s| - 1] as int - '0' as int)
  }

  /** The decimal text of a natural number reads back as that number. */
  lemma {:induction false} NatToStringValue(n: nat)
    ensures DigitsValue(NatToString(n)) == n
  {
    if n >= 10 {
      var s := NatToString(n);
      assert s[..|s| - 1] == NatToString(n / 10);
      NatToStringValue(n / 10);
    }
  }

  /** The decimal text of any integer reads back as that integer: digits, after a '-' for a negative. */
  lemma IntToStringValue(n: int)
    ensures n >= 0 ==> DigitsValue(IntToString(n)) == n
    ensures n < 0 ==> |IntToString(n)| > 1
    ensures n < 0 ==> forall i :: 1 <= i < |IntToString(n)| ==> '0' <= IntToString(n)[i] <= '9'
    ensures n < 0 ==> DigitsValue(IntToString(n)[1..]) == -n
  {
    if n < 0 {
      NegativeText(n);
    } else {
      NatToStringValue(n);
    }
  }

  /** The text of a negative number is a '-' before the digits of its magnitude. */
  lemma NegativeText(n: int)
    requires n < 0
    ensures |IntToString(n)| > 1
    ensures forall i :: 1 <= i < |IntToString(n)| ==> '0' <= IntToString(n)[i] <= '9'
    ensures DigitsValue(IntToString(n)[1..]) == -n
  {
    var m: nat := -n;
    var digits := NatToString(m);
    DropSign(IntToString(n), digits);
    NatToStringValue(m);
  }

  /** Digits behind a '-' are those digits, and read as the same number. */
  lemma DropSign(s: string, digits: string)
    requires |digits| > 0 && s == "-" + digits
    requires forall i :: 0 <= i < |digits| ==> '0' <= digits[i] <= '9'
    ensures |s| > 1 && s[1..] == digits
    ensures forall i :: 1 <= i < |s| ==> '0' <= s[i] <= '9'
    ensures DigitsValue(s[1..]) == DigitsValue(digits)
  {
    assert s[1..] == digits;
  }

  // ---------------------------------------------------------------------
  // The binding token: `label?.Replace(" ", "").ToLower() ?? fallback`

  /** `s.Replace(" ", "")`: every U+0020 removed, all else kept in order. */
  function RemoveSpaces(s: string): (r: string)
    ensures |r| <= |s|
    ensures forall i :: 0 <= i < |r| ==> r[i] != ' '
    ensures s == [] ==> r == []
  {
    if s == [] then []
    else if s[0] == ' ' then RemoveSpaces(s[1..])
    else [s[0]] + RemoveSpaces(s[1..])
  }

  function LowerChar(c: char): (d: char)
    ensures !('A' <= d <= 'Z')
  {
    if 'A' <= c <= 'Z' then (c as int + 32) as char else c
  }

  /** `s.ToLower()` on ASCII letters; every other character is kept. */
  function ToLower(s: string): (r: string)
    ensures |r| == |s|
    ensures forall i :: 0 <= i < |r| ==> r[i] == LowerChar(s[i])
  {
    seq(|s|, i requires 0 <= i < |s| => LowerChar(s[i]))
  }

  /** The C# expression `label?.Replace(" ", "").ToLower() ?? fallback`. */
  function BindingToken(caption: Option<string>, fallback: string): string {
    match caption
    case None => fallback
    case Some(l) => ToLower(RemoveSpaces(l))
  }

  /**
   * A present label yields a token with no spaces and no upper-case ASCII
   * letter, no longer than the label, equal to the lowered label when it
   * has no spaces; an empty label yields the empty token, not the fallback.
   * Only a null label yields the fallback.
   */
  lemma BindingTokenShape(caption: Option<string>, fallback: string)
    ensures caption.None? ==> BindingToken(caption, fallback) == fallback
    ensures caption.Some? ==>
      var t := BindingToken(caption, fallback);
      && |t| <= |caption.value|
      && (forall i :: 0 <= i < |t| ==> t[i] != ' ' && !('A' <= t[i] <= 'Z'))
      && (caption.value == "" ==> t == "")
    ensures caption.Some? && ' ' !in caption.value ==> BindingToken(caption, fallback) == ToLower(caption.value)
  {
    if caption.Some? && ' ' !in caption.value {
      RemoveSpacesNoop(caption.value);
    }
  }

  /** A label without spaces becomes its lower-case form. */
  lemma {:induction false} RemoveSpacesNoop(s: string)
    requires forall i :: 0 <= i < |s| ==> s[i] != ' '
    ensures RemoveSpaces(s) == s
  {
    if s != [] {
      RemoveSpacesNoop(s[1..]);
    }
  }

  /** Removing spaces works piecewise, so what is kept stays in its order. */
  lemma {:induction false} RemoveSpacesAppend(a: string, b: string)
    ensures RemoveSpaces(a + b) == RemoveSpaces(a) + RemoveSpaces(b)
  {
    if a != [] {
      assert (a + b)[1..] == a[1..] + b;
      RemoveSpacesAppend(a[1..], b);
    } else {
      assert a + b == b;
    }
  }

  /** The characters removed are exactly the spaces: what is left is the rest in order. */
  lemma {:induction false} RemoveSpacesKeepsOthers(s: string, c: char)
    requires c != ' '
    ensures multiset(RemoveSpaces(s))[c] == multiset(s)[c]
  {
    if s != [] {
      RemoveSpacesKeepsOthers(s[1..], c);
      assert s == [s[0]] + s[1..];
    }
  }

  // ---------------------------------------------------------------------
  // UTF-8 (Encoding.UTF8.GetBytes over Unicode scalar values)

  function Utf8Char(c: char): (bs: seq<byte>)
    ensures 1 <= |bs| <= 4
    ensures (c as int < 0x80) <==> |bs| == 1
    ensures |bs| == 1 ==> bs[0] as int == c as int
    ensures |bs| > 1 ==> forall i :: 0 <= i < |bs| ==> bs[i] as int >= 0x80
  {
    var n := c as int;
    if n < 0x80 then [n as byte]
    else if n < 0x800 then [(0xC0 + n / 0x40) as byte, (0x80 + n % 0x40) as byte]
    else if n < 0x10000 then
      [(0xE0 + n / 0x1000) as byte, (0x80 + (n / 0x40) % 0x40) as byte, (0x80 + n % 0x40) as byte]
    else
      [(0xF0 + n / 0x40000) as byte, (0x80 + (n / 0x1000) % 0x40) as byte,
       (0x80 + (n / 0x40) % 0x40) as byte, (0x80 + n % 0x40) as byte]
  }

  function Utf8(s: string): (bs: seq<byte>)
  {
    if s == [] then [] else Utf8Char(s[0]) + Utf8(s[1..])
  }

  /** Encoding distributes over concatenation and takes one to four bytes per character. */
  lemma {:induction false} Utf8Append(a: string, b: string)
    ensures Utf8(a + b) == Utf8(a) + Utf8(b)
    ensures |a| <= |Utf8(a)| <= 4 * |a|
  {
    if a != [] {
      assert (a + b)[0] == a[0] && (a + b)[1..] == a[1..] + b;
      Utf8Append(a[1..], b);
      calc {
        Utf8(a + b);
        Utf8Char(a[0]) + Utf8(a[1..] + b);
        Utf8Char(a[0]) + (Utf8(a[1..]) + Utf8(b));
        (Utf8Char(a[0]) + Utf8(a[1..])) + Utf8(b);
      }
    } else {
      assert a + b == b;
    }
  }

  /** A string without NUL characters encodes to bytes none of which is zero. */
  lemma {:induction false} Utf8NoZero(s: string)
    requires forall i :: 0 <= i < |s| ==> s[i] != '\0'
    ensures forall j :: 0 <= j < |Utf8(s)| ==> Utf8(s)[j] != 0
  {
    if s != [] {
      Utf8NoZero(s[1..]);
    }
  }

  // ---------------------------------------------------------------------
  // Joining and line prefixes

  /** `string.Join(sep, parts)`. */
  function Join(sep: string, parts: seq<string>): string
  {
    if parts == [] then ""
    else if |parts| == 1 then parts[0]
    else parts[0] + sep + Join(sep, parts[1..])
  }

  predicate StartsWith(line: string, prefix: string) {
    |prefix| <= |line| && line[..|prefix|] == prefix
  }

  /** Two strings that differ at a common index are unequal and neither starts with the other. */
  lemma DiffersAt(a: string, b: string, k: nat)
    requires k < |a| && k < |b| && a[k] != b[k]
    ensures a != b && !StartsWith(a, b) && !StartsWith(b, a)
  {
  }

  lemma StartsWithAppend(p: string, q: string, rest: string)
    ensures StartsWith(p + q + rest, p)
  {
  }
}
