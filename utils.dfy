/**
  * Conversion between integers and the `0x`-prefixed hexadecimal strings used at the
  * block explorer's API boundary (utils.py).
  *
  * `HexStr2Int` accepts an optional `0x`/`0X` prefix followed by case-insensitive hex digits;
  * `Int2HexStr` renders lower-case digits, zero-padded to an even count.
  */
module Utils {
  import opened Wrappers

  /** The `ValueError` that `int(s, 16)` raises on a string that is not a hex literal. */
  datatype HexError = InvalidHexLiteral(literal: string)

  predicate IsHexDigit(c: char) {
    '0' <= c <= '9' || 'a' <= c <= 'f' || 'A' <= c <= 'F'
  }

  predicate IsLowerHexDigit(c: char) {
    '0' <= c <= '9' || 'a' <= c <= 'f'
  }

  predicate AllHexDigits(ds: string) {
    forall i :: 0 <= i < |ds| ==> IsHexDigit(ds[i])
  }

  predicate AllLowerHexDigits(ds: string) {
    forall i :: 0 <= i < |ds| ==> IsLowerHexDigit(ds[i])
  }

  function DigitValue(c: char): (d: nat)
    requires IsHexDigit(c)
    ensures d < 16
  {
    if '0' <= c <= '9' then c as int - '0' as int
    else if 'a' <= c <= 'f' then c as int - 'a' as int + 10
    else c as int - 'A' as int + 10
  }

  function DigitChar(d: nat): (c: char)
    requires d < 16
    ensures IsLowerHexDigit(c) && DigitValue(c) == d
    ensures c == '0' <==> d == 0
  {
    if d < 10 then ('0' as int + d) as char else ('a' as int + d - 10) as char
  }

  lemma DigitCharOfValue(c: char)
    requires IsLowerHexDigit(c)
    ensures DigitChar(DigitValue(c)) == c
  {
  }

  /** The big-endian value of a string of hex digits. */
  function DigitsValue(ds: string): nat
    requires AllHexDigits(ds)
  {
    if ds == [] then 0 else DigitsValue(ds[..|ds| - 1]) * 16 + DigitValue(ds[|ds| - 1])
  }

  predicate HasHexPrefix(s: string) {
    |s| >= 2 && s[0] == '0' && (s[1] == 'x' || s[1] == 'X')
  }

  /** Python's `int(s, 16)`: an optional `0x` prefix, then at least one hex digit. */
  function ParseHex(s: string): (r: Result<nat, HexError>)
    ensures r.Ok? <==> (var body := if HasHexPrefix(s) then s[2..] else s; |body| > 0 && AllHexDigits(body))
  {
    var body := if HasHexPrefix(s) then s[2..] else s;
    if |body| > 0 && AllHexDigits(body) then Ok(DigitsValue(body)) else Err(InvalidHexLiteral(s))
  }

  /** `HexStr2Int`: `"0x"` in any case is 0, the empty string is `None`, anything else goes to `int(s, 16)`. */
  function HexStr2Int(s: string): (r: Result<Option<nat>, HexError>)
    ensures r == Ok(None) <==> s == ""
    ensures |s| == 2 && HasHexPrefix(s) ==> r == Ok(Some(0))
    ensures r.Err? <==> s != "" && !(|s| == 2 && HasHexPrefix(s)) && ParseHex(s).Err?
  {
    if |s| == 2 && HasHexPrefix(s) then Ok(Some(0))
    else if s == "" then Ok(None)
    else
      match ParseHex(s)
      case Ok(n) => Ok(Some(n))
      case Err(e) => Err(e)
  }

  /** The digits of `hex(n)` after its `0x`: minimal, lower case, `"0"` for zero. */
  function MinimalHexDigits(n: nat): (ds: string)
    ensures |ds| >= 1 && AllLowerHexDigits(ds) && AllHexDigits(ds)
    ensures ds[0] == '0' ==> n == 0
  {
    if n < 16 then [DigitChar(n)] else MinimalHexDigits(n / 16) + [DigitChar(n % 16)]
  }

  /** `Int2HexStr`: `0x` followed by `hex(n)`'s digits, zero-padded to an even count. */
  function Int2HexStr(n: nat): string {
    var ds := MinimalHexDigits(n);
    "0x" + (if |ds| % 2 == 1 then "0" + ds else ds)
  }

  function Pow16(k: nat): (p: nat)
    ensures p >= 1
  {
    if k == 0 then 1 else 16 * Pow16(k - 1)
  }

  /** `hex(n)` has the fewest digits that can hold `n`. */
  lemma {:induction false} MinimalHexDigitsLength(n: nat)
    ensures n < Pow16(|MinimalHexDigits(n)|)
    ensures n >= 16 ==> Pow16(|MinimalHexDigits(n)| - 1) <= n
  {
    if n >= 16 {
      MinimalHexDigitsLength(n / 16);
    }
  }

  /** `Int2HexStr(n)` is `0x`, then lower-case digits whose count is the minimal hex length
      rounded up to even. */
  lemma Int2HexStrShape(n: nat)
    ensures var s := Int2HexStr(n);
      |s| >= 4 && s[..2] == "0x" && AllLowerHexDigits(s[2..]) &&
      |s[2..]| % 2 == 0 &&
      |s[2..]| == |MinimalHexDigits(n)| + |MinimalHexDigits(n)| % 2
  {
    var ds := MinimalHexDigits(n);
    var s := Int2HexStr(n);
    var body := if |ds| % 2 == 1 then "0" + ds else ds;
    assert s[2..] == body;
  }

  lemma Int2HexStrZero()
    ensures Int2HexStr(0) == "0x00"
  {
  }

  lemma {:induction false} ValueOfMinimalHexDigits(n: nat)
    ensures DigitsValue(MinimalHexDigits(n)) == n
  {
    var ds := MinimalHexDigits(n);
    if n >= 16 {
      ValueOfMinimalHexDigits(n / 16);
      assert ds[..|ds| - 1] == MinimalHexDigits(n / 16);
    }
  }

  /** A leading `0` digit does not change the value. */
  lemma {:induction false} LeadingZeroValue(ds: string)
    requires AllHexDigits(ds)
    ensures AllHexDigits("0" + ds) && DigitsValue("0" + ds) == DigitsValue(ds)
  {
    var zs := "0" + ds;
    if ds != [] {
      assert zs[..|zs| - 1] == "0" + ds[..|ds| - 1];
      LeadingZeroValue(ds[..|ds| - 1]);
    }
  }

  /** Round trip: parsing the rendering of any natural number gives it back. */
  lemma HexRoundTrip(n: nat)
    ensures HexStr2Int(Int2HexStr(n)) == Ok(Some(n))
  {
    var ds := MinimalHexDigits(n);
    var body := if |ds| % 2 == 1 then "0" + ds else ds;
    var s := Int2HexStr(n);
    assert s == "0x" + body;
    assert s[2..] == body;
    ValueOfMinimalHexDigits(n);
    if |ds| % 2 == 1 {
      LeadingZeroValue(ds);
    }
    assert HasHexPrefix(s) && |s| >= 4;
  }

  /** The strings `Int2HexStr` can produce: lower case, an even number of digits, no leading
      zero byte except in `0x00`. */
  predicate IsCanonical(s: string) {
    |s| >= 4 && s[..2] == "0x" && AllLowerHexDigits(s[2..]) && |s[2..]| % 2 == 0 &&
    (s[2..] == "00" || s[2] != '0' || s[3] != '0')
  }

  lemma Int2HexStrIsCanonical(n: nat)
    ensures IsCanonical(Int2HexStr(n))
  {
    Int2HexStrShape(n);
    var ds := MinimalHexDigits(n);
    var s := Int2HexStr(n);
    if |ds| % 2 == 1 {
      assert s[2..] == "0" + ds;
      if n != 0 { assert s[3] == ds[0]; }
    } else {
      assert s[2..] == ds;
    }
  }

  lemma {:induction false} PositiveValue(ds: string)
    requires |ds| > 0 && AllLowerHexDigits(ds) && AllHexDigits(ds) && ds[0] != '0'
    ensures DigitsValue(ds) > 0
  {
    if |ds| > 1 {
      PositiveValue(ds[..|ds| - 1]);
    }
  }

  /** Digits without a leading zero are exactly the minimal digits of their value. */
  lemma {:induction false} MinimalHexDigitsOfValue(ds: string)
    requires |ds| > 0 && AllLowerHexDigits(ds) && AllHexDigits(ds) && ds[0] != '0'
    ensures MinimalHexDigits(DigitsValue(ds)) == ds
  {
    var last := ds[|ds| - 1];
    DigitCharOfValue(last);
    if |ds| > 1 {
      var init := ds[..|ds| - 1];
      PositiveValue(init);
      MinimalHexDigitsOfValue(init);
      var v := DigitsValue(ds);
      assert v / 16 == DigitsValue(init) && v % 16 == DigitValue(last);
    }
  }

  lemma {:induction false} ZeroDigitsValue(ds: string)
    requires forall i :: 0 <= i < |ds| ==> ds[i] == '0'
    ensures AllHexDigits(ds) && DigitsValue(ds) == 0
  {
    if ds != [] {
      ZeroDigitsValue(ds[..|ds| - 1]);
    }
  }

  /** Round trip from the string side holds exactly for canonical strings. */
  lemma CanonicalRoundTrip(s: string)
    requires IsCanonical(s)
    ensures HexStr2Int(s).Ok? && HexStr2Int(s).value.Some?
    ensures Int2HexStr(HexStr2Int(s).value.value) == s
  {
    var body := s[2..];
    assert s == "0x" + body;
    assert HasHexPrefix(s) && AllHexDigits(body);
    assert HexStr2Int(s) == Ok(Some(DigitsValue(body)));
    RenderDigits(body);
  }

  /** The digits of a canonical string are exactly what `Int2HexStr` renders for their value. */
  lemma RenderDigits(body: string)
    requires |body| >= 2 && |body| % 2 == 0 && AllLowerHexDigits(body) && AllHexDigits(body)
    requires body == "00" || body[0] != '0' || body[1] != '0'
    ensures Int2HexStr(DigitsValue(body)) == "0x" + body
  {
    if body == "00" {
      RenderZero(body);
    } else if body[0] != '0' {
      RenderUnpadded(body);
    } else {
      RenderPadded(body);
    }
  }

  lemma RenderZero(body: string)
    requires body == "00"
    ensures Int2HexStr(DigitsValue(body)) == "0x" + body
  {
    ZeroDigitsValue(body);
    assert MinimalHexDigits(0) == "0";
  }

  lemma RenderUnpadded(body: string)
    requires |body| % 2 == 0 && |body| > 0 && AllLowerHexDigits(body) && AllHexDigits(body) && body[0] != '0'
    ensures Int2HexStr(DigitsValue(body)) == "0x" + body
  {
    MinimalHexDigitsOfValue(body);
  }

  lemma RenderPadded(body: string)
    requires |body| % 2 == 0 && |body| >= 2 && AllLowerHexDigits(body) && AllHexDigits(body)
    requires body[0] == '0' && body[1] != '0'
    ensures Int2HexStr(DigitsValue(body)) == "0x" + body
  {
    var tail := body[1..];
    assert body == "0" + tail;
    assert AllHexDigits(tail) && AllLowerHexDigits(tail) by {
      forall i | 0 <= i < |tail| ensures tail[i] == body[i + 1] { }
    }
    LeadingZeroValue(tail);
    MinimalHexDigitsOfValue(tail);
    OddPredecessor(|body|);
  }

  lemma OddPredecessor(n: nat)
    requires n > 0 && n % 2 == 0
    ensures (n - 1) % 2 == 1
  {
  }

  /** The 20-byte zero address (40 zero digits) parses to 0, which renders as `0x00`, not as
      itself: the string round trip fails off the canonical strings. */
  lemma ZeroAddressIsNotCanonical()
    ensures var zero := "0x" + seq(40, _ => '0');
      HexStr2Int(zero) == Ok(Some(0)) && Int2HexStr(0) == "0x00" && !IsCanonical(zero)
  {
    var digits := seq(40, _ => '0');
    var zero := "0x" + digits;
    assert zero[2..] == digits;
    ZeroDigitsValue(digits);
    assert zero[2] == '0' && zero[3] == '0';
  }
}
