/** Base-16 text as JavaScript's `Number.prototype.toString(16)` writes it for
    a non-negative integer: lower-case digits, most significant first, no
    padding, and a single `0` for zero. Also the `'#'`-prefixed colour string
    the server hands every new player. */
module Hex {

  const Digits: string := "0123456789abcdef"

  /** Number of colour indices `Math.floor(Math.random() * 16777215)` can
      produce: `0 .. 16777214`. */
  const ColorRange: nat := 16777215

  predicate IsHexDigit(c: char) {
    ('0' <= c <= '9') || ('a' <= c <= 'f')
  }

  predicate IsHexText(s: string) {
    forall i :: 0 <= i < |s| ==> IsHexDigit(s[i])
  }

  /** The character for one digit value; the inverse of `DigitValue`. */
  function DigitChar(d: nat): (c: char)
    requires d < 16
    ensures IsHexDigit(c)
    ensures c == Digits[d]
  {
    if d < 10 then ('0' as int + d) as char else ('a' as int + d - 10) as char
  }

  /** The value of one lower-case hex digit. */
  function DigitValue(c: char): (d: nat)
    requires IsHexDigit(c)
    ensures d < 16
    ensures DigitChar(d) == c
  {
    if c <= '9' then (c as int - '0' as int) else (c as int - 'a' as int + 10)
  }

  lemma DigitRoundTrip(d: nat)
    requires d < 16
    ensures DigitValue(DigitChar(d)) == d
  {
  }

  /** `n.toString(16)`. */
  function ToHex(n: nat): (s: string)
    ensures 1 <= |s|
    ensures IsHexText(s)
    ensures s[0] == '0' <==> n == 0
    decreases n
  {
    if n < 16 then [DigitChar(n)] else ToHex(n / 16) + [DigitChar(n % 16)]
  }

  /** The value of a hex text, most significant digit first (`parseInt(s, 16)`
      for a non-empty text; the empty text reads as 0). */
  function FromHex(s: string): nat
    requires IsHexText(s)
  {
    if |s| == 0 then 0 else FromHex(s[..|s| - 1]) * 16 + DigitValue(s[|s| - 1])
  }

  /** A canonical hex text has no leading zero, except the text `0` itself. */
  predicate IsCanonical(s: string) {
    1 <= |s| && IsHexText(s) && (s[0] == '0' ==> |s| == 1)
  }

  /** Reading back what `ToHex` wrote gives the number again. */
  lemma {:induction false} HexRoundTrip(n: nat)
    ensures FromHex(ToHex(n)) == n
    decreases n
  {
    var s := ToHex(n);
    if n < 16 {
      assert s[..|s| - 1] == [];
      DigitRoundTrip(n);
    } else {
      var hi := ToHex(n / 16);
      assert s == hi + [DigitChar(n % 16)];
      assert s[..|s| - 1] == hi;
      HexRoundTrip(n / 16);
      DigitRoundTrip(n % 16);
    }
  }

  /** Writing back what `FromHex` read gives the text again when it is
      canonical: `ToHex` and `FromHex` are inverse bijections between the
      naturals and the canonical texts. */
  lemma {:induction false} CanonicalRoundTrip(s: string)
    requires IsCanonical(s)
    ensures ToHex(FromHex(s)) == s
    decreases |s|
  {
    var init := s[..|s| - 1];
    var d := DigitValue(s[|s| - 1]);
    if |s| == 1 {
      assert init == [];
      assert FromHex(s) == d;
    } else {
      assert init[0] == s[0];
      CanonicalRoundTrip(init);
      var m := FromHex(init);
      assert ToHex(m)[0] != '0';
      var n := FromHex(s);
      assert n == m * 16 + d;
      assert n / 16 == m && n % 16 == d;
      assert s == init + [s[|s| - 1]];
    }
  }

  /** `16^k`. */
  function Pow16(k: nat): (p: nat)
    ensures 1 <= p
  {
    if k == 0 then 1 else 16 * Pow16(k - 1)
  }

  /** A number below `16^k` needs at most `k` digits. */
  lemma {:induction false} ToHexLength(n: nat, k: nat)
    requires 1 <= k
    requires n < Pow16(k)
    ensures |ToHex(n)| <= k
    decreases k
  {
    if n >= 16 {
      if k == 1 {
        assert false;
      }
      assert n / 16 < Pow16(k - 1);
      ToHexLength(n / 16, k - 1);
    }
  }

  /** `'#' + n.toString(16)`: the colour `getRandomColor` returns for the
      colour index `n`. */
  function ColorText(n: nat): (c: string)
    requires n < ColorRange
    ensures 2 <= |c| <= 7
    ensures c[0] == '#'
    ensures IsCanonical(c[1..])
    ensures FromHex(c[1..]) == n
  {
    var digits := ToHex(n);
    assert Pow16(6) == 16777216;
    ToHexLength(n, 6);
    HexRoundTrip(n);
    assert ("#" + digits)[1..] == digits;
    "#" + digits
  }

  /** `'0'` repeated `k` times. */
  function Zeros(k: nat): (z: string)
    ensures |z| == k
    ensures forall i :: 0 <= i < k ==> z[i] == '0'
  {
    if k == 0 then [] else Zeros(k - 1) + "0"
  }

  /** Leading zeros do not change the value of a hex text. */
  lemma {:induction false} LeadingZerosValue(k: nat, s: string)
    requires IsHexText(s)
    ensures IsHexText(Zeros(k) + s)
    ensures FromHex(Zeros(k) + s) == FromHex(s)
    decreases |s| + k
  {
    var t := Zeros(k) + s;
    if |s| == 0 {
      assert t == Zeros(k);
      if k > 0 {
        assert t[..|t| - 1] == Zeros(k - 1) + [];
        LeadingZerosValue(k - 1, []);
      }
    } else {
      assert t[..|t| - 1] == Zeros(k) + s[..|s| - 1];
      LeadingZerosValue(k, s[..|s| - 1]);
    }
  }

  /** The `#rrggbb` colour: the hex digits zero-padded to six, so every
      index gives a seven-character string. */
  function PaddedColor(n: nat): (c: string)
    requires n < ColorRange
    ensures |c| == 7
    ensures c[0] == '#'
    ensures IsHexText(c[1..])
    ensures FromHex(c[1..]) == n
  {
    var digits := ToHex(n);
    assert Pow16(6) == 16777216;
    ToHexLength(n, 6);
    HexRoundTrip(n);
    LeadingZerosValue(6 - |digits|, digits);
    var body := Zeros(6 - |digits|) + digits;
    assert ("#" + body)[1..] == body;
    "#" + body
  }

  /** The colour as written is not always of the `#rrggbb` form: colour
      index 255 gives the three-character text `#ff`. */
  lemma ShortColorExample()
    ensures ColorText(255) == "#ff"
    ensures |ColorText(255)| != 7
  {
    assert ToHex(255) == ToHex(15) + [DigitChar(15)];
  }

  /** The padded colour carries the same index as the as-written one; they
      differ only in the zeros in front, which are missing exactly for the
      indices below `0x100000`. */
  lemma PaddedColorAgrees(n: nat)
    requires n < ColorRange
    ensures |ToHex(n)| <= 6
    ensures PaddedColor(n) == "#" + Zeros(6 - |ToHex(n)|) + ToHex(n)
    ensures ColorText(n) == "#" + ToHex(n)
    ensures FromHex(PaddedColor(n)[1..]) == FromHex(ColorText(n)[1..])
    ensures n < 1048576 ==> PaddedColor(n) != ColorText(n)
    ensures 1048576 <= n ==> PaddedColor(n) == ColorText(n)
  {
    assert Pow16(6) == 16777216;
    ToHexLength(n, 6);
    if n < 1048576 {
      assert Pow16(5) == 1048576;
      ToHexLength(n, 5);
      assert |PaddedColor(n)| != |ColorText(n)|;
    } else {
      HexAtLeast(n, 5);
    }
  }

  /** A number of at least `16^k` needs more than `k` digits. */
  lemma {:induction false} HexAtLeast(n: nat, k: nat)
    requires Pow16(k) <= n
    ensures k < |ToHex(n)|
    decreases k
  {
    if k > 0 {
      assert n >= 16;
      assert Pow16(k - 1) <= n / 16;
      HexAtLeast(n / 16, k - 1);
    }
  }

}
