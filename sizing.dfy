/** The sizer: font size from a word's value, and the estimated box of a word. */
module Sizing {
  import opened Geometry
  import opened RealArith

  /** Estimated width of one character, per unit of font size, before letter spacing. */
  const CharWidth: real := 0.55
  /** Extra width of one character, per unit of font size. */
  const LetterSpacing: real := 0.02
  /** Height of a line, per unit of font size. */
  const LineHeight: real := 1.1

  datatype Size = Size(width: real, height: real)

  /** `Math.max(acc, ...ws.map(w => w.value))`: the larger of acc and every value of ws. */
  function MaxFrom(acc: real, ws: seq<Word>): (m: real)
    ensures acc <= m
    ensures forall i :: 0 <= i < |ws| ==> ws[i].value <= m
    ensures m == acc || exists i :: 0 <= i < |ws| && ws[i].value == m
    decreases |ws|
  {
    if ws == [] then acc
    else
      assert forall i :: 1 <= i < |ws| ==> ws[i] == ws[1..][i - 1];
      MaxFrom(Max(acc, ws[0].value), ws[1..])
  }

  /** The largest value of the words (`Math.max(...words.map(w => w.value))`); 0 when there are
      none, a value no word reads. */
  function MaxValue(words: seq<Word>): (m: real)
    ensures words == [] ==> m == 0.0
    ensures forall i :: 0 <= i < |words| ==> words[i].value <= m
    ensures words != [] ==> exists i :: 0 <= i < |words| && words[i].value == m
  {
    if words == [] then 0.0
    else
      assert forall i :: 1 <= i < |words| ==> words[i] == words[1..][i - 1];
      MaxFrom(words[0].value, words[1..])
  }

  /** Share of the font-size range a value earns: value / maxValue, and 0 where the
      division would be by zero. */
  function Scale(value: real, maxValue: real): (r: real)
    ensures maxValue == 0.0 ==> r == 0.0
    ensures maxValue > 0.0 && 0.0 <= value <= maxValue ==> 0.0 <= r <= 1.0
    ensures maxValue != 0.0 && value == maxValue ==> r == 1.0
  {
    if maxValue == 0.0 then 0.0 else value / maxValue
  }

  /** The point at fraction s of the way from lo to hi. */
  function Lerp(lo: real, hi: real, s: real): (r: real)
    ensures s == 0.0 ==> r == lo
    ensures s == 1.0 ==> r == hi
  {
    lo + s * Span(lo, hi)
  }

  lemma LerpBetween(lo: real, hi: real, s: real)
    requires lo <= hi && 0.0 <= s <= 1.0
    ensures lo <= Lerp(lo, hi, s) <= hi
  {
    var d := Span(lo, hi);
    FractionOf(s, d);
    assert Lerp(lo, hi, s) == lo + s * d;
    assert s * d <= d;
    assert lo + d == hi;
  }

  lemma LerpMonotone(lo: real, hi: real, s1: real, s2: real)
    requires lo <= hi && s1 <= s2
    ensures Lerp(lo, hi, s1) <= Lerp(lo, hi, s2)
  {
    NonNegProduct(s2 - s1, Span(lo, hi));
    assert s2 * Span(lo, hi) - s1 * Span(lo, hi) == (s2 - s1) * Span(lo, hi);
  }

  /** The clamped linear map from value to font size. */
  function FontSize(value: real, maxValue: real, minFontSize: real, maxFontSize: real): (f: real)
    ensures minFontSize <= f
    ensures minFontSize <= maxFontSize ==> f <= maxFontSize
    ensures maxValue == 0.0 ==> f == minFontSize
  {
    Max(minFontSize, Min(maxFontSize, Lerp(minFontSize, maxFontSize, Scale(value, maxValue))))
  }

  /** A larger value never gets a smaller font while the maximum is positive. */
  lemma FontSizeMonotone(v1: real, v2: real, maxValue: real, minFontSize: real, maxFontSize: real)
    requires maxValue > 0.0 && minFontSize <= maxFontSize && v1 <= v2
    ensures FontSize(v1, maxValue, minFontSize, maxFontSize) <= FontSize(v2, maxValue, minFontSize, maxFontSize)
  {
    DivideMonotone(v1, v2, maxValue);
    LerpMonotone(minFontSize, maxFontSize, Scale(v1, maxValue), Scale(v2, maxValue));
  }

  /** The word of largest value gets the largest font. */
  lemma FontSizeAtMaxValue(maxValue: real, minFontSize: real, maxFontSize: real)
    requires maxValue != 0.0 && minFontSize <= maxFontSize
    ensures FontSize(maxValue, maxValue, minFontSize, maxFontSize) == maxFontSize
  {
    DivideSelf(maxValue);
  }

  /** For values between 0 and a positive maximum the clamp never triggers: the font size is
      the linear interpolation between the two bounds. */
  lemma FontSizeInterpolates(value: real, maxValue: real, minFontSize: real, maxFontSize: real)
    requires 0.0 <= value <= maxValue && maxValue > 0.0 && minFontSize <= maxFontSize
    ensures FontSize(value, maxValue, minFontSize, maxFontSize) == Lerp(minFontSize, maxFontSize, value / maxValue)
  {
    DivideMonotone(0.0, value, maxValue);
    DivideMonotone(value, maxValue, maxValue);
    DivideSelf(maxValue);
    LerpBetween(minFontSize, maxFontSize, value / maxValue);
  }

  // ---------------------------------------------------------------- sizing as written

  /** A JavaScript number as far as the font-size formula can produce it from finite inputs. */
  datatype Number = Finite(v: real) | PlusInfinity | MinusInfinity | NaN

  /** `a / b` on finite operands: division by zero gives an infinity, or NaN for `0 / 0`. */
  function Divide(a: real, b: real): (q: Number)
    ensures q.NaN? <==> a == 0.0 && b == 0.0
  {
    if b != 0.0 then Finite(a / b)
    else if a > 0.0 then PlusInfinity
    else if a < 0.0 then MinusInfinity
    else NaN
  }

  /** `x * c` for a finite c: an infinity times zero is NaN. */
  function Times(x: Number, c: real): (r: Number)
    ensures x.Finite? <==> r.Finite?
    ensures x.NaN? ==> r.NaN?
    ensures !x.Finite? && c == 0.0 ==> r.NaN?
  {
    match x
    case Finite(v) => Finite(v * c)
    case NaN => NaN
    case PlusInfinity => if c > 0.0 then PlusInfinity else if c < 0.0 then MinusInfinity else NaN
    case MinusInfinity => if c > 0.0 then MinusInfinity else if c < 0.0 then PlusInfinity else NaN
  }

  /** `c + x` for a finite c. */
  function Plus(c: real, x: Number): (r: Number)
    ensures r.Finite? <==> x.Finite?
    ensures !x.Finite? ==> r == x
  {
    if x.Finite? then Finite(c + x.v) else x
  }

  /** `Math.min(c, x)` for a finite c: NaN if either argument is NaN. */
  function MinOf(c: real, x: Number): (r: Number)
    ensures r.NaN? <==> x.NaN?
    ensures !r.PlusInfinity?
    ensures r.Finite? ==> r.v <= c
  {
    match x
    case Finite(v) => Finite(Min(c, v))
    case PlusInfinity => Finite(c)
    case MinusInfinity => MinusInfinity
    case NaN => NaN
  }

  /** `Math.max(c, x)` for a finite c: NaN if either argument is NaN. */
  function MaxOf(c: real, x: Number): (r: Number)
    ensures r.NaN? <==> x.NaN?
    ensures !r.MinusInfinity?
    ensures r.Finite? ==> r.v >= c
  {
    match x
    case Finite(v) => Finite(Max(c, v))
    case PlusInfinity => PlusInfinity
    case MinusInfinity => Finite(c)
    case NaN => NaN
  }

  /** `calculateFontSize` exactly as written, with no guard on a zero maximum. */
  function FontSizeAsWritten(value: real, maxValue: real, minFontSize: real, maxFontSize: real): (r: Number)
    ensures !r.PlusInfinity? && !r.MinusInfinity?
    ensures maxValue != 0.0 ==> r.Finite?
    ensures r.Finite? ==> r.v >= minFontSize
  {
    MaxOf(minFontSize, MinOf(maxFontSize,
      Plus(minFontSize, Times(Divide(value, maxValue), Span(minFontSize, maxFontSize)))))
  }

  /** Away from a zero maximum the guarded FontSize is exactly the formula as written. */
  lemma FontSizeAgreesAsWritten(value: real, maxValue: real, minFontSize: real, maxFontSize: real)
    requires maxValue != 0.0
    ensures FontSizeAsWritten(value, maxValue, minFontSize, maxFontSize) ==
            Finite(FontSize(value, maxValue, minFontSize, maxFontSize))
  {
  }

  /** When the largest value is 0, every word of value 0 gets a NaN font size as written,
      whatever the bounds; the guarded FontSize gives those words minFontSize. */
  lemma ZeroMaximumGivesNaN(minFontSize: real, maxFontSize: real)
    ensures FontSizeAsWritten(0.0, 0.0, minFontSize, maxFontSize) == NaN
    ensures FontSize(0.0, 0.0, minFontSize, maxFontSize) == minFontSize
  {
  }

  /** First code point that UTF-16 encodes as a surrogate pair. */
  const FirstSupplementary: int := 0x1_0000

  /** JavaScript's `text.length`: the number of UTF-16 code units, one per character of the
      Basic Multilingual Plane and two per character beyond it. */
  function Utf16Length(text: string): (n: nat)
    ensures |text| <= n <= 2 * |text|
  {
    if text == [] then 0
    else (if text[0] as int < FirstSupplementary then 1 else 2) + Utf16Length(text[1..])
  }

  /** Code units add up over concatenation. */
  lemma {:induction false} Utf16LengthAppend(a: string, b: string)
    ensures Utf16Length(a + b) == Utf16Length(a) + Utf16Length(b)
  {
    if a != [] {
      assert (a + b)[0] == a[0];
      assert (a + b)[1..] == a[1..] + b;
      Utf16LengthAppend(a[1..], b);
    } else {
      assert a + b == b;
    }
  }

  /** Text within the Basic Multilingual Plane has one code unit per character. */
  lemma {:induction false} Utf16LengthOfBmp(text: string)
    requires forall i :: 0 <= i < |text| ==> text[i] as int < FirstSupplementary
    ensures Utf16Length(text) == |text|
  {
    if text != [] {
      assert forall i :: 0 <= i < |text[1..]| ==> text[1..][i] == text[i + 1];
      Utf16LengthOfBmp(text[1..]);
    }
  }

  /** An emoji outside the Basic Multilingual Plane counts twice. */
  lemma EmojiCountsTwice()
    ensures Utf16Length("\U{1F600}") == 2
    ensures WordDimensions("\U{1F600}", 10.0).width == 11.4
  {
    assert "\U{1F600}"[0] as int == 0x1F600;
  }

  /** The estimated width of `units` UTF-16 code units at a font size. */
  function UnitsWidth(units: nat, fontSize: real): real
  {
    fontSize * ((units as real) * (CharWidth + LetterSpacing))
  }

  /** Widths add up over code units. */
  lemma UnitsWidthAddsUp(m: nat, n: nat, fontSize: real)
    ensures UnitsWidth(m + n, fontSize) == UnitsWidth(m, fontSize) + UnitsWidth(n, fontSize)
  {
    var x, y := (m as real) * (CharWidth + LetterSpacing), (n as real) * (CharWidth + LetterSpacing);
    assert ((m + n) as real) * (CharWidth + LetterSpacing) == x + y;
    assert fontSize * (x + y) == fontSize * x + fontSize * y;
  }

  /** The character-count estimate of a word's box at a font size, counting characters as
      JavaScript's `length` does. */
  function WordDimensions(text: string, fontSize: real): (s: Size)
    ensures fontSize >= 0.0 ==> s.width >= 0.0 && s.height >= 0.0
    ensures fontSize > 0.0 ==> s.height > 0.0
    ensures text == [] ==> s.width == 0.0
  {
    Size(UnitsWidth(Utf16Length(text), fontSize), fontSize * LineHeight)
  }

  /** The width estimate depends on the code-unit count only: it adds up over concatenation. */
  lemma WidthAddsUp(a: string, b: string, fontSize: real)
    ensures WordDimensions(a + b, fontSize).width ==
            WordDimensions(a, fontSize).width + WordDimensions(b, fontSize).width
    ensures WordDimensions(a + b, fontSize).height == WordDimensions(a, fontSize).height
  {
    Utf16LengthAppend(a, b);
    UnitsWidthAddsUp(Utf16Length(a), Utf16Length(b), fontSize);
  }

  /** A larger font gives a box at least as large on both axes. */
  lemma DimensionsMonotone(text: string, f1: real, f2: real)
    requires 0.0 <= f1 <= f2
    ensures WordDimensions(text, f1).width <= WordDimensions(text, f2).width
    ensures WordDimensions(text, f1).height <= WordDimensions(text, f2).height
  {
    var c := (Utf16Length(text) as real) * (CharWidth + LetterSpacing);
    NonNegProduct(f2 - f1, c);
    assert f2 * c - f1 * c == (f2 - f1) * c;
  }
}
