/** The size a captured picture is sent at: the largest even-sided box that keeps
    its shape inside a ceiling. Arithmetic is over exact reals. */
module Fitting {
  import opened Basics

  function Min(a: real, b: real): real {
    if a <= b then a else b
  }

  function MaxNat(a: nat, b: nat): nat {
    if a >= b then a else b
  }

  function MinNat(a: nat, b: nat): nat {
    if a <= b then a else b
  }

  /** Halves round up; nothing here is negative. */
  function Round(x: real): int {
    (x + 0.5).Floor
  }

  function Even(value: nat): nat {
    value - value % 2
  }

  function Scale(source: Size, max: Size): (s: real)
    requires source.width > 0 && source.height > 0
    ensures 0.0 <= s <= 1.0
  {
    Min(Min(max.width as real / source.width as real, max.height as real / source.height as real), 1.0)
  }

  function Snap(exact: real): nat
    requires exact >= 0.0
  {
    Even(MaxNat(Round(exact), 2))
  }

  function Side(side: nat, scale: real): nat
    requires scale >= 0.0
  {
    MulNonNegative(side as real, scale);
    Snap(side as real * scale)
  }

  function Fit(source: Size, max: Size): Size {
    if source.width == 0 || source.height == 0 then Size(0, 0)
    else
      var scale := Scale(source, max);
      Size(Side(source.width, scale), Side(source.height, scale))
  }

  lemma MulNonNegative(a: real, b: real)
    requires a >= 0.0 && b >= 0.0
    ensures a * b >= 0.0
  {
  }

  lemma MulMono(a: real, b: real, c: real)
    requires a >= 0.0 && b <= c
    ensures a * b <= a * c
  {
  }

  /** Scaling a side by a quotient of that side gives the ceiling back. */
  lemma Quotient(c: real, x: real) returns (q: real)
    requires x > 0.0
    ensures q == c / x && x * q == c
  {
    q := c / x;
  }

  lemma ScaleIsPositive(source: Size, max: Size)
    requires source.width > 0 && source.height > 0 && max.width > 0 && max.height > 0
    ensures Scale(source, max) > 0.0
  {
  }

  /** The two quotients the scale is chosen from. */
  lemma Quotients(source: Size, max: Size) returns (qw: real, qh: real)
    requires source.width > 0 && source.height > 0
    ensures source.width as real * qw == max.width as real && source.height as real * qh == max.height as real
    ensures qw >= 0.0 && qh >= 0.0 && Scale(source, max) == Min(Min(qw, qh), 1.0)
  {
    qw := Quotient(max.width as real, source.width as real);
    qh := Quotient(max.height as real, source.height as real);
  }

  lemma SideWithin(side: nat, scale: real, bound: nat)
    requires scale >= 0.0 && 0.0 <= side as real * scale <= bound as real
    ensures var r := Side(side, scale); r % 2 == 0 && 2 <= r <= MaxNat(2, bound)
  {
    SnapMeaning(side as real * scale, bound);
  }

  lemma ProductWithin(x: real, c: real, q: real, s: real)
    requires x > 0.0 && x * q == c && 0.0 <= s <= 1.0 && s <= q
    ensures 0.0 <= x * s <= x && x * s <= c
  {
    MulNonNegative(x, s);
    MulMono(x, s, 1.0);
    MulMono(x, s, q);
  }

  lemma SideInside(side: nat, ceiling: nat, q: real, scale: real)
    requires side > 0 && side as real * q == ceiling as real && 0.0 <= scale <= 1.0 && scale <= q
    ensures var r := Side(side, scale); r % 2 == 0 && 2 <= r <= MaxNat(2, MinNat(side, ceiling))
  {
    ProductWithin(side as real, ceiling as real, q, scale);
    SideWithin(side, scale, MinNat(side, ceiling));
  }

  lemma ScaledBound(x: real, s: real)
    requires x > 0.0 && 0.0 < s <= 1.0
    ensures 0.0 < x * s <= x
  {
    MulMono(x, s, 1.0);
    MulPositive(x, s);
  }

  lemma SnapMeaning(exact: real, bound: nat)
    requires 0.0 <= exact <= bound as real
    ensures var r := Snap(exact);
            && r % 2 == 0 && 2 <= r <= MaxNat(2, bound)
            && (exact > 0.0 ==> -2.0 < r as real - exact < 2.0)
            && (exact == bound as real ==> r == Even(MaxNat(2, bound)))
  {
    var n := Round(exact);
    assert n as real <= exact + 0.5 < n as real + 1.0;
    var m := MaxNat(n, 2);
    assert m - 1 <= Even(m) <= m;
  }

  lemma MulPositive(a: real, b: real)
    requires a > 0.0 && b > 0.0
    ensures a * b > 0.0
  {
  }

  /** Even, at least 2, and never larger than the source or the ceiling (or 2). */
  lemma FitIsTight(source: Size, max: Size)
    requires source.width > 0 && source.height > 0
    ensures var f := Fit(source, max);
            && f.width % 2 == 0 && f.height % 2 == 0
            && 2 <= f.width <= MaxNat(2, MinNat(source.width, max.width))
            && 2 <= f.height <= MaxNat(2, MinNat(source.height, max.height))
  {
    WidthInside(source, max);
    HeightInside(source, max);
  }

  lemma WidthInside(source: Size, max: Size)
    requires source.width > 0 && source.height > 0
    ensures var r := Side(source.width, Scale(source, max));
            r % 2 == 0 && 2 <= r <= MaxNat(2, MinNat(source.width, max.width))
  {
    var qw, qh := Quotients(source, max);
    SideInside(source.width, max.width, qw, Min(Min(qw, qh), 1.0));
  }

  lemma HeightInside(source: Size, max: Size)
    requires source.width > 0 && source.height > 0
    ensures var r := Side(source.height, Scale(source, max));
            r % 2 == 0 && 2 <= r <= MaxNat(2, MinNat(source.height, max.height))
  {
    var qw, qh := Quotients(source, max);
    SideInside(source.height, max.height, qh, Min(Min(qw, qh), 1.0));
  }

  /** The result stays inside the ceiling exactly when the ceiling has room for
      the smallest picture there is. */
  lemma InsideCeilingIff(source: Size, max: Size)
    requires source.width > 0 && source.height > 0
    ensures Fit(source, max).width <= max.width && Fit(source, max).height <= max.height
            <==> max.width >= 2 && max.height >= 2
  {
    FitIsTight(source, max);
  }

  /** Each side is within 2 of the exact uniform scale. */
  lemma WidthIsClose(source: Size, max: Size, w: real)
    requires w == source.width as real > 0.0 && source.height > 0 && max.width > 0 && max.height > 0
    ensures -2.0 < Fit(source, max).width as real - w * Scale(source, max) < 2.0
  {
    ScaleIsPositive(source, max);
    SideIsClose(source.width, w, Scale(source, max));
  }

  lemma HeightIsClose(source: Size, max: Size, h: real)
    requires h == source.height as real > 0.0 && source.width > 0 && max.width > 0 && max.height > 0
    ensures -2.0 < Fit(source, max).height as real - h * Scale(source, max) < 2.0
  {
    ScaleIsPositive(source, max);
    SideIsClose(source.height, h, Scale(source, max));
  }

  /** Cross-multiplied, how far two boxes are from having the same shape. */
  function Distortion(w: real, h: real, fw: real, fh: real): real {
    fw * h - fh * w
  }

  lemma SideIsClose(side: nat, x: real, scale: real)
    requires side > 0 && 0.0 < scale <= 1.0 && x == side as real
    ensures -2.0 < Side(side, scale) as real - x * scale < 2.0
  {
    ScaledBound(x, scale);
    SnapMeaning(x * scale, side);
  }

  lemma ScaledShape(source: Size, w: real, h: real, s: real)
    requires w == source.width as real > 0.0 && h == source.height as real > 0.0 && 0.0 < s <= 1.0
    ensures -2.0 * (w + h)
              < Distortion(w, h, Side(source.width, s) as real, Side(source.height, s) as real)
              < 2.0 * (w + h)
  {
    SideIsClose(source.width, w, s);
    SideIsClose(source.height, h, s);
    CrossError(w, h, Side(source.width, s) as real, Side(source.height, s) as real, s);
  }

  /** How far the result can be from the shape it was given. */
  lemma ShapeIsKept(source: Size, max: Size)
    requires source.width > 0 && source.height > 0 && max.width > 0 && max.height > 0
    ensures var (w, h) := (source.width as real, source.height as real);
            -2.0 * (w + h)
              < Distortion(w, h, Fit(source, max).width as real, Fit(source, max).height as real)
              < 2.0 * (w + h)
  {
    ScaleIsPositive(source, max);
    ScaledShape(source, source.width as real, source.height as real, Scale(source, max));
  }

  lemma CrossError(w: real, h: real, fw: real, fh: real, s: real)
    requires w > 0.0 && h > 0.0
    requires -2.0 < fw - w * s < 2.0 && -2.0 < fh - h * s < 2.0
    ensures -2.0 * (w + h) < Distortion(w, h, fw, fh) < 2.0 * (w + h)
  {
    var dw, dh := fw - w * s, fh - h * s;
    assert fw * h - fh * w == dw * h - dh * w by {
      assert dw * h == fw * h - w * s * h;
      assert dh * w == fh * w - h * s * w;
    }
    BoundedProduct(dw, h);
    BoundedProduct(dh, w);
  }

  lemma BoundedProduct(d: real, x: real)
    requires -2.0 < d < 2.0 && x > 0.0
    ensures -2.0 * x < d * x < 2.0 * x
  {
    MulPositive(2.0 - d, x);
    MulPositive(d + 2.0, x);
  }

  // ---------------------------------------------------------------------------
  // In whole numbers
  // ---------------------------------------------------------------------------

  /** `n` is the whole number nearest to `product / den`, a half counting up. */
  predicate Nearest(n: int, product: nat, den: nat) {
    (2 * n - 1) * den <= 2 * product < (2 * n + 1) * den
  }

  function EvenAtLeastTwo(n: nat): nat {
    if n < 2 then 2 else n - n % 2
  }

  lemma CrossOut(low: real, twice: real, high: real, d: real, p: real)
    requires d > 0.0 && twice * d == p && low <= twice < high
    ensures low * d <= p < high * d
  {
    MulMono(d, low, twice);
    MulStrict(d, twice, high);
  }

  lemma MulStrict(a: real, b: real, c: real)
    requires a > 0.0 && b < c
    ensures a * b < a * c
  {
  }

  lemma IntProduct(a: int, b: nat)
    ensures (a * b) as real == a as real * b as real
  {
  }

  lemma SwapFactors(a: real, b: real, c: real)
    ensures (a * b) * c == a * (b * c)
  {
  }

  lemma RoundIsNearest(exact: real, product: nat, den: nat) returns (n: nat)
    requires den > 0 && exact >= 0.0 && exact * den as real == product as real
    ensures Nearest(n, product, den) && Snap(exact) == EvenAtLeastTwo(n)
  {
    n := Round(exact);
    var twice := 2.0 * exact;
    Doubled(exact, den as real, twice);
    CrossOut((2 * n - 1) as real, twice, (2 * n + 1) as real, den as real, 2.0 * product as real);
    IntProduct(2 * n - 1, den);
    IntProduct(2 * n + 1, den);
  }

  lemma Doubled(a: real, b: real, twice: real)
    requires twice == 2.0 * a
    ensures twice * b == 2.0 * (a * b)
  {
  }

  lemma ScaledProduct(side: nat, x: real, num: nat, d: real, scale: real)
    requires x == side as real && scale * d == num as real
    ensures (x * scale) * d == (side * num) as real
  {
    SwapFactors(x, scale, d);
    IntProduct(side, num);
  }

  lemma SideSnaps(side: nat, scale: real)
    requires scale >= 0.0 && side as real * scale >= 0.0
    ensures Side(side, scale) == Snap(side as real * scale)
  {
  }

  /** A side scaled by `num / den` is the nearest whole number to it, at least 2 and made
      even downwards. */
  lemma NearestSide(side: nat, num: nat, den: nat, scale: real) returns (n: nat)
    requires den > 0 && scale >= 0.0 && scale * den as real == num as real
    ensures Nearest(n, side * num, den) && Side(side, scale) == EvenAtLeastTwo(n)
  {
    MulNonNegative(side as real, scale);
    SideSnaps(side, scale);
    ScaledProduct(side, side as real, num, den as real, scale);
    n := RoundIsNearest(side as real * scale, side * num, den);
  }

  /** The scale as a fraction: 1 for what fits already, and otherwise the smaller of the
      two quotients. */
  function Fraction(source: Size, max: Size): (nat, nat) {
    if source.width <= max.width && source.height <= max.height then (1, 1)
    else if max.width * source.height <= max.height * source.width then (max.width, source.width)
    else (max.height, source.height)
  }

  lemma AtMostOneIff(x: real, q: real, c: real)
    requires x > 0.0 && x * q == c
    ensures q <= 1.0 <==> c <= x
    ensures q < 1.0 <==> c < x
  {
    if q <= 1.0 {
      MulMono(x, q, 1.0);
    }
    if q < 1.0 {
      MulStrict(x, q, 1.0);
    }
    if q > 1.0 {
      MulStrict(x, 1.0, q);
    }
  }

  lemma Crossed(w: real, q: real, c: real, h: real)
    requires w * q == c
    ensures (w * h) * q == c * h
  {
    SwapFactors(w, h, q);
    Swapped(h, q);
    SwapFactors(w, q, h);
  }

  lemma OrderOf(w: real, qw: real, cw: real, h: real, qh: real, ch: real)
    requires w > 0.0 && h > 0.0 && w * qw == cw && h * qh == ch
    ensures qw <= qh <==> cw * h <= ch * w
  {
    var wh := w * h;
    MulPositive(w, h);
    Crossed(w, qw, cw, h);
    Crossed(h, qh, ch, w);
    Swapped(h, w);
    if qw <= qh {
      MulMono(wh, qw, qh);
    } else {
      MulStrict(wh, qh, qw);
    }
  }

  lemma QuotientOrder(w: nat, qw: real, cw: nat, h: nat, qh: real, ch: nat)
    requires w > 0 && h > 0 && w as real * qw == cw as real && h as real * qh == ch as real
    ensures qw <= qh <==> cw * h <= ch * w
  {
    OrderOf(w as real, qw, cw as real, h as real, qh, ch as real);
    IntProduct(cw, h);
    IntProduct(ch, w);
  }

  /** Which of the three the smallest is. */
  lemma Smallest(qw: real, qh: real, s: real, w: nat, h: nat, cw: nat, ch: nat, first: bool)
    requires s == Min(Min(qw, qh), 1.0) && (qw <= qh <==> first)
    requires (qw <= 1.0 <==> cw <= w) && (qw < 1.0 <==> cw < w) && (qh <= 1.0 <==> ch <= h) && (qh < 1.0 <==> ch < h)
    ensures s == if w <= cw && h <= ch then 1.0 else if first then qw else qh
  {
  }

  /** The scale the fraction stands for, the quotients being given. */
  function Picked(source: Size, max: Size, qw: real, qh: real): real {
    if source.width <= max.width && source.height <= max.height then 1.0
    else if max.width * source.height <= max.height * source.width then qw
    else qh
  }

  lemma ScaleIsPicked(source: Size, max: Size, qw: real, qh: real)
    requires source.width > 0 && source.height > 0
    requires source.width as real * qw == max.width as real && source.height as real * qh == max.height as real
    ensures Min(Min(qw, qh), 1.0) == Picked(source, max, qw, qh)
  {
    AtMostOneIff(source.width as real, qw, max.width as real);
    AtMostOneIff(source.height as real, qh, max.height as real);
    QuotientOrder(source.width, qw, max.width, source.height, qh, max.height);
    Smallest(qw, qh, Min(Min(qw, qh), 1.0), source.width, source.height, max.width, max.height,
             max.width * source.height <= max.height * source.width);
  }

  lemma PickedTimes(source: Size, max: Size, qw: real, qh: real)
    requires source.width > 0 && source.height > 0
    requires qw * source.width as real == max.width as real && qh * source.height as real == max.height as real
    ensures Fraction(source, max).1 > 0
    ensures Picked(source, max, qw, qh) * Fraction(source, max).1 as real == Fraction(source, max).0 as real
  {
  }

  lemma ScaleIsFraction(source: Size, max: Size)
    requires source.width > 0 && source.height > 0
    ensures Fraction(source, max).1 > 0
    ensures Scale(source, max) * Fraction(source, max).1 as real == Fraction(source, max).0 as real
  {
    var qw, qh := Quotients(source, max);
    ScaleIsPicked(source, max, qw, qh);
    Swapped(source.width as real, qw);
    Swapped(source.height as real, qh);
    PickedTimes(source, max, qw, qh);
  }

  lemma Swapped(a: real, b: real)
    ensures a * b == b * a
  {
  }

  lemma ScaleFacts(source: Size, max: Size, num: nat, den: nat) returns (scale: real)
    requires source.width > 0 && source.height > 0 && (num, den) == Fraction(source, max)
    ensures den > 0 && scale >= 0.0 && scale * den as real == num as real
    ensures Fit(source, max) == Size(Side(source.width, scale), Side(source.height, scale))
  {
    scale := Scale(source, max);
    ScaleIsFraction(source, max);
  }

  /** The whole result in whole numbers: each side is the nearest one to the source's side
      times the fraction, at least 2 and made even downwards. */
  lemma FitIsNearest(source: Size, max: Size, num: nat, den: nat) returns (w: nat, h: nat)
    requires source.width > 0 && source.height > 0 && (num, den) == Fraction(source, max)
    ensures Nearest(w, source.width * num, den) && Nearest(h, source.height * num, den)
    ensures Fit(source, max) == Size(EvenAtLeastTwo(w), EvenAtLeastTwo(h))
  {
    var scale := ScaleFacts(source, max, num, den);
    w := NearestSide(source.width, num, den, scale);
    h := NearestSide(source.height, num, den, scale);
  }

  /** Nothing to show, or no longer anything, is sent at no size. */
  lemma NothingFitsNothing(source: Size, max: Size)
    ensures Fit(source, max) == Size(0, 0) <==> source.width == 0 || source.height == 0
  {
    if source.width > 0 && source.height > 0 {
      FitIsTight(source, max);
    }
  }

  /** A laptop's screen at a common ceiling: 719.65 lines are 720. */
  lemma LaptopScreenFits()
    ensures Fit(Size(1366, 768), Size(1280, 720)) == Size(1280, 720)
  {
    var w, h := FitIsNearest(Size(1366, 768), Size(1280, 720), 1280, 1366);
    OnlyNearest(w, 1280, 1366 * 1280, 1366);
    OnlyNearest(h, 720, 768 * 1280, 1366);
  }

  lemma OnlyNearest(n: int, m: int, product: nat, den: nat)
    requires den > 0 && Nearest(n, product, den) && Nearest(m, product, den)
    ensures n == m
  {
    if n < m {
      assert (2 * n + 1) * den <= (2 * m - 1) * den by { GapOf(2 * n + 1, 2 * m - 1, den); }
    } else if m < n {
      assert (2 * m + 1) * den <= (2 * n - 1) * den by { GapOf(2 * m + 1, 2 * n - 1, den); }
    }
  }

  lemma GapOf(a: int, b: int, den: nat)
    requires a <= b
    ensures a * den <= b * den
  {
  }

  /** The largest such box: one side is as long as the source and the ceiling
      allow, up to evenness. */
  lemma OneSideIsMaximal(source: Size, max: Size)
    requires source.width > 0 && source.height > 0
    ensures || Fit(source, max).width == Even(MaxNat(2, MinNat(source.width, max.width)))
            || Fit(source, max).height == Even(MaxNat(2, MinNat(source.height, max.height)))
  {
    var qw, qh := Quotients(source, max);
    var s := Scale(source, max);
    if s == qw {
      QuotientSide(source.width, max.width, s);
    } else if s == qh {
      QuotientSide(source.height, max.height, s);
    } else {
      QuotientAtLeastOne(max.width, source.width);
      WholeSide(source.width);
    }
  }

  lemma QuotientSide(side: nat, ceiling: nat, q: real)
    requires side > 0 && side as real * q == ceiling as real && 0.0 <= q <= 1.0
    ensures Side(side, q) == Even(MaxNat(2, MinNat(side, ceiling)))
  {
    AtMost(side as real, q, ceiling as real);
    ExactSide(side, side as real, ceiling, q);
  }

  lemma AtMost(x: real, q: real, c: real)
    requires x > 0.0 && x * q == c && q <= 1.0
    ensures c <= x
  {
    MulMono(x, q, 1.0);
  }

  lemma WholeSide(side: nat)
    requires side > 0
    ensures Side(side, 1.0) == Even(MaxNat(2, side))
  {
    ExactSide(side, side as real, side, 1.0);
  }

  lemma ExactSide(side: nat, x: real, exact: nat, scale: real)
    requires side > 0 && x == side as real && scale >= 0.0 && x * scale == exact as real
    ensures Side(side, scale) == Even(MaxNat(2, exact))
  {
    assert side as real * scale == exact as real;
    assert Side(side, scale) == Snap(side as real * scale);
    SnapMeaning(exact as real, exact);
  }

  lemma QuotientAtLeastOne(ceiling: nat, side: nat)
    requires side > 0
    ensures ceiling as real / side as real >= 1.0 <==> ceiling >= side
  {
    var x, c := side as real, ceiling as real;
    var q := Quotient(c, x);
    AtLeastOne(x, q, c);
  }

  lemma AtLeastOne(x: real, q: real, c: real)
    requires x > 0.0 && x * q == c
    ensures q >= 1.0 <==> c >= x
  {
    if q >= 1.0 {
      MulMono(x, 1.0, q);
    } else {
      MulPositive(x, 1.0 - q);
      assert x * (1.0 - q) == x - x * q;
    }
  }

  /** A picture that already fits is only trimmed to even sides. */
  lemma FittingSourceIsOnlyTrimmed(source: Size, max: Size)
    requires 2 <= source.width <= max.width && 2 <= source.height <= max.height
    ensures Fit(source, max) == Size(Even(source.width), Even(source.height))
  {
    QuotientAtLeastOne(max.width, source.width);
    QuotientAtLeastOne(max.height, source.height);
    assert Scale(source, max) == 1.0;
  }

  /** Fitting twice is fitting once. */
  lemma FitIsIdempotent(source: Size, max: Size)
    requires max.width >= 2 && max.height >= 2
    ensures Fit(Fit(source, max), max) == Fit(source, max)
  {
    if source.width > 0 && source.height > 0 {
      FitIsTight(source, max);
      FittingSourceIsOnlyTrimmed(Fit(source, max), max);
    }
  }
}
