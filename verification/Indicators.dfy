/** True range, directional movement and Wilder smoothing, over exact reals; a missing value (NaN) is None. */
module Indicators {
  import opened Prelude

  datatype Candle = Candle(high: real, low: real, close: real)

  ghost predicate ValidCandles(cs: seq<Candle>) {
    forall i :: 0 <= i < |cs| ==> cs[i].low <= cs[i].close <= cs[i].high
  }

  // ---- the row formulas -------------------------------------------------------------------

  function TrueRangeAt(cs: seq<Candle>, i: nat): real
    requires i < |cs|
  {
    if i == 0 then cs[0].high - cs[0].low
    else
      var prev := cs[i - 1].close;
      Max(Abs(cs[i].high - cs[i].low), Max(Abs(cs[i].high - prev), Abs(cs[i].low - prev)))
  }

  function PlusDmAt(cs: seq<Candle>, i: nat): real
    requires i < |cs|
  {
    if i == 0 then 0.0
    else
      var up, down := cs[i].high - cs[i - 1].high, cs[i - 1].low - cs[i].low;
      if up > down && up > 0.0 then up else 0.0
  }

  function MinusDmAt(cs: seq<Candle>, i: nat): real
    requires i < |cs|
  {
    if i == 0 then 0.0
    else
      var up, down := cs[i].high - cs[i - 1].high, cs[i - 1].low - cs[i].low;
      if down > up && down > 0.0 then down else 0.0
  }

  function TrueRanges(cs: seq<Candle>): (r: seq<real>)
    ensures |r| == |cs|
  {
    seq(|cs|, i requires 0 <= i < |cs| => TrueRangeAt(cs, i))
  }

  function PlusDms(cs: seq<Candle>): (r: seq<real>)
    ensures |r| == |cs|
  {
    seq(|cs|, i requires 0 <= i < |cs| => PlusDmAt(cs, i))
  }

  function MinusDms(cs: seq<Candle>): (r: seq<real>)
    ensures |r| == |cs|
  {
    seq(|cs|, i requires 0 <= i < |cs| => MinusDmAt(cs, i))
  }

  /** All rows by the general formula, then the first one overwritten. */
  method TrueRange(cs: seq<Candle>) returns (tr: array<real>)
    ensures tr[..] == TrueRanges(cs)
  {
    tr := new real[|cs|];
    var i := 0;
    while i < |cs|
      invariant 0 <= i <= |cs| == tr.Length
      invariant forall k :: 0 < k < i ==> tr[k] == TrueRangeAt(cs, k)
    {
      var range := Abs(cs[i].high - cs[i].low);
      if i > 0 {
        var prev := cs[i - 1].close;
        range := Max(range, Max(Abs(cs[i].high - prev), Abs(cs[i].low - prev)));
      }
      tr[i] := range;
      i := i + 1;
    }
    if |cs| > 0 {
      tr[0] := cs[0].high - cs[0].low;
    }
  }

  // ---- Wilder smoothing ---------------------------------------------------------------------

  function Part(k: real, x: real): real {
    k * x
  }

  function Blend(alpha: real, x: real, y: real): real {
    Part(alpha, x) + Part(1.0 - alpha, y)
  }

  function Mean(values: seq<real>): real
    requires values != []
  {
    Sum(values) / |values| as real
  }

  /** Seeded with the mean of the first `n` values, then weighed 1/n new, the rest old. */
  function WilderAt(values: seq<real>, n: nat, i: nat): real
    requires 1 <= n && n - 1 <= i < |values|
  {
    if i == n - 1 then Mean(values[..n])
    else Blend(1.0 / n as real, values[i], WilderAt(values, n, i - 1))
  }

  /** The smoothed series on the grid of its input; nothing before the seed. */
  function Wilder(values: seq<real>, n: nat): (r: seq<Option<real>>)
    requires n >= 1
    ensures |r| == |values|
  {
    seq(|values|, i requires 0 <= i < |values| => if i < n - 1 then None else Some(WilderAt(values, n, i)))
  }

  lemma WilderStep(values: seq<real>, n: nat, i: nat)
    requires 1 <= n <= i < |values|
    ensures WilderAt(values, n, i) == Blend(1.0 / n as real, values[i], WilderAt(values, n, i - 1))
  {
  }

  lemma WilderSeed(values: seq<real>, n: nat)
    requires 1 <= n <= |values|
    ensures WilderAt(values, n, n - 1) == Mean(values[..n])
  {
  }

  /** Fill the result in place: nothing, the seed, then one blend a row. */
  method WilderSmooth(values: seq<real>, n: nat) returns (result: array<Option<real>>)
    requires n >= 1
    ensures result[..] == Wilder(values, n)
  {
    hide WilderAt, Blend;
    result := new Option<real>[|values|];
    var i := 0;
    while i < n && i < |values|
      invariant 0 <= i <= n && i <= |values| == result.Length
      invariant forall k :: 0 <= k < i ==> result[k] == None
    {
      result[i] := None;
      i := i + 1;
    }
    if |values| < n {
      return;
    }
    var last := Mean(values[..n]);
    WilderSeed(values, n);
    result[n - 1] := Some(last);
    var alpha := 1.0 / n as real;
    while i < |values|
      invariant n <= i <= |values| == result.Length
      invariant forall k :: 0 <= k < n - 1 ==> result[k] == None
      invariant forall k :: n - 1 <= k < i ==> result[k] == Some(WilderAt(values, n, k))
      invariant last == WilderAt(values, n, i - 1)
    {
      WilderStep(values, n, i);
      last := Blend(alpha, values[i], last);
      result[i] := Some(last);
      i := i + 1;
    }
  }

  // ---- smoothing is additive and monotone ---------------------------------------------------

  lemma {:induction false} SumDominates(a: seq<real>, b: seq<real>, t: seq<real>)
    requires |a| == |b| == |t| && forall k :: 0 <= k < |a| ==> a[k] + b[k] <= t[k]
    ensures Sum(a) + Sum(b) <= Sum(t)
  {
    if a != [] {
      SumDominates(a[..|a| - 1], b[..|a| - 1], t[..|a| - 1]);
    }
  }

  lemma {:induction false} SumWithin(a: seq<real>, low: real, high: real)
    requires forall k :: 0 <= k < |a| ==> low <= a[k] <= high
    ensures low * |a| as real <= Sum(a) <= high * |a| as real
  {
    if a != [] {
      var n := |a| - 1;
      SumWithin(a[..n], low, high);
      assert |a| as real == n as real + 1.0;
      assert low * (n as real + 1.0) == low * n as real + low;
      assert high * (n as real + 1.0) == high * n as real + high;
    }
  }

  lemma DivideSum(x: real, y: real, z: real, n: real)
    requires n > 0.0 && x + y <= z
    ensures x / n + y / n <= z / n
  {
    var p, q, r := x / n, y / n, z / n;
    assert p * n == x && q * n == y && r * n == z;
    assert p + q > r ==> (p + q - r) * n > 0.0;
  }

  lemma DivideWithin(x: real, low: real, high: real, n: real)
    requires n > 0.0 && low * n <= x <= high * n
    ensures low <= x / n <= high
  {
    var q := x / n;
    assert q * n == x;
    assert q < low ==> (low - q) * n > 0.0;
    assert q > high ==> (q - high) * n > 0.0;
  }

  lemma AlphaInUnit(n: nat)
    requires n >= 1
    ensures 0.0 < 1.0 / n as real <= 1.0
  {
    DivideWithin(1.0, 0.0, 1.0, n as real);
    var q := 1.0 / n as real;
    assert q * n as real == 1.0;
  }

  lemma PartSum(k: real, x: real, y: real)
    ensures Part(k, x + y) == Part(k, x) + Part(k, y)
  {
  }

  lemma PartMonotone(k: real, x: real, y: real)
    requires k >= 0.0 && x <= y
    ensures Part(k, x) <= Part(k, y)
  {
    assert k * (y - x) >= 0.0;
  }

  lemma PartsMakeWhole(k: real, x: real)
    ensures Part(k, x) + Part(1.0 - k, x) == x
  {
  }

  lemma BlendDominates(alpha: real, a: real, b: real, t: real, a': real, b': real, t': real)
    requires 0.0 < alpha <= 1.0 && a + b <= t && a' + b' <= t'
    ensures Blend(alpha, a, a') + Blend(alpha, b, b') <= Blend(alpha, t, t')
  {
    hide Part;
    PartSum(alpha, a, b);
    PartSum(1.0 - alpha, a', b');
    PartMonotone(alpha, a + b, t);
    PartMonotone(1.0 - alpha, a' + b', t');
  }

  lemma BlendWithin(alpha: real, x: real, y: real, low: real, high: real)
    requires 0.0 < alpha <= 1.0 && low <= x <= high && low <= y <= high
    ensures low <= Blend(alpha, x, y) <= high
  {
    hide Part;
    PartMonotone(alpha, low, x);
    PartMonotone(alpha, x, high);
    PartMonotone(1.0 - alpha, low, y);
    PartMonotone(1.0 - alpha, y, high);
    PartsMakeWhole(alpha, low);
    PartsMakeWhole(alpha, high);
  }

  lemma BlendNonNegative(alpha: real, x: real, y: real)
    requires 0.0 < alpha <= 1.0 && x >= 0.0 && y >= 0.0
    ensures Blend(alpha, x, y) >= 0.0
  {
    BlendWithin(alpha, x, y, 0.0, Max(x, y));
  }

  /** Two series dominated row by row stay dominated by the third after smoothing. */
  lemma {:induction false} WilderDominates(a: seq<real>, b: seq<real>, t: seq<real>, n: nat, i: nat)
    requires |a| == |b| == |t| && forall k :: 0 <= k < |a| ==> a[k] + b[k] <= t[k]
    requires 1 <= n && n - 1 <= i < |a|
    ensures WilderAt(a, n, i) + WilderAt(b, n, i) <= WilderAt(t, n, i)
  {
    hide Blend;
    if i == n - 1 {
      SumDominates(a[..n], b[..n], t[..n]);
      DivideSum(Sum(a[..n]), Sum(b[..n]), Sum(t[..n]), n as real);
    } else {
      WilderDominates(a, b, t, n, i - 1);
      AlphaInUnit(n);
      BlendDominates(1.0 / n as real, a[i], b[i], t[i], WilderAt(a, n, i - 1), WilderAt(b, n, i - 1),
                     WilderAt(t, n, i - 1));
    }
  }

  /** Smoothing does not leave the range of its input. */
  lemma {:induction false} WilderWithin(a: seq<real>, low: real, high: real, n: nat, i: nat)
    requires forall k :: 0 <= k < |a| ==> low <= a[k] <= high
    requires 1 <= n && n - 1 <= i < |a|
    ensures low <= WilderAt(a, n, i) <= high
  {
    hide Blend;
    if i == n - 1 {
      SumWithin(a[..n], low, high);
      DivideWithin(Sum(a[..n]), low, high, n as real);
    } else {
      WilderWithin(a, low, high, n, i - 1);
      AlphaInUnit(n);
      BlendWithin(1.0 / n as real, a[i], WilderAt(a, n, i - 1), low, high);
    }
  }

  lemma {:induction false} SumNonNegative(a: seq<real>)
    requires forall k :: 0 <= k < |a| ==> a[k] >= 0.0
    ensures Sum(a) >= 0.0
  {
    if a != [] {
      SumNonNegative(a[..|a| - 1]);
    }
  }

  lemma {:induction false} WilderNonNegative(a: seq<real>, n: nat, i: nat)
    requires forall k :: 0 <= k < |a| ==> a[k] >= 0.0
    requires 1 <= n && n - 1 <= i < |a|
    ensures WilderAt(a, n, i) >= 0.0
  {
    hide Blend;
    if i == n - 1 {
      SumNonNegative(a[..n]);
      DivideSum(0.0, 0.0, Sum(a[..n]), n as real);
    } else {
      WilderNonNegative(a, n, i - 1);
      AlphaInUnit(n);
      BlendNonNegative(1.0 / n as real, a[i], WilderAt(a, n, i - 1));
    }
  }

  // ---- directional index ------------------------------------------------------------------

  /** Both movements are non-negative, at most one is positive, and together they fit in the true range. */
  lemma MovementWithinRange(cs: seq<Candle>, i: nat)
    requires ValidCandles(cs) && i < |cs|
    ensures PlusDmAt(cs, i) >= 0.0 && MinusDmAt(cs, i) >= 0.0
    ensures PlusDmAt(cs, i) == 0.0 || MinusDmAt(cs, i) == 0.0
    ensures PlusDmAt(cs, i) + MinusDmAt(cs, i) <= TrueRangeAt(cs, i)
  {
    if i > 0 {
      assert cs[i - 1].low <= cs[i - 1].close <= cs[i - 1].high;
    }
  }

  /** 100 * smoothed movement / smoothed true range; 0/0 is missing. */
  function DiAt(dm: seq<real>, tr: seq<real>, n: nat, i: nat): Option<real>
    requires |dm| == |tr| && 1 <= n && i < |tr|
  {
    if i < n - 1 || WilderAt(tr, n, i) == 0.0 then None else Some(100.0 * WilderAt(dm, n, i) / WilderAt(tr, n, i))
  }

  function DxOf(plus: Option<real>, minus: Option<real>): Option<real> {
    if plus.None? || minus.None? || plus.value + minus.value == 0.0 then None
    else Some(100.0 * Abs(plus.value - minus.value) / (plus.value + minus.value))
  }

  function PlusDi(cs: seq<Candle>, n: nat, i: nat): Option<real>
    requires 1 <= n && i < |cs|
  {
    DiAt(PlusDms(cs), TrueRanges(cs), n, i)
  }

  function MinusDi(cs: seq<Candle>, n: nat, i: nat): Option<real>
    requires 1 <= n && i < |cs|
  {
    DiAt(MinusDms(cs), TrueRanges(cs), n, i)
  }

  /** The defined directional indices up to a row, oldest first. */
  function DefinedDx(cs: seq<Candle>, n: nat, rows: nat): seq<real>
    requires 1 <= n && rows <= |cs|
  {
    if rows == 0 then []
    else
      var dx := DxOf(PlusDi(cs, n, rows - 1), MinusDi(cs, n, rows - 1));
      DefinedDx(cs, n, rows - 1) + if dx.Some? then [dx.value] else []
  }

  /** ADX at a row: the smoothed defined indices, on the original grid. */
  function AdxAt(cs: seq<Candle>, n: nat, i: nat): Option<real>
    requires 1 <= n && i < |cs|
  {
    var dx := DefinedDx(cs, n, i + 1);
    if DxOf(PlusDi(cs, n, i), MinusDi(cs, n, i)).None? || |dx| < n then None else Some(WilderAt(dx, n, |dx| - 1))
  }

  lemma SmoothedMovement(cs: seq<Candle>, n: nat, i: nat)
    requires ValidCandles(cs) && 1 <= n && n - 1 <= i < |cs|
    ensures
      var p, m, t := WilderAt(PlusDms(cs), n, i), WilderAt(MinusDms(cs), n, i), WilderAt(TrueRanges(cs), n, i);
      p >= 0.0 && m >= 0.0 && p + m <= t
  {
    hide WilderAt, PlusDmAt, MinusDmAt, TrueRangeAt;
    forall k | 0 <= k < |cs|
      ensures PlusDms(cs)[k] >= 0.0 && MinusDms(cs)[k] >= 0.0
      ensures PlusDms(cs)[k] + MinusDms(cs)[k] <= TrueRanges(cs)[k]
    {
      MovementWithinRange(cs, k);
    }
    WilderNonNegative(PlusDms(cs), n, i);
    WilderNonNegative(MinusDms(cs), n, i);
    WilderDominates(PlusDms(cs), MinusDms(cs), TrueRanges(cs), n, i);
  }

  lemma PercentShare(p: real, m: real, t: real)
    requires p >= 0.0 && m >= 0.0 && p + m <= t && t > 0.0
    ensures 100.0 * p / t >= 0.0 && 100.0 * m / t >= 0.0 && 100.0 * p / t + 100.0 * m / t <= 100.0
  {
    DivideSum(100.0 * p, 100.0 * m, 100.0 * t, t);
    DivideSum(0.0, 0.0, 100.0 * p, t);
    DivideSum(0.0, 0.0, 100.0 * m, t);
    DivideWithin(100.0 * t, 100.0, 100.0, t);
  }

  /**
   * Wherever they are defined, +DI and -DI are non-negative and sum to at most 100; they are undefined only together,
   * and a vanishing true range leaves 0/0, never a division of something by nothing.
   */
  lemma DirectionalIndexBounds(cs: seq<Candle>, n: nat, i: nat)
    requires ValidCandles(cs) && 1 <= n && i < |cs|
    ensures
      var p, m := PlusDi(cs, n, i), MinusDi(cs, n, i);
      && (p.Some? <==> m.Some?)
      && (p.Some? ==> p.value >= 0.0 && m.value >= 0.0 && p.value + m.value <= 100.0)
      && (p.None? && n - 1 <= i ==>
            WilderAt(TrueRanges(cs), n, i) == 0.0 && WilderAt(PlusDms(cs), n, i) == 0.0 &&
              WilderAt(MinusDms(cs), n, i) == 0.0)
  {
    hide WilderAt, PlusDms, MinusDms, TrueRanges;
    if n - 1 <= i {
      SmoothedMovement(cs, n, i);
      if WilderAt(TrueRanges(cs), n, i) > 0.0 {
        PercentShare(WilderAt(PlusDms(cs), n, i), WilderAt(MinusDms(cs), n, i), WilderAt(TrueRanges(cs), n, i));
      }
    }
  }

  lemma DxBounds(p: real, m: real)
    requires p >= 0.0 && m >= 0.0 && p + m > 0.0
    ensures 0.0 <= 100.0 * Abs(p - m) / (p + m) <= 100.0
  {
    DivideWithin(100.0 * Abs(p - m), 0.0, 100.0, p + m);
  }

  lemma {:induction false} DefinedDxBounds(cs: seq<Candle>, n: nat, rows: nat)
    requires ValidCandles(cs) && 1 <= n && rows <= |cs|
    ensures forall k :: 0 <= k < |DefinedDx(cs, n, rows)| ==> 0.0 <= DefinedDx(cs, n, rows)[k] <= 100.0
  {
    hide PlusDi, MinusDi;
    if rows > 0 {
      DefinedDxBounds(cs, n, rows - 1);
      DirectionalIndexBounds(cs, n, rows - 1);
      var p, m := PlusDi(cs, n, rows - 1), MinusDi(cs, n, rows - 1);
      if DxOf(p, m).Some? {
        DxBounds(p.value, m.value);
      }
    }
  }

  /** ADX lies in [0, 100] wherever it is defined. */
  lemma AdxBounds(cs: seq<Candle>, n: nat, i: nat)
    requires ValidCandles(cs) && 1 <= n && i < |cs|
    ensures AdxAt(cs, n, i).Some? ==> 0.0 <= AdxAt(cs, n, i).value <= 100.0
  {
    hide PlusDi, MinusDi, DefinedDx, WilderAt;
    var dx := DefinedDx(cs, n, i + 1);
    DefinedDxBounds(cs, n, i + 1);
    if |dx| >= n {
      WilderWithin(dx, 0.0, 100.0, n, |dx| - 1);
    }
  }

  // ---- what the figures are ---------------------------------------------------------------------

  /** The true range runs from the higher of high and last close to the lower of low and last close. */
  lemma TrueRangeSpansClose(cs: seq<Candle>, i: nat)
    requires ValidCandles(cs) && i < |cs|
    ensures
      TrueRangeAt(cs, i) ==
      if i == 0 then cs[0].high - cs[0].low
      else Max(cs[i].high, cs[i - 1].close) - Min(cs[i].low, cs[i - 1].close)
  {
  }

  /** The upward movement counts when it is positive and the larger of the two, and the downward one likewise. */
  lemma LargerMovementCounts(cs: seq<Candle>, i: nat)
    requires 0 < i < |cs|
    ensures
      var up, down := cs[i].high - cs[i - 1].high, cs[i - 1].low - cs[i].low;
      && PlusDms(cs)[i] == (if up > Max(down, 0.0) then up else 0.0)
      && MinusDms(cs)[i] == (if down > Max(up, 0.0) then down else 0.0)
      && PlusDms(cs)[0] == 0.0 && MinusDms(cs)[0] == 0.0
  {
  }

  lemma MeanTimes(x: real, n: real)
    requires n > 0.0
    ensures Part(n, x / n) == x
  {
  }

  lemma AlphaTimes(n: real, x: real, y: real)
    requires n > 0.0
    ensures Part(n, Blend(1.0 / n, x, y)) == x + Part(n - 1.0, y)
  {
    var alpha := 1.0 / n;
    assert n * alpha == 1.0;
    assert n * (alpha * x) == (n * alpha) * x;
    assert n * ((1.0 - alpha) * y) == (n - n * alpha) * y;
  }

  /** Wilder's recurrence: n seeds are the sum of the first n, and n times a row is the new value and n - 1 old rows. */
  lemma WilderRecurrence(values: seq<real>, n: nat, i: nat)
    requires 1 <= n && n - 1 <= i < |values|
    ensures
      Part(n as real, WilderAt(values, n, i)) ==
      if i == n - 1 then Sum(values[..n]) else values[i] + Part(n as real - 1.0, WilderAt(values, n, i - 1))
  {
    hide Part, Blend;
    if i == n - 1 {
      MeanTimes(Sum(values[..n]), n as real);
    } else {
      AlphaTimes(n as real, values[i], WilderAt(values, n, i - 1));
    }
  }

  lemma PercentBack(x: real, t: real)
    requires t != 0.0
    ensures Part(100.0 * x / t, t) == 100.0 * x
  {
  }

  /**
   * A directional index times the smoothed true range is a hundred smoothed movements; it is missing before the seed or for
   * a vanishing range only.
   */
  lemma DirectionalIndexIs(cs: seq<Candle>, n: nat, i: nat)
    requires 1 <= n && i < |cs|
    ensures PlusDi(cs, n, i).None? <==> i < n - 1 || WilderAt(TrueRanges(cs), n, i) == 0.0
    ensures MinusDi(cs, n, i).None? <==> i < n - 1 || WilderAt(TrueRanges(cs), n, i) == 0.0
    ensures
      PlusDi(cs, n, i).Some? ==>
        Part(PlusDi(cs, n, i).value, WilderAt(TrueRanges(cs), n, i)) == 100.0 * WilderAt(PlusDms(cs), n, i)
    ensures
      MinusDi(cs, n, i).Some? ==>
        Part(MinusDi(cs, n, i).value, WilderAt(TrueRanges(cs), n, i)) == 100.0 * WilderAt(MinusDms(cs), n, i)
  {
    hide WilderAt, TrueRanges, PlusDms, MinusDms, Part;
    if n - 1 <= i && WilderAt(TrueRanges(cs), n, i) != 0.0 {
      PercentBack(WilderAt(PlusDms(cs), n, i), WilderAt(TrueRanges(cs), n, i));
      PercentBack(WilderAt(MinusDms(cs), n, i), WilderAt(TrueRanges(cs), n, i));
    }
  }

  /**
   * DX weighs the difference of the two indices against their sum: missing when one is or both vanish, zero exactly when
   * they are equal and a hundred exactly when one of them vanishes.
   */
  lemma DxIs(plus: Option<real>, minus: Option<real>)
    requires plus.Some? ==> plus.value >= 0.0
    requires minus.Some? ==> minus.value >= 0.0
    ensures DxOf(plus, minus).None? <==> plus.None? || minus.None? || (plus.value == 0.0 && minus.value == 0.0)
    ensures
      DxOf(plus, minus).Some? ==>
        var dx, p, m := DxOf(plus, minus).value, plus.value, minus.value;
        && Part(dx, p + m) == 100.0 * Abs(p - m)
        && (dx == 0.0 <==> p == m) && (dx == 100.0 <==> p == 0.0 || m == 0.0)
        && DxOf(minus, plus) == DxOf(plus, minus)
  {
    hide Part;
    if DxOf(plus, minus).Some? {
      PercentOf(Abs(plus.value - minus.value), plus.value + minus.value);
    }
  }

  /** A percentage brings its part back; it is nothing for nothing and a hundred for the whole. */
  lemma PercentOf(x: real, t: real)
    requires t > 0.0
    ensures
      var q := 100.0 * x / t;
      Part(q, t) == 100.0 * x && (q == 0.0 <==> x == 0.0) && (q == 100.0 <==> x == t)
  {
    PercentBack(x, t);
    var q := 100.0 * x / t;
    if x == t {
      assert (q - 100.0) * t == 0.0;
    }
  }

  function DxAt(cs: seq<Candle>, n: nat, i: nat): Option<real>
    requires 1 <= n && i < |cs|
  {
    DxOf(PlusDi(cs, n, i), MinusDi(cs, n, i))
  }

  lemma {:induction false} NoDxBetween(cs: seq<Candle>, n: nat, from: nat, rows: nat)
    requires 1 <= n && from <= rows <= |cs| && forall k :: from <= k < rows ==> DxAt(cs, n, k).None?
    ensures DefinedDx(cs, n, rows) == DefinedDx(cs, n, from)
  {
    hide PlusDi, MinusDi;
    if from < rows {
      assert DxAt(cs, n, rows - 1).None?;
      NoDxBetween(cs, n, from, rows - 1);
    }
  }

  lemma {:induction false} WilderOfPrefix(values: seq<real>, more: seq<real>, n: nat, i: nat)
    requires 1 <= n && n - 1 <= i < |values|
    ensures WilderAt(values + more, n, i) == WilderAt(values, n, i)
  {
    hide Blend, Mean;
    if i == n - 1 {
      assert (values + more)[..n] == values[..n];
    } else {
      WilderOfPrefix(values, more, n, i - 1);
    }
  }

  /**
   * ADX is missing wherever DX is, and before n values of it; its first value is the mean of those, and from one defined
   * row to the next it follows Wilder's recurrence over the values of DX, however many rows without one lie between.
   */
  lemma AdxFollowsDx(cs: seq<Candle>, n: nat, i: nat)
    requires 1 <= n && i < |cs|
    ensures AdxAt(cs, n, i).Some? <==> DxAt(cs, n, i).Some? && |DefinedDx(cs, n, i + 1)| >= n
    ensures
      AdxAt(cs, n, i).Some? && |DefinedDx(cs, n, i + 1)| == n ==>
        Part(n as real, AdxAt(cs, n, i).value) == Sum(DefinedDx(cs, n, i + 1))
    ensures
      forall j :: 0 <= j < i && AdxAt(cs, n, j).Some? && DxAt(cs, n, i).Some? &&
        (forall k :: j < k < i ==> DxAt(cs, n, k).None?)
        ==> AdxAt(cs, n, i).Some? &&
            Part(n as real, AdxAt(cs, n, i).value) ==
            DxAt(cs, n, i).value + Part(n as real - 1.0, AdxAt(cs, n, j).value)
  {
    hide PlusDi, MinusDi, WilderAt, Part, Blend;
    var dx := DefinedDx(cs, n, i + 1);
    if |dx| == n {
      WilderRecurrence(dx, n, n - 1);
      assert dx[..n] == dx;
    }
    forall j | 0 <= j < i && AdxAt(cs, n, j).Some? && DxAt(cs, n, i).Some? && forall k :: j < k < i ==> DxAt(cs, n, k).None?
      ensures AdxAt(cs, n, i).Some?
      ensures
        Part(n as real, AdxAt(cs, n, i).value) == DxAt(cs, n, i).value + Part(n as real - 1.0, AdxAt(cs, n, j).value)
    {
      NoDxBetween(cs, n, j + 1, i);
      var before := DefinedDx(cs, n, j + 1);
      assert dx == before + [DxAt(cs, n, i).value];
      WilderRecurrence(dx, n, |before|);
      WilderOfPrefix(before, [DxAt(cs, n, i).value], n, |before| - 1);
    }
  }

  // ---- trends and mirrors -----------------------------------------------------------------------

  /** No low falls below the one before, so nothing ever counts as downward movement. */
  ghost predicate NeverDown(cs: seq<Candle>) {
    forall i :: 0 < i < |cs| ==> cs[i].low >= cs[i - 1].low
  }

  lemma {:induction false} TrendDx(cs: seq<Candle>, n: nat, rows: nat)
    requires ValidCandles(cs) && NeverDown(cs) && 1 <= n && rows <= |cs|
    ensures forall k :: 0 <= k < |DefinedDx(cs, n, rows)| ==> DefinedDx(cs, n, rows)[k] == 100.0
  {
    hide PlusDi, MinusDi, DxOf, WilderAt, MinusDms, Part;
    if rows > 0 {
      TrendDx(cs, n, rows - 1);
      NothingDown(cs, n, rows - 1);
      DirectionalIndexBounds(cs, n, rows - 1);
      DxIs(PlusDi(cs, n, rows - 1), MinusDi(cs, n, rows - 1));
    }
  }

  lemma NothingDown(cs: seq<Candle>, n: nat, i: nat)
    requires NeverDown(cs) && 1 <= n && i < |cs|
    ensures MinusDi(cs, n, i).Some? ==> MinusDi(cs, n, i).value == 0.0
  {
    hide WilderAt, TrueRanges, Part;
    if n - 1 <= i {
      WilderWithin(MinusDms(cs), 0.0, 0.0, n, i);
      DirectionalIndexIs(cs, n, i);
      if MinusDi(cs, n, i).Some? {
        FactorIsZero(MinusDi(cs, n, i).value, WilderAt(TrueRanges(cs), n, i));
      }
    }
  }

  lemma FactorIsZero(x: real, t: real)
    requires t != 0.0 && Part(x, t) == 0.0
    ensures x == 0.0
  {
  }

  /** In a market whose lows never fall ADX is a hundred wherever it is defined. */
  lemma TrendHasFullAdx(cs: seq<Candle>, n: nat, i: nat)
    requires ValidCandles(cs) && NeverDown(cs) && 1 <= n && i < |cs|
    ensures AdxAt(cs, n, i).Some? ==> AdxAt(cs, n, i).value == 100.0
  {
    hide PlusDi, MinusDi, DefinedDx, WilderAt;
    var dx := DefinedDx(cs, n, i + 1);
    TrendDx(cs, n, i + 1);
    if |dx| >= n {
      WilderWithin(dx, 100.0, 100.0, n, |dx| - 1);
    }
  }

  /** The same market upside down. */
  function Flipped(cs: seq<Candle>): (r: seq<Candle>)
    ensures |r| == |cs|
  {
    seq(|cs|, i requires 0 <= i < |cs| => Candle(-cs[i].low, -cs[i].high, -cs[i].close))
  }

  lemma FlippedRows(cs: seq<Candle>)
    ensures TrueRanges(Flipped(cs)) == TrueRanges(cs)
    ensures PlusDms(Flipped(cs)) == MinusDms(cs) && MinusDms(Flipped(cs)) == PlusDms(cs)
  {
  }

  lemma DxIsEven(plus: Option<real>, minus: Option<real>)
    ensures DxOf(minus, plus) == DxOf(plus, minus)
  {
  }

  lemma {:induction false} FlippedDx(cs: seq<Candle>, n: nat, rows: nat)
    requires 1 <= n && rows <= |cs|
    ensures DefinedDx(Flipped(cs), n, rows) == DefinedDx(cs, n, rows)
  {
    hide DiAt, TrueRanges, PlusDms, MinusDms, DxOf;
    if rows > 0 {
      FlippedDx(cs, n, rows - 1);
      FlippedRows(cs);
      DxIsEven(PlusDi(cs, n, rows - 1), MinusDi(cs, n, rows - 1));
    }
  }

  /** Turned upside down a market swaps its two directional indices and keeps its true range and its ADX. */
  lemma FlippingSwaps(cs: seq<Candle>, n: nat, i: nat)
    requires 1 <= n && i < |cs|
    ensures TrueRanges(Flipped(cs)) == TrueRanges(cs)
    ensures PlusDi(Flipped(cs), n, i) == MinusDi(cs, n, i) && MinusDi(Flipped(cs), n, i) == PlusDi(cs, n, i)
    ensures AdxAt(Flipped(cs), n, i) == AdxAt(cs, n, i)
  {
    hide DiAt, TrueRanges, PlusDms, MinusDms, DxOf, DefinedDx, WilderAt;
    FlippedRows(cs);
    FlippedDx(cs, n, i + 1);
    DxIsEven(PlusDi(cs, n, i), MinusDi(cs, n, i));
  }
}
