/** Choosing the raster density of a grid (`rasterMetrics` in `presenter-adapter.js`), over the reals. */
module Raster {
  import opened Common

  const MAX_DIMENSION := 16384
  const MAX_PIXELS := 16777216
  const LEAST: real := 1.0 / 9.0
  const MOST: real := 128.0 / 9.0
  const ROUNDS: nat := 48

  datatype Metrics = Metrics(cellWidth: real, cellHeight: real)

  function Ceil(x: real): int {
    -((0.0 - x).Floor)
  }

  lemma CeilMonotone(x: real, y: real)
    requires x <= y
    ensures Ceil(x) <= Ceil(y)
  {
  }

  function Width(cols: nat, ratio: real): int {
    Ceil(cols as real * (9.0 * ratio))
  }

  function Height(rows: nat, ratio: real): int {
    Ceil(rows as real * (18.0 * ratio))
  }

  predicate WithinCaps(width: int, height: int) {
    width <= MAX_DIMENSION && height <= MAX_DIMENSION && width * height <= MAX_PIXELS
  }

  predicate Fits(cols: nat, rows: nat, ratio: real) {
    WithinCaps(Width(cols, ratio), Height(rows, ratio))
  }

  lemma Scaled(n: nat, k: real, x: real, y: real)
    requires 0.0 <= x <= y && 0.0 <= k
    ensures 0.0 <= n as real * (k * x) <= n as real * (k * y)
  {
  }

  lemma ProductMonotone(a: int, b: int, c: int, d: int)
    requires 0 <= a <= c && 0 <= b <= d
    ensures a * b <= c * d
  {
  }

  /** A denser raster never fits where a sparser one does not. */
  lemma FitsIsAntitone(cols: nat, rows: nat, x: real, y: real)
    requires 0.0 <= x <= y && Fits(cols, rows, y)
    ensures Fits(cols, rows, x)
  {
    Scaled(cols, 9.0, x, y);
    Scaled(rows, 18.0, x, y);
    CeilMonotone(cols as real * (9.0 * x), cols as real * (9.0 * y));
    CeilMonotone(rows as real * (18.0 * x), rows as real * (18.0 * y));
    CeilMonotone(0.0, cols as real * (9.0 * x));
    CeilMonotone(0.0, rows as real * (18.0 * x));
    ProductMonotone(Width(cols, x), Height(rows, x), Width(cols, y), Height(rows, y));
  }

  function Clamped(requested: real): (r: real)
    ensures LEAST <= r <= MOST
    ensures LEAST <= requested <= MOST ==> r == requested
    ensures requested < LEAST ==> r == LEAST
    ensures requested > MOST ==> r == MOST
  {
    var capped := if requested <= MOST then requested else MOST;
    if capped >= LEAST then capped else LEAST
  }

  lemma Halved(gap: real, n: nat, whole: real)
    requires HalvedTo(gap, n, whole)
    ensures HalvedTo(gap / 2.0, n + 1, whole)
  {
  }

  /** The bisection's precision: the widest gap it starts from, halved forty-eight times. */
  ghost predicate WithinPrecision(gap: real) {
    0.0 <= gap && gap * Pow2(ROUNDS) as real <= 127.0 / 9.0
  }

  /** The ratio that a pair of metrics stands for. */
  function Ratio(m: Metrics): real {
    m.cellWidth / 9.0
  }

  lemma MiddleHalves(low: real, top: real)
    requires low <= top
    ensures var middle := (low + top) / 2.0;
            low <= middle <= top && middle - low == (top - low) / 2.0 && top - middle == (top - low) / 2.0
  {
  }

  /** The gap after `n` halvings of `whole`. */
  predicate HalvedTo(gap: real, n: nat, whole: real) {
    gap * Pow2(n) as real == whole
  }

  /** Forty-eight halvings of an interval that starts at a fitting ratio and ends at one that does not. */
  method Bisect(fits: real -> bool, least: real, most: real) returns (low: real, ghost high: real)
    requires least <= most && fits(least) && !fits(most)
    ensures least <= low <= high <= most && fits(low) && !fits(high)
    ensures HalvedTo(high - low, ROUNDS, most - least)
  {
    low := least;
    var top := most;
    for i := 0 to ROUNDS
      invariant least <= low <= top <= most && fits(low) && !fits(top)
      invariant HalvedTo(top - low, i, most - least)
    {
      Halved(top - low, i, most - least);
      MiddleHalves(low, top);
      var middle := (low + top) / 2.0;
      if fits(middle) { low := middle; } else { top := middle; }
    }
    high := top;
  }

  lemma PrecisionReached(gap: real, whole: real)
    requires 0.0 <= gap && HalvedTo(gap, ROUNDS, whole) && whole <= MOST - LEAST
    ensures WithinPrecision(gap)
  {
  }

  /** The ratio to use, and a witness that nothing much larger would do. */
  method Densest(fits: real -> bool, requested: real) returns (r: Option<real>, ghost high: real)
    ensures r.None? <==> !fits(LEAST)
    ensures r.Some? ==> LEAST <= r.value <= Clamped(requested) && fits(r.value)
    ensures r.Some? && fits(Clamped(requested)) ==> r.value == Clamped(requested)
    ensures r.Some? && !fits(Clamped(requested)) ==>
              r.value <= high <= Clamped(requested) && !fits(high) && WithinPrecision(high - r.value)
  {
    high := 0.0;
    if !fits(LEAST) { return None, 0.0; }
    var low := Clamped(requested);
    if !fits(low) {
      ghost var top;
      low, top := Bisect(fits, LEAST, low);
      PrecisionReached(top - low, Clamped(requested) - LEAST);
      high := top;
    }
    r := Some(low);
  }

  /** It is the clamped request if that fits, and otherwise a ratio that fits within the precision of one
      that does not; so no admissible ratio that fits is larger by more than the precision. It refuses
      exactly when not even the least ratio fits. */
  method RasterMetrics(cols: nat, rows: nat, requested: real) returns (r: Option<Metrics>, ghost high: real)
    ensures r.None? <==> !Fits(cols, rows, LEAST)
    ensures r.Some? ==> IsMetricsOf(r.value, Ratio(r.value))
    ensures r.Some? ==> LEAST <= Ratio(r.value) <= Clamped(requested) && Fits(cols, rows, Ratio(r.value))
    ensures r.Some? && Fits(cols, rows, Clamped(requested)) ==> Ratio(r.value) == Clamped(requested)
    ensures r.Some? && !Fits(cols, rows, Clamped(requested)) ==>
              && Ratio(r.value) <= high <= Clamped(requested)
              && !Fits(cols, rows, high) && WithinPrecision(high - Ratio(r.value))
  {
    var ratio;
    ratio, high := Densest((x: real) => Fits(cols, rows, x), requested);
    if ratio.None? { return None, high; }
    RatioOfMetrics(ratio.value);
    r := Some(Metrics(9.0 * ratio.value, 18.0 * ratio.value));
  }

  predicate IsMetricsOf(m: Metrics, ratio: real) {
    m == Metrics(9.0 * ratio, 18.0 * ratio)
  }

  lemma RatioOfMetrics(ratio: real)
    ensures Ratio(Metrics(9.0 * ratio, 18.0 * ratio)) == ratio
  {
  }

  /** The backing store that the metrics ask for fits both caps after rounding up, and the cells keep the
      range that the canvas backend supports. */
  lemma BackingStoreFits(cols: nat, rows: nat, m: Metrics, ratio: real)
    requires Fits(cols, rows, ratio) && IsMetricsOf(m, ratio) && LEAST <= ratio <= MOST
    ensures WithinCaps(Ceil(cols as real * m.cellWidth), Ceil(rows as real * m.cellHeight))
    ensures 1.0 <= m.cellWidth <= 128.0 && 2.0 <= m.cellHeight <= 256.0
  {
    assert Ceil(cols as real * m.cellWidth) == Width(cols, ratio);
    assert Ceil(rows as real * m.cellHeight) == Height(rows, ratio);
  }

  /** At the least ratio a cell is one pixel wide and two high, so a grid is refused exactly when its own size is too
      large. */
  lemma RefusedIff(cols: nat, rows: nat)
    ensures Fits(cols, rows, LEAST) <==> cols <= 16384 && 2 * rows <= 16384 && 2 * cols * rows <= 16777216
  {
    assert Width(cols, LEAST) == cols;
    assert Height(rows, LEAST) == 2 * rows;
    assert cols * (2 * rows) == 2 * cols * rows;
  }

  lemma GapShrinks(gap: real, whole: real, p: real)
    requires 0.0 <= gap <= whole && 0.0 <= p
    ensures gap * p <= whole * p
  {
  }

  lemma Narrower(gap: real, whole: real)
    requires 0.0 <= gap <= whole && WithinPrecision(whole)
    ensures WithinPrecision(gap)
  {
    GapShrinks(gap, whole, Pow2(ROUNDS) as real);
  }

  lemma NotBeyond(fits: real -> bool, high: real, other: real)
    requires Antitone(fits) && 0.0 <= high && !fits(high) && fits(other)
    ensures other < high
  {
  }

  ghost predicate Antitone(fits: real -> bool) {
    forall x: real, y: real :: 0.0 <= x <= y && fits(y) ==> fits(x)
  }

  lemma FitsFunctionIsAntitone(cols: nat, rows: nat)
    ensures Antitone(ratio => Fits(cols, rows, ratio))
  {
    forall x: real, y: real | 0.0 <= x <= y && Fits(cols, rows, y) ensures Fits(cols, rows, x) {
      FitsIsAntitone(cols, rows, x, y);
    }
  }

  /** Nothing that fits is better than a bisected ratio by more than the precision. */
  lemma NearlyTheDensest(fits: real -> bool, ratio: real, high: real, other: real)
    requires Antitone(fits) && 0.0 <= ratio <= high && !fits(high) && WithinPrecision(high - ratio)
    requires fits(other)
    ensures other < high && (other > ratio ==> WithinPrecision(other - ratio))
  {
    NotBeyond(fits, high, other);
    if other > ratio { Narrower(other - ratio, high - ratio); }
  }
}
