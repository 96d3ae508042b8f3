/** The strike arithmetic of the quant engine: the expected move over the
    days to expiry, rounding to the strike grid, the strangle strikes one
    multiple of the expected move away from the spot, and snapping a strike
    to the nearest listed one. */
module SigmaCalculator {
  import opened Util
  import opened RealMath
  import opened Nearest

  /** `calculate_range`: `spot * (iv / 100) * sqrt(days / 365)`. `math.sqrt`
      raises a domain error for negative days. */
  function CalculateRange(m: Transcendentals, spot: real, iv: real, days: int): (r: Result<real>)
    ensures r.Ok? <==> days >= 0
    ensures r.Ok? && Sound(m) && spot >= 0.0 && iv >= 0.0 ==> r.value >= 0.0
  {
    if days < 0 then Err("math domain error")
    else
      var root := m.sqrt(days as real / 365.0);
      var r := spot * (iv / 100.0) * root;
      assert Sound(m) && spot >= 0.0 && iv >= 0.0 ==> r >= 0.0 by {
        if Sound(m) && spot >= 0.0 && iv >= 0.0 {
          MulNonNegative(spot * (iv / 100.0), root);
        }
      }
      Ok(r)
  }

  lemma MulNonNegative(a: real, b: real)
    requires a >= 0.0 && b >= 0.0
    ensures a * b >= 0.0
  {
  }

  /** `round_to_nearest`: `int(base * round(value / base))`. */
  function RoundToNearest(value: real, base: int): int
    requires base != 0
  {
    base * PyRound(value / base as real)
  }

  /** Measured in units of `base`, the rounded value is the whole number
      nearest to the value, a tie going to the even one. */
  lemma RoundToNearestIsNearest(value: real, base: int)
    requires base != 0
    ensures var q := RoundToNearest(value, base) as real / base as real;
      && q == q.Floor as real
      && value / base as real - 0.5 <= q <= value / base as real + 0.5
      && (q == value / base as real - 0.5 || q == value / base as real + 0.5 ==> q.Floor % 2 == 0)
  {
    var n := PyRound(value / base as real);
    IntProductAsReal(base, n);
  }

  lemma IntProductAsReal(a: int, b: int)
    requires a != 0
    ensures (a * b) as real / a as real == b as real
  {
    assert (a * b) as real == a as real * b as real;
  }

  /** Rounding to a positive grid never reverses the order of two values. */
  lemma RoundToNearestMonotone(v: real, w: real, base: int)
    requires base > 0 && v <= w
    ensures RoundToNearest(v, base) <= RoundToNearest(w, base)
  {
    DivMonotone(v, w, base as real);
    PyRoundMonotone(v / base as real, w / base as real);
    var a, b := PyRound(v / base as real), PyRound(w / base as real);
    MulMonotone(base, a, b);
  }

  lemma DivMonotone(v: real, w: real, c: real)
    requires c > 0.0 && v <= w
    ensures v / c <= w / c
  {
  }

  lemma MulMonotone(c: int, a: int, b: int)
    requires c > 0 && a <= b
    ensures c * a <= c * b
  {
  }

  /** The dictionary `get_strangle_strikes` returns; the `round(x, 2)`
      fields go through the supplied rounding. */
  datatype StrangleStrikes = StrangleStrikes(
    rangePoints: real, sigmaMult: real, upperBoundRaw: real, lowerBoundRaw: real,
    sellCallStrike: int, sellPutStrike: int)

  /** The raw bounds `spot ± range * sigma_mult` (for non-negative days). */
  function Bounds(m: Transcendentals, spot: real, iv: real, days: int, sigmaMult: real): (real, real)
    requires days >= 0
  {
    var adjustment := CalculateRange(m, spot, iv, days).value * sigmaMult;
    (spot + adjustment, spot - adjustment)
  }

  /** With non-negative inputs the bounds enclose the spot. */
  lemma BoundsAroundSpot(m: Transcendentals, spot: real, iv: real, days: int, sigmaMult: real)
    requires Sound(m) && spot >= 0.0 && iv >= 0.0 && days >= 0 && sigmaMult >= 0.0
    ensures Bounds(m, spot, iv, days, sigmaMult).0 >= spot >= Bounds(m, spot, iv, days, sigmaMult).1
  {
    MulNonNegative(CalculateRange(m, spot, iv, days).value, sigmaMult);
  }

  /** `get_strangle_strikes`: the spot moved up and down by `sigma_mult`
      times the expected range, each rounded to the 50-point grid. */
  function GetStrangleStrikes(m: Transcendentals, spot: real, iv: real, days: int, sigmaMult: real,
                              round: DecimalRounding): (r: Result<StrangleStrikes>)
    ensures r.Ok? <==> days >= 0
    ensures r.Ok? ==>
      && r.value.sellCallStrike == RoundToNearest(Bounds(m, spot, iv, days, sigmaMult).0, 50)
      && r.value.sellPutStrike == RoundToNearest(Bounds(m, spot, iv, days, sigmaMult).1, 50)
      && r.value.sigmaMult == sigmaMult
  {
    var range := CalculateRange(m, spot, iv, days);
    if range.Err? then Err(range.message)
    else
      var b := Bounds(m, spot, iv, days, sigmaMult);
      Ok(StrangleStrikes(round(range.value, 2), sigmaMult, round(b.0, 2), round(b.1, 2),
                         RoundToNearest(b.0, 50), RoundToNearest(b.1, 50)))
  }

  /** `get_atm_strike`: the spot rounded to 50, whatever the underlying. */
  function GetAtmStrike(spot: real): (r: int)
    ensures r % 50 == 0
  {
    RoundToNearest(spot, 50)
  }

  /** With non-negative inputs the call strike is at or above the ATM
      strike and the put strike at or below it. */
  lemma StrangleAroundAtm(m: Transcendentals, spot: real, iv: real, days: int, sigmaMult: real,
                          round: DecimalRounding)
    requires Sound(m) && spot >= 0.0 && iv >= 0.0 && days >= 0 && sigmaMult >= 0.0
    ensures var r := GetStrangleStrikes(m, spot, iv, days, sigmaMult, round);
      r.Ok? && r.value.sellCallStrike >= GetAtmStrike(spot) >= r.value.sellPutStrike
  {
    var b := Bounds(m, spot, iv, days, sigmaMult);
    BoundsAroundSpot(m, spot, iv, days, sigmaMult);
    RoundToNearestMonotone(spot, b.0, 50);
    RoundToNearestMonotone(b.1, spot, 50);
  }

  /** With a multiplier of zero both strikes are the ATM strike. */
  lemma ZeroSigmaIsStraddle(m: Transcendentals, spot: real, iv: real, days: int, round: DecimalRounding)
    requires days >= 0
    ensures var r := GetStrangleStrikes(m, spot, iv, days, 0.0, round);
      r.Ok? && r.value.sellCallStrike == r.value.sellPutStrike == GetAtmStrike(spot)
  {
    assert Bounds(m, spot, iv, days, 0.0) == (spot, spot);
  }

  /** `find_closest_available_strike`: without listed strikes the target is
      rounded to `base`; otherwise the first listed strike nearest to the
      target, truncated by `int()`. */
  function FindClosestAvailableStrike(target: real, available: seq<real>, base: int): (r: int)
    requires available == [] ==> base != 0
    ensures available == [] ==> r == RoundToNearest(target, base)
    ensures available != [] ==> r == Trunc(available[ClosestIndex(available, target)])
  {
    if available == [] then RoundToNearest(target, base)
    else Trunc(Closest(available, target))
  }

  /** Listed strikes are whole numbers in practice; then the result is
      itself listed and no listed strike is nearer to the target. */
  lemma ClosestAvailableIsListed(target: real, available: seq<real>, base: int)
    requires available != []
    requires forall i :: 0 <= i < |available| ==> available[i] == available[i].Floor as real
    ensures var r := FindClosestAvailableStrike(target, available, base);
      && r as real in available
      && forall x :: x in available ==> Dist(r as real, target) <= Dist(x, target)
  {
    var k := Closest(available, target);
    TruncWhole(k);
  }
}
