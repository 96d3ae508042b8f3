/** The option-chain route: for NIFTY and BANKNIFTY it rounds the live spot
    to an at-the-money strike, lays out 17 strikes around it, prices a call
    and a put at each with the Black-Scholes pricer at the VIX volatility,
    and synthesises open interest, volume and change in open interest. The
    expiry labels are the next three Thursdays. */
module OptionsRoute {
  import opened Util
  import opened RealMath
  import opened MarketData
  import BS = BlackScholes

  /** One entry of `INDICES`. */
  datatype IndexConfig = IndexConfig(symbol: string, name: string, step: real)

  const Nifty := IndexConfig("^NSEI", "NIFTY", 50.0)
  const BankNifty := IndexConfig("^NSEBANK", "BANK NIFTY", 100.0)
  /** Configured, but no chain is ever generated for it. */
  const FinNifty := IndexConfig("NIFTY_FIN_SERVICE.NS", "NIFTY FIN SERVICES", 50.0)

  /** The risk-free rate. */
  const Rate: real := 0.07
  /** The fixed time to expiry: four days, as a fraction of a year. */
  const Expiry: real := 4.0 / 365.0
  /** Strikes on each side of the ATM strike. */
  const Wings: nat := 8

  // ---------------------------------------------------------------------
  // Expiry dates
  // ---------------------------------------------------------------------

  /** JavaScript `getDay()` of a day number counted from 1970-01-01, which
      was a Thursday: 0 is Sunday, 4 is Thursday. */
  function JsDay(d: int): (w: int)
    ensures 0 <= w < 7
  {
    (d + 4) % 7
  }

  /** The first Thursday on or after `today`. */
  function NextThursday(today: int): (t: int)
    ensures today <= t < today + 7 && JsDay(t) == 4
    ensures forall d :: today <= d < t ==> JsDay(d) != 4
  {
    today + (4 - JsDay(today)) % 7
  }

  /** `toLocaleDateString('en-GB', …)` with spaces replaced by '-': not
      modelled, supplied by the caller. */
  type DateFormat = int -> string

  /** `getNextExpiries`: walks day by day from today to a Thursday, then
      week by week, collecting three Thursdays. `days` are the day numbers
      of the labels `dates`. */
  method GetNextExpiries(today: int, format: DateFormat) returns (days: seq<int>, dates: seq<string>)
    ensures |days| == 3 && |dates| == 3
    ensures days[0] == NextThursday(today)
    ensures forall i :: 0 <= i < 3 ==> JsDay(days[i]) == 4 && dates[i] == format(days[i])
    ensures days[1] == days[0] + 7 && days[2] == days[1] + 7
  {
    var first := NextThursday(today);
    days, dates := [], [];
    var current := today;
    while |dates| < 3
      invariant |days| == |dates| <= 3
      invariant forall i :: 0 <= i < |days| ==> dates[i] == format(days[i])
      invariant |days| == 0 ==> today <= current <= first
      invariant |days| > 0 ==> current == first + 7 * |days|
      invariant forall i :: 0 <= i < |days| ==> days[i] == first + 7 * i
      decreases 3 - |dates|, first - current
    {
      if JsDay(current) == 4 {
        WeekLater(first, |days|);
        days, dates := days + [current], dates + [format(current)];
        current := current + 7;
      } else {
        current := current + 1;
      }
    }
    WeekLater(first, 1);
    WeekLater(first, 2);
  }

  /** The three labels `getNextExpiries` produces: the next Thursday and
      the two after it. */
  function Expiries(today: int, format: DateFormat): seq<string>
  {
    var t := NextThursday(today);
    [format(t), format(t + 7), format(t + 14)]
  }

  /** The labels `getNextExpiries` returns are those of `Expiries`. */
  lemma ExpiriesAreNextThursdays(today: int, format: DateFormat, days: seq<int>, dates: seq<string>)
    requires |days| == 3 && |dates| == 3
    requires days[0] == NextThursday(today) && days[1] == days[0] + 7 && days[2] == days[1] + 7
    requires forall i :: 0 <= i < 3 ==> dates[i] == format(days[i])
    ensures dates == Expiries(today, format)
  {
  }

  /** A whole number of weeks after a Thursday is a Thursday. */
  lemma WeekLater(t: int, n: nat)
    requires JsDay(t) == 4
    ensures JsDay(t + 7 * n) == 4
  {
    assert (t + 7 * n + 4) == (t + 4) + 7 * n;
  }

  // ---------------------------------------------------------------------
  // One chain
  // ---------------------------------------------------------------------

  /** `Math.round(spotPrice / step) * step`. */
  function AtmStrike(spot: real, step: real): real
    requires step > 0.0
  {
    JsRound(spot / step) as real * step
  }

  /** Measured in steps, the ATM strike is the whole number nearest to the
      spot; a spot exactly half-way between two strikes is rounded up. */
  lemma AtmStrikeNearest(spot: real, step: real)
    requires step > 0.0
    ensures var q := AtmStrike(spot, step) / step;
      && q == q.Floor as real
      && spot / step - 0.5 < q <= spot / step + 0.5
  {
    var n := JsRound(spot / step);
    DivCancel(n as real, step);
    assert AtmStrike(spot, step) == n as real * step;
    assert (n as real * step) / step == n as real;
    assert AtmStrike(spot, step) / step == n as real;
  }

  lemma MulLess(a: real, b: real, c: real)
    requires a < b && c > 0.0
    ensures a * c < b * c
  {
  }

  lemma MulAtMost(a: real, b: real, c: real)
    requires a <= b && c > 0.0
    ensures a * c <= b * c
  {
  }

  lemma DivCancel(a: real, c: real)
    requires c != 0.0
    ensures (a * c) / c == a
  {
  }

  lemma Distrib(a: real, b: real, c: real)
    ensures (a + b) * c == a * c + b * c
  {
  }

  /** Synthesised open interest or volume: the base quantity damped by the
      distance of the strike from the spot, in units of three steps. */
  function Liquidity(m: Transcendentals, base: real, k: real, spot: real, step: real): int
    requires step > 0.0
  {
    (base * m.exp(-Abs(k - spot) / (step * 3.0))).Floor
  }

  /** `Math.floor((Math.random() - 0.5) * 50000)` for a draw `u`. */
  function ChangeInOI(u: real): int
  {
    ((u - 0.5) * 50000.0).Floor
  }

  function ToOptionGreeks(g: BS.Greeks): OptionGreeks
  {
    OptionGreeks(g.delta, g.gamma, g.theta, g.vega, Some(g.rho))
  }

  /** What the source's strikes need to be priceable: all strikes of the
      ladder are positive when the spot exceeds eight and a half steps. */
  predicate LadderPositive(spot: real, step: real)
  {
    step > 0.0 && spot > 0.0 && spot / step > 8.5
  }

  /** The row pushed for strike `k`, with `uCall` and `uPut` the two draws
      of `Math.random()`. */
  function Row(m: Transcendentals, spot: real, step: real, k: real, sigma: real, expiry: string,
               uCall: real, uPut: real): OptionData
    requires Sound(m) && step > 0.0 && spot > 0.0 && k > 0.0
  {
    var callBS := BS.CalculateBlackScholes(m, spot, k, Expiry, Rate, sigma, BS.Call);
    var putBS := BS.CalculateBlackScholes(m, spot, k, Expiry, Rate, sigma, BS.Put);
    OptionData(k, expiry,
      OptionSide(callBS.price,
        Liquidity(m, 2000000.0, k, spot, step) as real,
        Liquidity(m, 500000.0, k, spot, step) as real,
        ChangeInOI(uCall) as real,
        sigma * 100.0,
        ToOptionGreeks(callBS.greeks)),
      OptionSide(putBS.price,
        Liquidity(m, 1800000.0, k, spot, step) as real,
        Liquidity(m, 450000.0, k, spot, step) as real,
        ChangeInOI(uPut) as real,
        sigma * 100.0,
        ToOptionGreeks(putBS.greeks)))
  }

  /** The strike at ladder position `i`: `atm - 8*step + i*step`. */
  function LadderStrike(atm: real, step: real, i: int): real
  {
    atm - Wings as real * step + i as real * step
  }

  /** Adding one step moves one position up the ladder. */
  lemma LadderNext(atm: real, step: real, i: int)
    ensures LadderStrike(atm, step, i + 1) == LadderStrike(atm, step, i) + step
  {
    Distrib(i as real, 1.0, step);
  }

  /** The loop runs while the strike is at most `atm + 8*step`, that is for
      the positions 0 to 16. */
  lemma LadderTop(atm: real, step: real, i: int)
    requires step > 0.0
    ensures LadderStrike(atm, step, i) <= atm + Wings as real * step <==> i <= 2 * Wings
  {
    if i <= 2 * Wings {
      MulAtMost(i as real, 16.0, step);
    } else {
      MulLess(16.0, i as real, step);
    }
  }

  /** Every strike of the ladder is positive. */
  lemma LadderAbovePositive(spot: real, step: real, i: int)
    requires LadderPositive(spot, step) && 0 <= i
    ensures LadderStrike(AtmStrike(spot, step), step, i) > 0.0
  {
    var n := JsRound(spot / step);
    assert n >= 9;
    var atm := AtmStrike(spot, step);
    assert atm == n as real * step;
    Distrib(n as real - 8.0, 8.0, step);
    assert atm - 8.0 * step == (n as real - 8.0) * step;
    MulAtMost(1.0, n as real - 8.0, step);
    MulAtMost(0.0, i as real, step);
  }

  /** Random draws of `Math.random()`: each in [0, 1). */
  predicate Draws(us: seq<real>)
  {
    forall i :: 0 <= i < |us| ==> 0.0 <= us[i] < 1.0
  }

  /** `generateChain(quote, config)`: the strikes from `atm - 8*step` to
      `atm + 8*step`, one row each. `us` holds the two draws per strike, in
      call-then-put order. */
  method GenerateChain(m: Transcendentals, spot: real, config: IndexConfig, sigma: real,
                       expiries: seq<string>, us: seq<real>) returns (chain: OptionsChainData)
    requires Sound(m) && LadderPositive(spot, config.step)
    requires |expiries| > 0 && |us| == 2 * (2 * Wings + 1)
    ensures ChainOf(chain, m, spot, config, sigma, expiries, us)
    ensures forall i :: 0 <= i < |chain.options| ==>
      && chain.options[i].expiryDate == expiries[0]
      && chain.options[i].call.impliedVolatility == sigma * 100.0
      && chain.options[i].put.impliedVolatility == sigma * 100.0
  {
    var step := config.step;
    var atm := AtmStrike(spot, step);
    var minStrike := atm - Wings as real * step;
    var maxStrike := atm + Wings as real * step;
    var options: seq<OptionData> := [];
    var k := minStrike;
    var i := 0;
    LadderAbovePositive(spot, step, 0);
    while k <= maxStrike
      invariant 0 <= i <= 2 * Wings + 1 && |options| == i
      invariant k == LadderStrike(atm, step, i) && k > 0.0
      invariant ChainRows(options, m, spot, step, atm, sigma, expiries[0], us)
      decreases 2 * Wings + 1 - i
    {
      LadderTop(atm, step, i);
      ChainRowsAppend(options, m, spot, step, atm, sigma, expiries[0], us);
      options := options + [Row(m, spot, step, k, sigma, expiries[0], us[2 * i], us[2 * i + 1])];
      LadderNext(atm, step, i);
      LadderAbovePositive(spot, step, i + 1);
      k := k + step;
      i := i + 1;
    }
    LadderTop(atm, step, i);
    chain := OptionsChainData(config.name, spot, expiries, atm, options);
  }

  /** What `generateChain` returns: the index's label, the spot, the expiry
      labels and the ATM strike, and one row per ladder strike, priced with
      the first expiry label and that strike's pair of draws. */
  predicate ChainOf(chain: OptionsChainData, m: Transcendentals, spot: real, config: IndexConfig, sigma: real,
                    expiries: seq<string>, us: seq<real>)
    requires Sound(m) && LadderPositive(spot, config.step)
    requires |expiries| > 0 && |us| == 2 * (2 * Wings + 1)
  {
    && chain.underlying == config.name && chain.spotPrice == spot && chain.expiries == expiries
    && chain.atmStrike == AtmStrike(spot, config.step)
    && |chain.options| == 2 * Wings + 1
    && forall i :: 0 <= i < |chain.options| ==>
         var k := LadderStrike(chain.atmStrike, config.step, i);
         k > 0.0 && chain.options[i] == Row(m, spot, config.step, k, sigma, expiries[0], us[2 * i], us[2 * i + 1])
  }

  /** The rows built so far: row j is the ladder's j-th strike priced with
      the j-th pair of draws. */
  ghost predicate ChainRows(options: seq<OptionData>, m: Transcendentals, spot: real, step: real, atm: real,
                            sigma: real, expiry: string, us: seq<real>)
    requires Sound(m) && step > 0.0 && spot > 0.0
  {
    forall j :: 0 <= j < |options| ==>
      && LadderStrike(atm, step, j) > 0.0 && 2 * j + 1 < |us|
      && options[j] == Row(m, spot, step, LadderStrike(atm, step, j), sigma, expiry, us[2 * j], us[2 * j + 1])
  }

  lemma ChainRowsAppend(options: seq<OptionData>, m: Transcendentals, spot: real, step: real, atm: real,
                        sigma: real, expiry: string, us: seq<real>)
    requires Sound(m) && step > 0.0 && spot > 0.0
    requires ChainRows(options, m, spot, step, atm, sigma, expiry, us)
    requires 2 * |options| + 1 < |us| && LadderStrike(atm, step, |options|) > 0.0
    ensures ChainRows(options + [Row(m, spot, step, LadderStrike(atm, step, |options|), sigma, expiry,
                                     us[2 * |options|], us[2 * |options| + 1])],
                      m, spot, step, atm, sigma, expiry, us)
  {
  }

  // ---------------------------------------------------------------------
  // Properties of a row
  // ---------------------------------------------------------------------

  /** The calls carry more open interest and volume than the puts, all are
      non-negative, and none exceeds its base quantity. */
  lemma RowLiquidity(m: Transcendentals, spot: real, step: real, k: real, sigma: real, expiry: string,
                     uCall: real, uPut: real)
    requires Sound(m) && step > 0.0 && spot > 0.0 && k > 0.0
    ensures var row := Row(m, spot, step, k, sigma, expiry, uCall, uPut);
      && 2000000.0 >= row.call.openInterest >= row.put.openInterest >= 0.0
      && 500000.0 >= row.call.volume >= row.put.volume >= 0.0
  {
    var e := m.exp(-Abs(k - spot) / (step * 3.0));
    assert -Abs(k - spot) / (step * 3.0) <= 0.0;
    assert 0.0 < e <= 1.0;
    ScaledFloors(2000000.0, 1800000.0, e);
    ScaledFloors(500000.0, 450000.0, e);
  }

  /** For 0 < e <= 1 and a >= b >= 0: floor(a*e) >= floor(b*e) >= 0 and
      floor(a*e) <= a. */
  lemma ScaledFloors(a: real, b: real, e: real)
    requires a >= b >= 0.0 && 0.0 < e <= 1.0
    ensures a >= (a * e).Floor as real && (a * e).Floor >= (b * e).Floor >= 0
  {
    assert a * e >= b * e >= 0.0;
    assert a * e <= a;
    FloorMonotone(b * e, a * e);
    FloorMonotone(0.0, b * e);
  }

  /** The change in open interest is a whole number in [-25000, 24999]. */
  lemma ChangeInOIRange(u: real)
    requires 0.0 <= u < 1.0
    ensures -25000 <= ChangeInOI(u) <= 24999
  {
    var x := (u - 0.5) * 50000.0;
    assert -25000.0 <= x < 25000.0;
  }

  /** Both sides echo the input volatility as the implied volatility, in
      percent: the VIX value itself, or 13 when it is missing or zero. */
  lemma ImpliedVolatilityIsVix(m: Transcendentals, spot: real, step: real, k: real, vix: Option<real>,
                               expiry: string, uCall: real, uPut: real)
    requires Sound(m) && step > 0.0 && spot > 0.0 && k > 0.0
    ensures var row := Row(m, spot, step, k, OrNumber(vix, 13.0) / 100.0, expiry, uCall, uPut);
      row.call.impliedVolatility == row.put.impliedVolatility == OrNumber(vix, 13.0)
  {
  }

  /** Call and put premiums of a row satisfy put-call parity wherever the
      pricer's d1 and d2 are not 0. */
  lemma RowParity(m: Transcendentals, spot: real, step: real, k: real, sigma: real, expiry: string,
                  uCall: real, uPut: real)
    requires Sound(m) && step > 0.0 && spot > 0.0 && k > 0.0 && sigma > 0.0
    requires BS.D1(m, spot, k, Expiry, Rate, sigma) != 0.0 && BS.D2(m, spot, k, Expiry, Rate, sigma) != 0.0
    ensures var row := Row(m, spot, step, k, sigma, expiry, uCall, uPut);
      row.call.premium - row.put.premium == spot - k * m.exp(-Rate * Expiry)
  {
    BS.PutCallParity(m, spot, k, Expiry, Rate, sigma);
  }

  /** The ladder: 17 ascending strikes one step apart, the ATM strike in the
      middle. */
  lemma LadderShape(atm: real, step: real)
    requires step > 0.0
    ensures LadderStrike(atm, step, 0) == atm - 8.0 * step
    ensures LadderStrike(atm, step, Wings as int) == atm
    ensures LadderStrike(atm, step, 2 * Wings as int) == atm + 8.0 * step
    ensures forall i :: LadderStrike(atm, step, i + 1) == LadderStrike(atm, step, i) + step
  {
  }

  // ---------------------------------------------------------------------
  // The response
  // ---------------------------------------------------------------------

  /** The three quotes the route awaits: NIFTY, BANKNIFTY (their prices) and
      the VIX (its price may be absent). */
  datatype Quotes = Quotes(nifty: real, bankNifty: real, vix: Option<real>)

  /** The JSON body; the timestamp is not modelled. */
  datatype OptionsResponse = OptionsResponse(
    success: bool, data: seq<OptionsChainData>, error: Option<string>, status: int)

  /** `GET`: `quotes` is the outcome of the three requests (`Err` when one
      of them throws), `today` the current day and `us` the 68 draws of
      `Math.random()` in call order. */
  method Get(m: Transcendentals, quotes: Result<Quotes>, today: int, format: DateFormat, us: seq<real>)
    returns (resp: OptionsResponse)
    requires Sound(m) && |us| == 4 * (2 * Wings + 1)
    requires quotes.Ok? ==> LadderPositive(quotes.value.nifty, Nifty.step)
                            && LadderPositive(quotes.value.bankNifty, BankNifty.step)
    ensures quotes.Err? ==> resp == OptionsResponse(false, [], Some("Failed to generate options"), 500)
    ensures quotes.Ok? ==> resp.success && resp.status == 200 && resp.error == None && |resp.data| == 2
    ensures quotes.Ok? && |resp.data| == 2 ==>
      && resp.data[0].underlying == "NIFTY" && resp.data[1].underlying == "BANK NIFTY"
      && resp.data[0].spotPrice == quotes.value.nifty && resp.data[1].spotPrice == quotes.value.bankNifty
    ensures quotes.Ok? && |resp.data| == 2 ==>
      ChainOf(resp.data[0], m, quotes.value.nifty, Nifty, OrNumber(quotes.value.vix, 13.0) / 100.0,
              Expiries(today, format), us[..34])
    ensures quotes.Ok? && |resp.data| == 2 ==>
      ChainOf(resp.data[1], m, quotes.value.bankNifty, BankNifty, OrNumber(quotes.value.vix, 13.0) / 100.0,
              Expiries(today, format), us[34..])
    ensures quotes.Ok? ==> forall c :: c in resp.data ==>
      && |c.expiries| == 3
      && |c.options| == 2 * Wings + 1
      && forall i :: 0 <= i < |c.options| ==>
           c.options[i].expiryDate == format(NextThursday(today))
           && c.options[i].call.impliedVolatility == OrNumber(quotes.value.vix, 13.0)
           && c.options[i].put.impliedVolatility == OrNumber(quotes.value.vix, 13.0)
  {
    if quotes.Err? {
      return OptionsResponse(false, [], Some("Failed to generate options"), 500);
    }
    var days, expiries := GetNextExpiries(today, format);
    ExpiriesAreNextThursdays(today, format, days, expiries);
    var nifty := GenerateChain(m, quotes.value.nifty, Nifty, OrNumber(quotes.value.vix, 13.0) / 100.0,
                               Expiries(today, format), us[..34]);
    var bank := GenerateChain(m, quotes.value.bankNifty, BankNifty, OrNumber(quotes.value.vix, 13.0) / 100.0,
                              Expiries(today, format), us[34..]);
    resp := OptionsResponse(true, [nifty, bank], None, 200);
  }
}
