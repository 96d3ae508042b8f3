/** The option-chain client of the trading agents: a Black-Scholes price
    with a minimum tick, the generated 41-strike chain used whenever live
    option data is unavailable, and the shape of what `fetch_option_chain`
    returns on each path. The market-data service is an input: the list of
    expiries (or the failure of the live path), the last spot close and the
    last VIX close. */
module OptionChainClient {
  import opened Util
  import opened RealMath
  import opened NormalPricing
  import BS = BlackScholes
  import SigmaCalculator

  /** `r` of the generated chain. */
  const Rate: real := 0.07

  /** The smallest price `black_scholes_price` reports. */
  const MinimumTick: real := 0.05

  /** Python `datetime.weekday()` of a day number (0 = Monday; day 0,
      1970-01-01, was a Thursday). */
  function PyWeekday(day: int): int
  {
    (day + 3) % 7
  }

  /** The Black-Scholes value before the minimum tick: a call for "CE",
      a put for any other type. */
  function TheoreticalPrice(m: Transcendentals, n: NormalDist, S: real, K: real, T: real, r: real,
                            sigma: real, optionType: string): real
    requires Sound(m) && BS.NonDegenerate(T, sigma) && K != 0.0
  {
    var d1 := BS.D1(m, S, K, T, r, sigma);
    var d2 := BS.D2(m, S, K, T, r, sigma);
    if IsCall(optionType) then CallPrice(n, S, K, m.exp(-r * T), d1, d2)
    else PutPrice(n, S, K, m.exp(-r * T), d1, d2)
  }

  /** `black_scholes_price`: the theoretical value, raised to the minimum
      tick when it is below it. */
  function BlackScholesPrice(m: Transcendentals, n: NormalDist, S: real, K: real, T: real, r: real,
                             sigma: real, optionType: string): (p: real)
    requires Sound(m) && BS.NonDegenerate(T, sigma) && K != 0.0
    ensures p >= MinimumTick
    ensures p >= TheoreticalPrice(m, n, S, K, T, r, sigma, optionType)
    ensures p == MinimumTick || p == TheoreticalPrice(m, n, S, K, T, r, sigma, optionType)
  {
    Max(MinimumTick, TheoreticalPrice(m, n, S, K, T, r, sigma, optionType))
  }

  /** Any type other than "CE" is priced as a put. */
  lemma NonCallIsPut(m: Transcendentals, n: NormalDist, S: real, K: real, T: real, r: real,
                     sigma: real, optionType: string)
    requires Sound(m) && BS.NonDegenerate(T, sigma) && K != 0.0 && optionType != "CE"
    ensures BlackScholesPrice(m, n, S, K, T, r, sigma, optionType) == BlackScholesPrice(m, n, S, K, T, r, sigma, "PE")
  {
  }

  /** Where neither price is lifted to the tick, the call and put of one
      strike satisfy put-call parity. */
  lemma TickedParity(m: Transcendentals, n: NormalDist, S: real, K: real, T: real, r: real, sigma: real)
    requires Sound(m) && Symmetric(n) && BS.NonDegenerate(T, sigma) && K != 0.0
    requires TheoreticalPrice(m, n, S, K, T, r, sigma, "CE") >= MinimumTick
    requires TheoreticalPrice(m, n, S, K, T, r, sigma, "PE") >= MinimumTick
    ensures BlackScholesPrice(m, n, S, K, T, r, sigma, "CE") - BlackScholesPrice(m, n, S, K, T, r, sigma, "PE")
            == S - K * m.exp(-r * T)
  {
    PriceParity(n, S, K, m.exp(-r * T), BS.D1(m, S, K, T, r, sigma), BS.D2(m, S, K, T, r, sigma));
  }

  /** Days from `today` to the expiry of the generated chain: to the next
      Thursday, a full week when today is a Thursday. */
  function DaysUntilThursday(today: int): (d: int)
    ensures 1 <= d <= 7
    ensures PyWeekday(today + d) == 3
    ensures forall day :: today < day < today + d ==> PyWeekday(day) != 3
  {
    var w := PyWeekday(today);
    var d := (3 - w) % 7;
    var r := if d == 0 then 7 else d;
    assert forall day :: today < day < today + r ==> PyWeekday(day) != 3 by {
      forall day | today < day < today + r
        ensures PyWeekday(day) != 3
      {
        WeekdayShift(today, day - today);
      }
    }
    WeekdayShift(today, r);
    r
  }

  /** The weekday `k` days on. */
  lemma WeekdayShift(today: int, k: int)
    ensures PyWeekday(today + k) == (PyWeekday(today) + k) % 7
  {
  }

  /** `T`: `max(1, days_until_thursday) / 365` years. */
  function TimeToExpiry(today: int): (T: real)
    ensures 1.0 / 365.0 <= T <= 7.0 / 365.0
  {
    var days := DaysUntilThursday(today);
    (if days >= 1 then days else 1) as real / 365.0
  }

  /** The spot of the generated chain: the caller's, else the live close,
      else 25200. */
  function MockSpot(spotArg: Option<real>, liveSpot: Option<real>): real
  {
    match spotArg
    case Some(s) => s
    case None => if liveSpot.Some? then liveSpot.value else 25200.0
  }

  /** The volatility index of the generated chain: the live close, else 13.5. */
  function MockVix(liveVix: Option<real>): real
  {
    if liveVix.Some? then liveVix.value else 13.5
  }

  /** `round(spot / 50) * 50`, Python rounding: halves go to the even multiple. */
  function MockAtm(spot: real): int
  {
    PyRound(spot / 50.0) * 50
  }

  /** The ATM strike of the generated chain is the quant engine's
      `get_atm_strike`, and lies within 25 points of the spot, in units of 50. */
  lemma MockAtmIsQuantAtm(spot: real)
    ensures MockAtm(spot) == SigmaCalculator.GetAtmStrike(spot)
    ensures var q := MockAtm(spot) as real / 50.0;
      q == q.Floor as real && spot / 50.0 - 0.5 <= q <= spot / 50.0 + 0.5
  {
    var n := PyRound(spot / 50.0);
    assert spot / 50 as real == spot / 50.0;
    assert MockAtm(spot) == SigmaCalculator.RoundToNearest(spot, 50) == 50 * n;
    SigmaCalculator.RoundToNearestIsNearest(spot, 50);
  }

  /** The `i`-th strike of the generated ladder, for `range(-20, 21)`. */
  function StrikeAt(spot: real, j: int): int
  {
    MockAtm(spot) + (j - 20) * 50
  }

  /** What generating a chain needs to avoid the division by zero, or the
      logarithm of a negative ratio, of `black_scholes_price`: a positive
      volatility and a spot whose lowest strike is positive. */
  predicate MockInputs(spot: real, vix: real)
  {
    vix > 0.0 && spot / 50.0 > 20.5
  }

  /** Under those inputs the ladder runs from ATM-1000 to ATM+1000 in steps
      of 50 with the ATM strike in the middle, and every strike is positive;
      a spot with `spot / 50 <= 20.5` would reach a strike of 0 or below. */
  lemma StrikeLadder(spot: real)
    ensures MockInputs(spot, 1.0) <==> StrikeAt(spot, 0) > 0
    ensures StrikeAt(spot, 0) == MockAtm(spot) - 1000 && StrikeAt(spot, 20) == MockAtm(spot)
    ensures StrikeAt(spot, 40) == MockAtm(spot) + 1000
  {
    var k := PyRound(spot / 50.0);
    if spot / 50.0 > 20.5 {
      assert k as real >= spot / 50.0 - 0.5;
    } else {
      assert k as real <= spot / 50.0 + 0.5;
      assert k <= 21;
    }
  }

  /** A trading symbol: underlying, expiry code (`%d%b%y` upper-cased),
      `int(strike)` and the option type. */
  function TradingSymbol(symbol: string, expiryCode: string, strike: int, suffix: string): string
  {
    symbol + expiryCode + IntToString(strike) + suffix
  }

  /** The call and put symbols of one strike differ only in the suffix. */
  lemma SymbolsDifferInSuffix(symbol: string, expiryCode: string, strike: int)
    ensures var ce := TradingSymbol(symbol, expiryCode, strike, "CE");
      var pe := TradingSymbol(symbol, expiryCode, strike, "PE");
      && |ce| == |pe| && ce[..|ce| - 2] == pe[..|pe| - 2]
      && ce[|ce| - 2..] == "CE" && pe[|pe| - 2..] == "PE" && ce != pe
  {
    var ce := TradingSymbol(symbol, expiryCode, strike, "CE");
    var pe := TradingSymbol(symbol, expiryCode, strike, "PE");
    var p := symbol + expiryCode + IntToString(strike);
    assert ce == p + "CE" && pe == p + "PE";
    assert ce[..|ce| - 2] == p && pe[..|pe| - 2] == p;
    assert ce[|ce| - 2] != pe[|pe| - 2];
  }

  /** Within one underlying, expiry and type, distinct strikes get distinct
      symbols. */
  lemma SymbolsIdentifyStrike(symbol: string, expiryCode: string, a: int, b: int, suffix: string)
    requires TradingSymbol(symbol, expiryCode, a, suffix) == TradingSymbol(symbol, expiryCode, b, suffix)
    ensures a == b
  {
    var p := symbol + expiryCode;
    var sa, sb := IntToString(a), IntToString(b);
    var t := TradingSymbol(symbol, expiryCode, a, suffix);
    assert t == p + sa + suffix == p + sb + suffix;
    assert |sa| == |sb|;
    assert sa == t[|p|..|p| + |sa|];
    assert sb == t[|p|..|p| + |sb|];
    IntToStringInjective(a, b);
  }

  /** `ce_iv`: the index volatility, half a point higher above the spot. */
  function CeIv(vix: real, strike: real, spot: real): real
  {
    vix + (if strike > spot then 0.5 else 0.0)
  }

  /** `pe_iv`: the index volatility plus a skew of 20 points per unit of
      relative distance below the spot. */
  function PeIv(vix: real, strike: real, spot: real): real
    requires strike < spot ==> spot != 0.0
  {
    vix + (if strike < spot then (spot - strike) / spot * 20.0 else 0.0)
  }

  /** The volatility smile: for a positive spot neither side is below the
      index volatility, the call side is raised exactly above the spot and
      the put side exactly below it, so at most one side is raised. */
  lemma Smile(vix: real, strike: real, spot: real)
    requires spot > 0.0
    ensures CeIv(vix, strike, spot) >= vix && PeIv(vix, strike, spot) >= vix
    ensures CeIv(vix, strike, spot) > vix <==> strike > spot
    ensures PeIv(vix, strike, spot) > vix <==> strike < spot
  {
    if strike < spot {
      assert (spot - strike) / spot > 0.0;
    }
  }

  /** `ce_oi` and `pe_oi`: one million, decayed by distance from the spot,
      truncated by `int()`. */
  function Oi(m: Transcendentals, strike: real, spot: real): int
  {
    Trunc(1000000.0 * m.exp(-0.0001 * Abs(strike - spot)))
  }

  /** Open interest lies between 0 and one million. */
  lemma OiRange(m: Transcendentals, strike: real, spot: real)
    requires Sound(m)
    ensures 0 <= Oi(m, strike, spot) <= 1000000
  {
    var e := m.exp(-0.0001 * Abs(strike - spot));
    assert 0.0 < e <= 1.0;
  }

  /** Formatting of the expiry day: `%d-%b-%Y` for the "expiry" field and
      the upper-cased `%d%b%y` inside trading symbols. */
  datatype DateFormats = DateFormats(long: int -> string, code: int -> string)

  /** One generated strike. */
  datatype MockRow = MockRow(
    strike: int, ceSymbol: string, peSymbol: string, ceIv: real, peIv: real,
    ceOi: int, peOi: int, ceLtp: real, peLtp: real)

  /** The dictionary `generate_mock_chain` returns. */
  datatype MockChain = MockChain(symbol: string, expiry: string, spotPrice: real, chain: seq<MockRow>)

  /** The row generated for one strike, the premiums rounded to 2 places. */
  function RowAt(m: Transcendentals, n: NormalDist, round: DecimalRounding, symbol: string, code: string,
                 spot: real, vix: real, T: real, strike: int): MockRow
    requires Sound(m) && vix > 0.0 && T > 0.0 && strike > 0 && spot > 0.0
  {
    var K := strike as real;
    MockRow(strike, TradingSymbol(symbol, code, strike, "CE"), TradingSymbol(symbol, code, strike, "PE"),
            CeIv(vix, K, spot), PeIv(vix, K, spot), Oi(m, K, spot), Oi(m, K, spot),
            round(BlackScholesPrice(m, n, spot, K, T, Rate, vix / 100.0, "CE"), 2),
            round(BlackScholesPrice(m, n, spot, K, T, Rate, vix / 100.0, "PE"), 2))
  }

  /** Every row's volatilities, open interest and symbols keep the rules
      above: smile, equal open interest within range on both sides, and
      symbols that differ only in the suffix. */
  lemma RowRules(m: Transcendentals, n: NormalDist, round: DecimalRounding, symbol: string, code: string,
                 spot: real, vix: real, T: real, strike: int)
    requires Sound(m) && vix > 0.0 && T > 0.0 && strike > 0 && spot > 0.0
    ensures var row := RowAt(m, n, round, symbol, code, spot, vix, T, strike);
      && row.ceIv >= vix && row.peIv >= vix
      && row.ceOi == row.peOi && 0 <= row.ceOi <= 1000000
      && row.ceSymbol != row.peSymbol
  {
    Smile(vix, strike as real, spot);
    OiRange(m, strike as real, spot);
    SymbolsDifferInSuffix(symbol, code, strike);
  }

  /** The rows of the generated chain, lowest strike first. */
  function Ladder(m: Transcendentals, n: NormalDist, round: DecimalRounding, symbol: string, code: string,
                  spot: real, vix: real, T: real): (rows: seq<MockRow>)
    requires Sound(m) && MockInputs(spot, vix) && T > 0.0
    ensures |rows| == 41
  {
    StrikeLadder(spot);
    seq(41, j requires 0 <= j < 41 => RowAt(m, n, round, symbol, code, spot, vix, T, StrikeAt(spot, j)))
  }

  /** The generated chain, as a value. */
  function MockChainOf(m: Transcendentals, n: NormalDist, fmt: DateFormats, round: DecimalRounding,
                       symbol: string, spot: real, vix: real, today: int): (c: MockChain)
    requires Sound(m) && MockInputs(spot, vix)
    ensures |c.chain| == 41
  {
    var expiryDay := today + DaysUntilThursday(today);
    MockChain(symbol, fmt.long(expiryDay), spot,
              Ladder(m, n, round, symbol, fmt.code(expiryDay), spot, vix, TimeToExpiry(today)))
  }

  /** The generated chain is a ladder of 41 ascending strikes 50 apart
      centred on the ATM strike, with no two rows sharing a call symbol or a
      put symbol. */
  lemma MockChainShape(m: Transcendentals, n: NormalDist, fmt: DateFormats, round: DecimalRounding,
                       symbol: string, spot: real, vix: real, today: int)
    requires Sound(m) && MockInputs(spot, vix)
    ensures var c := MockChainOf(m, n, fmt, round, symbol, spot, vix, today).chain;
      && c[0].strike == MockAtm(spot) - 1000 && c[20].strike == MockAtm(spot)
      && c[40].strike == MockAtm(spot) + 1000
      && (forall j :: 0 <= j < 40 ==> c[j + 1].strike == c[j].strike + 50)
      && (forall j, k :: 0 <= j < k < 41 ==> c[j].ceSymbol != c[k].ceSymbol && c[j].peSymbol != c[k].peSymbol)
  {
    var c := MockChainOf(m, n, fmt, round, symbol, spot, vix, today).chain;
    var code := fmt.code(today + DaysUntilThursday(today));
    StrikeLadder(spot);
    forall j, k | 0 <= j < k < 41
      ensures c[j].ceSymbol != c[k].ceSymbol && c[j].peSymbol != c[k].peSymbol
    {
      if c[j].ceSymbol == c[k].ceSymbol {
        SymbolsIdentifyStrike(symbol, code, StrikeAt(spot, j), StrikeAt(spot, k), "CE");
      }
      if c[j].peSymbol == c[k].peSymbol {
        SymbolsIdentifyStrike(symbol, code, StrikeAt(spot, j), StrikeAt(spot, k), "PE");
      }
    }
  }

  /** One iteration of the generating loop: the entry for one strike. */
  method BuildRow(m: Transcendentals, n: NormalDist, round: DecimalRounding, symbol: string, code: string,
                  spot: real, vix: real, T: real, strike: int) returns (row: MockRow)
    requires Sound(m) && vix > 0.0 && T > 0.0 && strike > 0 && spot > 0.0
    ensures row == RowAt(m, n, round, symbol, code, spot, vix, T, strike)
  {
    var sigma := vix / 100.0;
    var cePremium := BlackScholesPrice(m, n, spot, strike as real, T, Rate, sigma, "CE");
    var pePremium := BlackScholesPrice(m, n, spot, strike as real, T, Rate, sigma, "PE");
    var ceSymbol := TradingSymbol(symbol, code, strike, "CE");
    var peSymbol := TradingSymbol(symbol, code, strike, "PE");
    var ivSkew := 0.0;
    if strike as real < spot {
      ivSkew := (spot - strike as real) / spot * 20.0;
    }
    var oi := Oi(m, strike as real, spot);
    row := MockRow(strike, ceSymbol, peSymbol, vix + (if strike as real > spot then 0.5 else 0.0), vix + ivSkew,
                   oi, oi, round(cePremium, 2), round(pePremium, 2));
  }

  /** The loop of `generate_mock_chain`: one row per strike of
      `range(-20, 21)`, appended lowest first. */
  method BuildLadder(m: Transcendentals, n: NormalDist, round: DecimalRounding, symbol: string, code: string,
                     spot: real, vix: real, T: real) returns (rows: seq<MockRow>)
    requires Sound(m) && MockInputs(spot, vix) && T > 0.0
    ensures rows == Ladder(m, n, round, symbol, code, spot, vix, T)
  {
    var atm := MockAtm(spot);
    StrikeLadder(spot);
    ghost var ladder := Ladder(m, n, round, symbol, code, spot, vix, T);
    rows := [];
    var i := -20;
    while i < 21
      invariant -20 <= i <= 21
      invariant |rows| == i + 20
      invariant rows == ladder[..i + 20]
    {
      var strike := atm + i * 50;
      assert strike == StrikeAt(spot, i + 20) > 0;
      var row := BuildRow(m, n, round, symbol, code, spot, vix, T, strike);
      assert row == ladder[i + 20];
      assert ladder[..i + 21] == ladder[..i + 20] + [row];
      rows := rows + [row];
      i := i + 1;
    }
    assert ladder[..41] == ladder;
  }

  /** `generate_mock_chain`: resolves the spot and volatility, finds the
      next Thursday and builds the ladder around the ATM strike. */
  method GenerateMockChain(m: Transcendentals, n: NormalDist, fmt: DateFormats, round: DecimalRounding,
                           symbol: string, spotArg: Option<real>, liveSpot: Option<real>,
                           liveVix: Option<real>, today: int) returns (r: MockChain)
    requires Sound(m) && MockInputs(MockSpot(spotArg, liveSpot), MockVix(liveVix))
    ensures r == MockChainOf(m, n, fmt, round, symbol, MockSpot(spotArg, liveSpot), MockVix(liveVix), today)
  {
    var spot := MockSpot(spotArg, liveSpot);
    var vix := MockVix(liveVix);
    var daysUntil := DaysUntilThursday(today);
    var expiryDay := today + daysUntil;
    var daysToExpiry := if daysUntil >= 1 then daysUntil else 1;
    var T := daysToExpiry as real / 365.0;
    assert T == TimeToExpiry(today);
    var rows := BuildLadder(m, n, round, symbol, fmt.code(expiryDay), spot, vix, T);
    MockChainOfParts(m, n, fmt, round, symbol, spot, vix, today, rows);
    r := MockChain(symbol, fmt.long(expiryDay), spot, rows);
  }

  /** The generated chain from its expiry day and its ladder. */
  lemma MockChainOfParts(m: Transcendentals, n: NormalDist, fmt: DateFormats, round: DecimalRounding,
                         symbol: string, spot: real, vix: real, today: int, rows: seq<MockRow>)
    requires Sound(m) && MockInputs(spot, vix)
    requires rows == Ladder(m, n, round, symbol, fmt.code(today + DaysUntilThursday(today)), spot, vix,
                            TimeToExpiry(today))
    ensures MockChainOf(m, n, fmt, round, symbol, spot, vix, today)
            == MockChain(symbol, fmt.long(today + DaysUntilThursday(today)), spot, rows)
  {
  }

  /** What `fetch_option_chain` returns: on the live path only the
      underlying and the nearest expiry, without strikes; otherwise the
      generated chain. */
  datatype FetchResponse = LiveExpiry(symbol: string, expiry: string) | Generated(chain: MockChain)

  /** `fetch_option_chain`. `expirations` is the listing of option expiry
      days, `Err` when anything on the live path fails. */
  method FetchOptionChain(m: Transcendentals, n: NormalDist, fmt: DateFormats, round: DecimalRounding,
                          symbol: string, expirations: Result<seq<int>>, liveSpot: Option<real>,
                          liveVix: Option<real>, today: int) returns (r: FetchResponse)
    requires Sound(m)
    requires !(expirations.Ok? && expirations.value != []) ==> MockInputs(MockSpot(None, liveSpot), MockVix(liveVix))
    ensures expirations.Ok? && expirations.value != [] ==> r == LiveExpiry(symbol, fmt.long(expirations.value[0]))
    ensures !(expirations.Ok? && expirations.value != []) ==>
      r == Generated(MockChainOf(m, n, fmt, round, symbol, MockSpot(None, liveSpot), MockVix(liveVix), today))
  {
    if expirations.Err? {
      // The handler retries the spot and hands it on when it was obtained.
      var chain := GenerateMockChain(m, n, fmt, round, symbol, liveSpot, liveSpot, liveVix, today);
      r := Generated(chain);
    } else if expirations.value == [] {
      var chain := GenerateMockChain(m, n, fmt, round, symbol, None, liveSpot, liveVix, today);
      r := Generated(chain);
    } else {
      r := LiveExpiry(symbol, fmt.long(expirations.value[0]));
    }
  }
}
