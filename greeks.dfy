/** The quant engine's Greeks calculator: price, delta, gamma, theta and
    vega of a European option from the spot, strike, days to expiry and
    implied volatility in percent, at a 7% rate. */
module Greeks {
  import opened RealMath
  import opened NormalPricing
  import BS = BlackScholes

  /** The risk-free rate `R`. */
  const Rate: real := 0.07

  /** The returned dictionary: exactly these five keys, no rho. */
  datatype GreeksOut = GreeksOut(price: real, delta: real, gamma: real, theta: real, vega: real)

  const Zero := GreeksOut(0.0, 0.0, 0.0, 0.0, 0.0)

  /** The values before rounding, from sqrt(T), exp(-rT), d1 and d2. */
  function Assemble(n: NormalDist, call: bool, S: real, K: real, v: real, sqrtT: real, eRT: real,
                    d1: real, d2: real): GreeksOut
    requires S != 0.0 && v > 0.0 && sqrtT > 0.0
  {
    var decay := (S * n.pdf(d1) * v) / (2.0 * sqrtT);
    var price := if call then CallPrice(n, S, K, eRT, d1, d2) else PutPrice(n, S, K, eRT, d1, d2);
    var delta := if call then n.cdf(d1) else n.cdf(d1) - 1.0;
    var theta := if call then (-decay - Rate * K * eRT * n.cdf(d2)) / 365.0
                 else (-decay + Rate * K * eRT * n.cdf(-d2)) / 365.0;
    GreeksOut(price, delta, n.pdf(d1) / (S * v * sqrtT), theta, (S * n.pdf(d1) * sqrtT) / 100.0)
  }

  /** The unrounded Greeks for T = days/365 > 0 and v = iv/100. d1 and d2
      are the front end's: `0.5 * v**2` and `v*v/2` agree over the reals. */
  function Raw(m: Transcendentals, n: NormalDist, call: bool, S: real, K: real, T: real, v: real): GreeksOut
    requires Sound(m) && T > 0.0 && v > 0.0 && S != 0.0 && K != 0.0
  {
    Assemble(n, call, S, K, v, BS.SqrtT(m, T), m.exp(-Rate * T),
             BS.D1(m, S, K, T, Rate, v), BS.D2(m, S, K, T, Rate, v))
  }

  /** What the formulas divide by is non-zero once time remains; the source
      computes with IEEE floats and numpy, where a zero yields an error or
      an infinity. */
  predicate Computable(spot: real, strike: real, days: real, iv: real)
  {
    days > 0.0 ==> spot != 0.0 && strike != 0.0 && iv > 0.0
  }

  /** `calculate_greeks`. At or past expiry every value is 0, the price
      included (the front end returns the intrinsic value there). Otherwise
      price, delta, gamma, theta and vega are rounded to 2, 4, 6, 4 and 4
      places. */
  function CalculateGreeks(m: Transcendentals, n: NormalDist, spot: real, strike: real, days: real,
                           iv: real, optionType: string, round: DecimalRounding): (r: GreeksOut)
    requires Sound(m) && Computable(spot, strike, days, iv)
    ensures days <= 0.0 ==> r == Zero
    ensures days > 0.0 ==>
      var raw := Raw(m, n, IsCall(optionType), spot, strike, days / 365.0, iv / 100.0);
      && r.price == round(raw.price, 2) && r.delta == round(raw.delta, 4)
      && r.gamma == round(raw.gamma, 6) && r.theta == round(raw.theta, 4)
      && r.vega == round(raw.vega, 4)
  {
    var T := days / 365.0;
    var v := iv / 100.0;
    if T <= 0.0 then Zero
    else
      var raw := Raw(m, n, optionType == "CE", spot, strike, T, v);
      GreeksOut(round(raw.price, 2), round(raw.delta, 4), round(raw.gamma, 6), round(raw.theta, 4),
                round(raw.vega, 4))
  }

  /** Any type other than "CE" is priced as a put. */
  lemma OtherTypesArePuts(m: Transcendentals, n: NormalDist, spot: real, strike: real, days: real,
                          iv: real, optionType: string, round: DecimalRounding)
    requires Sound(m) && Computable(spot, strike, days, iv) && optionType != "CE"
    ensures CalculateGreeks(m, n, spot, strike, days, iv, optionType, round)
            == CalculateGreeks(m, n, spot, strike, days, iv, "PE", round)
  {
  }

  /** Gamma and vega come from formulas shared by both types, so calls and
      puts report the same values. */
  lemma GammaVegaShared(m: Transcendentals, n: NormalDist, spot: real, strike: real, days: real,
                        iv: real, optionType: string, round: DecimalRounding)
    requires Sound(m) && Computable(spot, strike, days, iv)
    ensures var c := CalculateGreeks(m, n, spot, strike, days, iv, "CE", round);
      var p := CalculateGreeks(m, n, spot, strike, days, iv, optionType, round);
      c.gamma == p.gamma && c.vega == p.vega
  {
  }

  /** Before rounding, put delta is call delta minus one. */
  lemma RawDeltaRelation(m: Transcendentals, n: NormalDist, S: real, K: real, T: real, v: real)
    requires Sound(m) && T > 0.0 && v > 0.0 && S != 0.0 && K != 0.0
    ensures Raw(m, n, false, S, K, T, v).delta == Raw(m, n, true, S, K, T, v).delta - 1.0
  {
  }

  /** Before rounding, call and put prices satisfy put-call parity. */
  lemma RawParity(m: Transcendentals, n: NormalDist, S: real, K: real, T: real, v: real)
    requires Sound(m) && Symmetric(n) && T > 0.0 && v > 0.0 && S != 0.0 && K != 0.0
    ensures Raw(m, n, true, S, K, T, v).price - Raw(m, n, false, S, K, T, v).price == S - K * m.exp(-Rate * T)
  {
    PriceParity(n, S, K, m.exp(-Rate * T), BS.D1(m, S, K, T, Rate, v), BS.D2(m, S, K, T, Rate, v));
  }

  /** For a positive spot gamma and vega are positive before rounding. */
  lemma RawGammaVegaPositive(m: Transcendentals, n: NormalDist, call: bool, S: real, K: real, T: real, v: real)
    requires Sound(m) && Symmetric(n) && T > 0.0 && v > 0.0 && S > 0.0 && K != 0.0
    ensures Raw(m, n, call, S, K, T, v).gamma > 0.0 && Raw(m, n, call, S, K, T, v).vega > 0.0
  {
    var q := BS.SqrtT(m, T);
    var p := n.pdf(BS.D1(m, S, K, T, Rate, v));
    assert S * v * q > 0.0 by {
      assert S * v > 0.0;
    }
    assert S * p * q > 0.0 by {
      assert S * p > 0.0;
    }
  }
}
