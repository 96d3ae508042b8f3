/** The Black-Scholes pricer of the web front end: a European option's price
    and its five Greeks, with the standard normal distribution function
    approximated by formula 26.2.17 of Abramowitz and Stegun's Handbook of
    Mathematical Functions. What is proved here is the algebraic structure
    of the formulas (the degenerate branch, symmetry, parity, equal gamma
    and vega), not their numerical accuracy. */
module BlackScholes {
  import opened RealMath

  datatype OptionType = Call | Put

  datatype Greeks = Greeks(delta: real, gamma: real, theta: real, vega: real, rho: real)

  datatype PricedOption = PricedOption(price: real, greeks: Greeks)

  const ZeroGreeks := Greeks(0.0, 0.0, 0.0, 0.0, 0.0)

  /** Value of the A&S 26.2.17 polynomial part for `t` (before scaling by the
      density). */
  function Poly(t: real): real
  {
    0.319381530 + t * (-0.356563782 + t * (1.781477937 + t * (-1.821255978 + t * 1.330274429)))
  }

  /** The rational approximation's tail probability: the density at `x`
      times a polynomial in t = 1/(1 + 0.2316419·|x|). Depends on `x` only
      through |x| and x². */
  function Tail(m: Transcendentals, x: real): real
  {
    var t := 1.0 / (1.0 + 0.2316419 * Abs(x));
    var d := 0.3989422804014337 * m.exp(-x * x / 2.0);
    d * t * Poly(t)
  }

  /** `cdf`: the approximate standard normal distribution function. */
  function Cdf(m: Transcendentals, x: real): real
  {
    if x > 0.0 then 1.0 - Tail(m, x) else Tail(m, x)
  }

  /** `pdf`: the standard normal density. */
  function Pdf(m: Transcendentals, x: real): (r: real)
    requires Sound(m)
    ensures r > 0.0
  {
    assert m.sqrt(2.0 * m.pi) > 0.0;
    (1.0 / m.sqrt(2.0 * m.pi)) * m.exp(-(x * x) / 2.0)
  }

  /** The inputs that avoid the division-by-zero guard of the pricer. */
  predicate NonDegenerate(T: real, sigma: real)
  {
    T > 0.0 && sigma > 0.0
  }

  /** What the non-degenerate formulas divide by must be non-zero; the
      source computes with IEEE floats, where S or K equal to 0 yields an
      infinity instead. */
  predicate Priceable(S: real, K: real, T: real, sigma: real)
  {
    NonDegenerate(T, sigma) ==> S != 0.0 && K != 0.0
  }

  function SqrtT(m: Transcendentals, T: real): (r: real)
    requires Sound(m) && T > 0.0
    ensures r > 0.0
  {
    m.sqrt(T)
  }

  function D1(m: Transcendentals, S: real, K: real, T: real, r: real, sigma: real): real
    requires Sound(m) && NonDegenerate(T, sigma) && K != 0.0
  {
    (m.ln(S / K) + (r + (sigma * sigma) / 2.0) * T) / (sigma * SqrtT(m, T))
  }

  function D2(m: Transcendentals, S: real, K: real, T: real, r: real, sigma: real): real
    requires Sound(m) && NonDegenerate(T, sigma) && K != 0.0
  {
    D1(m, S, K, T, r, sigma) - sigma * SqrtT(m, T)
  }

  /** The intrinsic value of the option at spot S. */
  function Intrinsic(kind: OptionType, S: real, K: real): (v: real)
    ensures v >= 0.0
    ensures kind == Call ==> v == Max(0.0, S - K)
    ensures kind == Put ==> v == Max(0.0, K - S)
  {
    if kind == Call then Max(0.0, S - K) else Max(0.0, K - S)
  }

  /** Price of the non-degenerate branch, from d1, d2 and e^(−rT). */
  function Price(m: Transcendentals, kind: OptionType, S: real, K: real, eRT: real, d1: real, d2: real): real
  {
    if kind == Call then S * Cdf(m, d1) - K * eRT * Cdf(m, d2)
    else K * eRT * Cdf(m, -d2) - S * Cdf(m, -d1)
  }

  function Rho(m: Transcendentals, kind: OptionType, K: real, T: real, eRT: real, d2: real): real
  {
    if kind == Call then K * T * eRT * Cdf(m, d2) else -K * T * eRT * Cdf(m, -d2)
  }

  /** Daily theta: the annual figure divided by 365. `decay` is the common
      term S·pdf(d1)·sigma / (2·sqrt(T)). */
  function Theta(m: Transcendentals, kind: OptionType, K: real, r: real, eRT: real, decay: real, d2: real): real
  {
    if kind == Call then (-decay - r * K * eRT * Cdf(m, d2)) / 365.0
    else (-decay + r * K * eRT * Cdf(m, -d2)) / 365.0
  }

  /** The non-degenerate branch, from the spot, strike, rate, volatility,
      sqrt(T), e^(−rT), d1 and d2. */
  function Assemble(m: Transcendentals, kind: OptionType, S: real, K: real, T: real, r: real, sigma: real,
                    sqrtT: real, eRT: real, d1: real, d2: real): PricedOption
    requires Sound(m) && S != 0.0 && sigma > 0.0 && sqrtT > 0.0
  {
    var delta := if kind == Call then Cdf(m, d1) else Cdf(m, d1) - 1.0;
    var decay := (S * Pdf(m, d1) * sigma) / (2.0 * sqrtT);
    var gamma := Pdf(m, d1) / (S * sigma * sqrtT);
    var vega := (S * Pdf(m, d1) * sqrtT) / 100.0;
    PricedOption(Price(m, kind, S, K, eRT, d1, d2),
                 Greeks(delta, gamma, Theta(m, kind, K, r, eRT, decay, d2), vega, Rho(m, kind, K, T, eRT, d2)))
  }

  /** `calculateBlackScholes(S, K, T, r, sigma, type)`. */
  function CalculateBlackScholes(m: Transcendentals, S: real, K: real, T: real, r: real, sigma: real,
                                 kind: OptionType): (res: PricedOption)
    requires Sound(m) && Priceable(S, K, T, sigma)
    ensures !NonDegenerate(T, sigma) ==> res.price == Intrinsic(kind, S, K) && res.greeks == ZeroGreeks
    ensures !NonDegenerate(T, sigma) ==> res.price >= 0.0
  {
    if T <= 0.0 || sigma <= 0.0 then
      PricedOption(if kind == Call then Max(0.0, S - K) else Max(0.0, K - S), ZeroGreeks)
    else
      Assemble(m, kind, S, K, T, r, sigma, SqrtT(m, T), m.exp(-r * T),
               D1(m, S, K, T, r, sigma), D2(m, S, K, T, r, sigma))
  }

  // ---------------------------------------------------------------------
  // Properties
  // ---------------------------------------------------------------------

  /** The approximation is point-symmetric away from 0: cdf(-x) = 1 - cdf(x). */
  lemma CdfSymmetric(m: Transcendentals, x: real)
    requires x != 0.0
    ensures Cdf(m, -x) == 1.0 - Cdf(m, x)
  {
    assert -x * x / 2.0 == -(-x) * (-x) / 2.0;
    assert Tail(m, -x) == Tail(m, x);
  }

  /** At 0 the function returns the raw tail value, which is not one half:
      with exp(0) = 1 it is 0.3989422804014337 times the coefficient sum
      1.253314136, just below 0.5, so cdf(0) + cdf(-0) != 1. */
  lemma CdfAtZero(m: Transcendentals)
    requires m.exp(0.0) == 1.0
    ensures Cdf(m, 0.0) == 0.3989422804014337 * 1.253314136
    ensures Cdf(m, 0.0) < 0.5 && Cdf(m, -0.0) != 1.0 - Cdf(m, 0.0)
  {
    assert -0.0 * 0.0 / 2.0 == 0.0;
    assert Poly(1.0) == 1.253314136;
  }

  /** cdf(d) + cdf(-d) = 1 for every non-zero d: the two-sided form used by
      the parity proofs. */
  lemma CdfPair(m: Transcendentals, d: real)
    requires d != 0.0
    ensures Cdf(m, d) + Cdf(m, -d) == 1.0
  {
    CdfSymmetric(m, d);
  }

  /** With T ≤ 0 or sigma ≤ 0 both kinds of option are worth their intrinsic
      value and have no sensitivities; the price is never negative. */
  lemma DegenerateBranch(m: Transcendentals, S: real, K: real, T: real, r: real, sigma: real)
    requires Sound(m) && !NonDegenerate(T, sigma)
    ensures CalculateBlackScholes(m, S, K, T, r, sigma, Call) == PricedOption(Max(0.0, S - K), ZeroGreeks)
    ensures CalculateBlackScholes(m, S, K, T, r, sigma, Put) == PricedOption(Max(0.0, K - S), ZeroGreeks)
  {
  }

  /** Parity of the two price formulas for any d1, d2 away from 0. */
  lemma PriceParity(m: Transcendentals, S: real, K: real, e: real, d1: real, d2: real)
    requires d1 != 0.0 && d2 != 0.0
    ensures Price(m, Call, S, K, e, d1, d2) - Price(m, Put, S, K, e, d1, d2) == S - K * e
  {
    CdfPair(m, d1);
    CdfPair(m, d2);
    Parity(S, K * e, Cdf(m, d1), Cdf(m, -d1), Cdf(m, d2), Cdf(m, -d2),
           Price(m, Call, S, K, e, d1, d2), Price(m, Put, S, K, e, d1, d2));
  }

  lemma Parity(S: real, Ke: real, a: real, a': real, b: real, b': real, call: real, put: real)
    requires a + a' == 1.0 && b + b' == 1.0
    requires call == S * a - Ke * b && put == Ke * b' - S * a'
    ensures call - put == S - Ke
  {
    assert S * a + S * a' == S * (a + a');
    assert Ke * b + Ke * b' == Ke * (b + b');
  }

  /** The non-degenerate branch is `Assemble` applied to sqrt(T), e^(−rT),
      d1 and d2. */
  lemma NonDegenerateBranch(m: Transcendentals, S: real, K: real, T: real, r: real, sigma: real, kind: OptionType)
    requires Sound(m) && NonDegenerate(T, sigma) && S != 0.0 && K != 0.0
    ensures CalculateBlackScholes(m, S, K, T, r, sigma, kind)
            == Assemble(m, kind, S, K, T, r, sigma, SqrtT(m, T), m.exp(-r * T),
                        D1(m, S, K, T, r, sigma), D2(m, S, K, T, r, sigma))
  {
  }

  /** The price, rho and theta that `Assemble` computes, one lemma each. */
  lemma AssemblePrice(m: Transcendentals, kind: OptionType, S: real, K: real, T: real, r: real, sigma: real,
                      sqrtT: real, eRT: real, d1: real, d2: real)
    requires Sound(m) && S != 0.0 && sigma > 0.0 && sqrtT > 0.0
    ensures Assemble(m, kind, S, K, T, r, sigma, sqrtT, eRT, d1, d2).price == Price(m, kind, S, K, eRT, d1, d2)
  {
  }

  lemma AssembleRho(m: Transcendentals, kind: OptionType, S: real, K: real, T: real, r: real, sigma: real,
                    sqrtT: real, eRT: real, d1: real, d2: real)
    requires Sound(m) && S != 0.0 && sigma > 0.0 && sqrtT > 0.0
    ensures Assemble(m, kind, S, K, T, r, sigma, sqrtT, eRT, d1, d2).greeks.rho == Rho(m, kind, K, T, eRT, d2)
  {
  }

  lemma AssembleTheta(m: Transcendentals, kind: OptionType, S: real, K: real, T: real, r: real, sigma: real,
                      sqrtT: real, eRT: real, d1: real, d2: real)
    requires Sound(m) && S != 0.0 && sigma > 0.0 && sqrtT > 0.0
    ensures Assemble(m, kind, S, K, T, r, sigma, sqrtT, eRT, d1, d2).greeks.theta
            == Theta(m, kind, K, r, eRT, (S * Pdf(m, d1) * sigma) / (2.0 * sqrtT), d2)
  {
  }

  /** Put-call parity: CALL price − PUT price = S − K·e^(−rT), whenever the
      approximation is evaluated away from its asymmetric point 0. */
  lemma PutCallParity(m: Transcendentals, S: real, K: real, T: real, r: real, sigma: real)
    requires Sound(m) && NonDegenerate(T, sigma) && S != 0.0 && K != 0.0
    requires D1(m, S, K, T, r, sigma) != 0.0 && D2(m, S, K, T, r, sigma) != 0.0
    ensures CalculateBlackScholes(m, S, K, T, r, sigma, Call).price
            - CalculateBlackScholes(m, S, K, T, r, sigma, Put).price
            == S - K * m.exp(-r * T)
  {
    var d1, d2, e, q := D1(m, S, K, T, r, sigma), D2(m, S, K, T, r, sigma), m.exp(-r * T), SqrtT(m, T);
    NonDegenerateBranch(m, S, K, T, r, sigma, Call);
    NonDegenerateBranch(m, S, K, T, r, sigma, Put);
    AssemblePrice(m, Call, S, K, T, r, sigma, q, e, d1, d2);
    AssemblePrice(m, Put, S, K, T, r, sigma, q, e, d1, d2);
    PriceParity(m, S, K, m.exp(-r * T), D1(m, S, K, T, r, sigma), D2(m, S, K, T, r, sigma));
  }

  /** In the non-degenerate branch PUT delta = CALL delta − 1; in the
      degenerate branch both are 0. */
  lemma DeltaRelation(m: Transcendentals, S: real, K: real, T: real, r: real, sigma: real)
    requires Sound(m) && Priceable(S, K, T, sigma)
    ensures NonDegenerate(T, sigma) ==>
      CalculateBlackScholes(m, S, K, T, r, sigma, Put).greeks.delta
      == CalculateBlackScholes(m, S, K, T, r, sigma, Call).greeks.delta - 1.0
    ensures !NonDegenerate(T, sigma) ==>
      CalculateBlackScholes(m, S, K, T, r, sigma, Put).greeks.delta == 0.0
      == CalculateBlackScholes(m, S, K, T, r, sigma, Call).greeks.delta
  {
  }

  /** Gamma and vega do not depend on the kind of option. */
  lemma GammaVegaKindIndependent(m: Transcendentals, S: real, K: real, T: real, r: real, sigma: real)
    requires Sound(m) && Priceable(S, K, T, sigma)
    ensures CalculateBlackScholes(m, S, K, T, r, sigma, Call).greeks.gamma
            == CalculateBlackScholes(m, S, K, T, r, sigma, Put).greeks.gamma
    ensures CalculateBlackScholes(m, S, K, T, r, sigma, Call).greeks.vega
            == CalculateBlackScholes(m, S, K, T, r, sigma, Put).greeks.vega
  {
  }

  /** The CALL/PUT differences of rho and theta for any d2 away from 0. */
  lemma RhoThetaParity(m: Transcendentals, K: real, T: real, r: real, e: real, decay: real, d2: real)
    requires d2 != 0.0
    ensures Rho(m, Call, K, T, e, d2) - Rho(m, Put, K, T, e, d2) == K * T * e
    ensures Theta(m, Call, K, r, e, decay, d2) - Theta(m, Put, K, r, e, decay, d2) == -r * K * e / 365.0
  {
    CdfPair(m, d2);
    Scale(K * T * e, Cdf(m, d2), Cdf(m, -d2));
    Scale(r * K * e, Cdf(m, d2), Cdf(m, -d2));
  }

  lemma Scale(c: real, b: real, b': real)
    requires b + b' == 1.0
    ensures c * b + c * b' == c
  {
    assert c * b + c * b' == c * (b + b');
  }

  /** The CALL/PUT differences of rho and theta: K·T·e^(−rT) and
      −r·K·e^(−rT)/365. */
  lemma RhoThetaDifferences(m: Transcendentals, S: real, K: real, T: real, r: real, sigma: real)
    requires Sound(m) && NonDegenerate(T, sigma) && S != 0.0 && K != 0.0
    requires D2(m, S, K, T, r, sigma) != 0.0
    ensures CalculateBlackScholes(m, S, K, T, r, sigma, Call).greeks.rho
            - CalculateBlackScholes(m, S, K, T, r, sigma, Put).greeks.rho
            == K * T * m.exp(-r * T)
    ensures CalculateBlackScholes(m, S, K, T, r, sigma, Call).greeks.theta
            - CalculateBlackScholes(m, S, K, T, r, sigma, Put).greeks.theta
            == -r * K * m.exp(-r * T) / 365.0
  {
    var d1, d2, e, q := D1(m, S, K, T, r, sigma), D2(m, S, K, T, r, sigma), m.exp(-r * T), SqrtT(m, T);
    NonDegenerateBranch(m, S, K, T, r, sigma, Call);
    NonDegenerateBranch(m, S, K, T, r, sigma, Put);
    AssembleRho(m, Call, S, K, T, r, sigma, q, e, d1, d2);
    AssembleRho(m, Put, S, K, T, r, sigma, q, e, d1, d2);
    AssembleTheta(m, Call, S, K, T, r, sigma, q, e, d1, d2);
    AssembleTheta(m, Put, S, K, T, r, sigma, q, e, d1, d2);
    RhoThetaParity(m, K, T, r, m.exp(-r * T), (S * Pdf(m, d1) * sigma) / (2.0 * SqrtT(m, T)),
                   D2(m, S, K, T, r, sigma));
  }

  /** For a positive spot, gamma and vega are positive in the non-degenerate
      branch, since the density is a positive constant times exp. */
  lemma GammaVegaPositive(m: Transcendentals, S: real, K: real, T: real, r: real, sigma: real,
                          kind: OptionType)
    requires Sound(m) && NonDegenerate(T, sigma) && S > 0.0 && K != 0.0
    ensures CalculateBlackScholes(m, S, K, T, r, sigma, kind).greeks.gamma > 0.0
    ensures CalculateBlackScholes(m, S, K, T, r, sigma, kind).greeks.vega > 0.0
  {
    var d1 := D1(m, S, K, T, r, sigma);
    var p, q := Pdf(m, d1), SqrtT(m, T);
    assert S * sigma * q > 0.0 by {
      assert S * sigma > 0.0;
    }
    assert S * p * q > 0.0 by {
      assert S * p > 0.0;
    }
  }
}
