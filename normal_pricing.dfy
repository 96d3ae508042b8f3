/** The Black-Scholes premia as the Python side computes them, with scipy's
    normal distribution (`norm.cdf`) in place of the front end's polynomial
    approximation. Shared by the Greeks calculator and the mock option
    chain. */
module NormalPricing {
  import opened RealMath
  import BS = BlackScholes

  /** The Python convention: "CE" is a call, every other type a put. */
  predicate IsCall(optionType: string)
  {
    optionType == "CE"
  }

  /** `S * cdf(d1) - K * exp(-rT) * cdf(d2)`, with `eRT` = exp(-rT). */
  function CallPrice(n: NormalDist, S: real, K: real, eRT: real, d1: real, d2: real): real
  {
    S * n.cdf(d1) - K * eRT * n.cdf(d2)
  }

  /** `K * exp(-rT) * cdf(-d2) - S * cdf(-d1)`. */
  function PutPrice(n: NormalDist, S: real, K: real, eRT: real, d1: real, d2: real): real
  {
    K * eRT * n.cdf(-d2) - S * n.cdf(-d1)
  }

  /** With the exact, symmetric distribution, put-call parity holds at every
      d1 and d2 (the front end's approximation needs them away from 0). */
  lemma PriceParity(n: NormalDist, S: real, K: real, eRT: real, d1: real, d2: real)
    requires Symmetric(n)
    ensures CallPrice(n, S, K, eRT, d1, d2) - PutPrice(n, S, K, eRT, d1, d2) == S - K * eRT
  {
    assert n.cdf(-d1) == 1.0 - n.cdf(d1);
    assert n.cdf(-d2) == 1.0 - n.cdf(d2);
    BS.Parity(S, K * eRT, n.cdf(d1), n.cdf(-d1), n.cdf(d2), n.cdf(-d2),
              CallPrice(n, S, K, eRT, d1, d2), PutPrice(n, S, K, eRT, d1, d2));
  }
}
