/** The simulated agent run behind the trading-system page: it reads the
    NIFTY and VIX quotes, picks a strategy, places two short legs (and two
    hedges for spreads and the iron fly), states the margin and computes the
    payoff at expiry on a grid of 21 prices around the ATM strike. */
module RagRun {
  import opened Util
  import opened RealMath
  import opened MarketData

  datatype Trend = Bullish | Bearish

  datatype Action = Buy | Sell
  datatype Instrument = CE | PE

  /** One leg of the execution plan. */
  datatype Leg = Leg(action: Action, instrument: Instrument, strike: real, qty: int, premium: real)

  /** The chosen strategy and the reasoning shown with it. */
  datatype Decision = Decision(strategy: string, reasoning: string)

  /** What the run reads from its two quotes; any field may be absent. */
  datatype RunQuotes = RunQuotes(niftyPrice: Option<real>, niftyChangePercent: Option<real>, vixPrice: Option<real>)

  datatype MarketSnapshot = MarketSnapshot(spotPrice: real, vix: real, trend: Trend)
  datatype Step = Step(id: int, agent: string, status: string, message: string)
  datatype Plan = Plan(strategy: string, legs: seq<Leg>)
  datatype RiskAnalysis = RiskAnalysis(status: string, details: string, margin: int)
  datatype Point = Point(x: real, y: real)

  /** The JSON body; on the error path only `success` and `error` are sent,
      with status 500. The timestamp is not modelled. */
  datatype RunResponse =
    | Success(marketData: MarketSnapshot, steps: seq<Step>, finalDecision: Plan,
              riskAnalysis: RiskAnalysis, payoffData: seq<Point>)
    | Failure(error: string, status: int)

  const Qty: int := 50
  const SellPremium: real := 100.0
  const HedgePremium: real := 20.0
  /** Half-width of the payoff grid and its spacing. */
  const Range: real := 1000.0
  const GridStep: real := 100.0

  // ---------------------------------------------------------------------
  // Market scan and strategy
  // ---------------------------------------------------------------------

  function TrendOf(changePercent: real): (t: Trend)
    ensures t == Bullish <==> changePercent > 0.0
  {
    if changePercent > 0.0 then Bullish else Bearish
  }

  /** What the run reads off the quotes: spot 22000 and VIX 13 when absent
      or zero, the trend from the change percentage (0 when absent). */
  function Snapshot(q: RunQuotes): (s: MarketSnapshot)
    ensures s.spotPrice == OrNumber(q.niftyPrice, 22000.0)
    ensures s.vix == OrNumber(q.vixPrice, 13.0)
    ensures s.trend == Bullish <==> OrNumber(q.niftyChangePercent, 0.0) > 0.0
  {
    MarketSnapshot(OrNumber(q.niftyPrice, 22000.0), OrNumber(q.vixPrice, 13.0),
                   TrendOf(OrNumber(q.niftyChangePercent, 0.0)))
  }

  predicate HighVix(vix: real)
  {
    vix > 15.0
  }

  /** The strategist step: `override` is the request's override, "Auto"
      when absent or empty. */
  function Decide(override: string, vix: real, changePercent: real): (d: Decision)
    ensures override != "Auto" ==> d.strategy == override
    ensures override == "Auto" && HighVix(vix) ==> d.strategy == "Iron Fly"
    ensures override == "Auto" && !HighVix(vix) && Abs(changePercent) > 1.0 ==>
              d.strategy == (if changePercent > 0.0 then "Bull Call Spread" else "Bear Put Spread")
    ensures override == "Auto" && !HighVix(vix) && Abs(changePercent) <= 1.0 ==> d.strategy == "Short Strangle"
  {
    if override != "Auto" then Decision(override, ManualReasoning(override))
    else if HighVix(vix) then Decision("Iron Fly", HighVixReasoning)
    else if Abs(changePercent) > 1.0 then
      if changePercent > 0.0 then Decision("Bull Call Spread", MomentumReasoning("bullish"))
      else Decision("Bear Put Spread", MomentumReasoning("bearish"))
    else Decision("Short Strangle", ModerateReasoning)
  }

  function ManualReasoning(override: string): string
  {
    "Manual override selected: " + override + ". Adjusting strikes based on current spot."
  }

  function MomentumReasoning(trend: string): string
  {
    "Strong " + trend + " momentum detected. Directional spread recommended."
  }

  const HighVixReasoning := "High VIX indicates expensive premiums. Iron Fly limits risk while capturing mean reversion."
  const ModerateReasoning := "VIX is moderate, suggesting range-bound movement."

  // ---------------------------------------------------------------------
  // Strikes and legs
  // ---------------------------------------------------------------------

  /** `roundToStrike`: the nearest multiple of 50, halves rounded up. */
  function RoundToStrike(price: real): (r: real)
    ensures var q := r / 50.0; q == q.Floor as real && price / 50.0 - 0.5 < q <= price / 50.0 + 0.5
  {
    var n := JsRound(price / 50.0);
    assert (n as real * 50.0) / 50.0 == n as real;
    n as real * 50.0
  }

  /** Straddles and iron flies sell at the money; every other strategy sells
      500 (high VIX) or 300 points away on each side. */
  function Strikes(strategy: string, atm: real, vix: real): (r: (real, real))
    ensures strategy == "Short Straddle" || strategy == "Iron Fly" ==> r == (atm, atm)
    ensures strategy != "Short Straddle" && strategy != "Iron Fly" ==>
              r.0 - atm == atm - r.1 == (if HighVix(vix) then 500.0 else 300.0)
  {
    if strategy == "Short Straddle" || strategy == "Iron Fly" then (atm, atm)
    else
      var width := if HighVix(vix) then 500.0 else 300.0;
      (atm + width, atm - width)
  }

  /** Iron flies and spreads are hedged. */
  predicate Hedged(strategy: string)
  {
    strategy == "Iron Fly" || Contains(strategy, "Spread")
  }

  /** The legs of the plan: a short call and a short put, followed, for a
      hedged strategy, by a long call 200 above and a long put 200 below. */
  function Legs(strategy: string, ceStrike: real, peStrike: real): seq<Leg>
  {
    var sells := [Leg(Sell, CE, ceStrike, Qty, SellPremium), Leg(Sell, PE, peStrike, Qty, SellPremium)];
    if Hedged(strategy) then
      sells + [Leg(Buy, CE, ceStrike + 200.0, Qty, HedgePremium), Leg(Buy, PE, peStrike - 200.0, Qty, HedgePremium)]
    else sells
  }

  /** Builds `selectedLegs`: the two sells, then the hedges pushed when the
      strategy is hedged. */
  method BuildLegs(strategy: string, ceStrike: real, peStrike: real) returns (legs: seq<Leg>)
    ensures legs == Legs(strategy, ceStrike, peStrike)
    ensures |legs| == (if Hedged(strategy) then 4 else 2)
    ensures legs[0].action == Sell && legs[0].instrument == CE && legs[0].strike == ceStrike
    ensures legs[1].action == Sell && legs[1].instrument == PE && legs[1].strike == peStrike
  {
    legs := [Leg(Sell, CE, ceStrike, Qty, SellPremium), Leg(Sell, PE, peStrike, Qty, SellPremium)];
    if strategy == "Iron Fly" || Contains(strategy, "Spread") {
      legs := legs + [Leg(Buy, CE, ceStrike + 200.0, Qty, HedgePremium), Leg(Buy, PE, peStrike - 200.0, Qty, HedgePremium)];
    }
  }

  /** The margin: 60000 for hedged-looking names ("Iron" or "Spread"),
      125000 for naked ones. */
  function Margin(strategy: string): (r: int)
    ensures r == 60000 || r == 125000
    ensures r == 60000 <==> Contains(strategy, "Iron") || Contains(strategy, "Spread")
  {
    if Contains(strategy, "Iron") || Contains(strategy, "Spread") then 60000 else 125000
  }

  /** The risk step always passes; its text shows the margin as a share of
      500000, formatted with `toFixed(0)`. */
  function Risk(strategy: string, toFixed: NumberFormat): (r: RiskAnalysis)
    ensures r.status == "PASS" && r.margin == Margin(strategy)
  {
    var margin := Margin(strategy);
    RiskAnalysis("PASS",
      "Margin Utilization: " + toFixed(margin as real / 500000.0 * 100.0, 0)
        + "%. Delta Neutrality: Maintained. Gamma Risk: Low.",
      margin)
  }

  // ---------------------------------------------------------------------
  // Payoff at expiry
  // ---------------------------------------------------------------------

  function Intrinsic(leg: Leg, x: real): (r: real)
    ensures r >= 0.0
    ensures leg.instrument == CE ==> r == Max(0.0, x - leg.strike)
    ensures leg.instrument == PE ==> r == Max(0.0, leg.strike - x)
  {
    if leg.instrument == CE then Max(0.0, x - leg.strike) else Max(0.0, leg.strike - x)
  }

  /** Profit of one leg at expiry price `x`. */
  function LegPnl(leg: Leg, x: real): real
  {
    if leg.action == Buy then (Intrinsic(leg, x) - leg.premium) * leg.qty as real
    else (leg.premium - Intrinsic(leg, x)) * leg.qty as real
  }

  /** Profit of all legs at expiry price `x`. */
  function Pnl(legs: seq<Leg>, x: real): real
  {
    if legs == [] then 0.0 else Pnl(legs[..|legs| - 1], x) + LegPnl(legs[|legs| - 1], x)
  }

  /** The `forEach` over the legs for one grid price. */
  method PnlAt(legs: seq<Leg>, x: real) returns (pnl: real)
    ensures pnl == Pnl(legs, x)
  {
    pnl := 0.0;
    var j := 0;
    while j < |legs|
      invariant 0 <= j <= |legs|
      invariant pnl == Pnl(legs[..j], x)
    {
      var leg := legs[j];
      var intrinsic := 0.0;
      if leg.instrument == CE {
        intrinsic := Max(0.0, x - leg.strike);
      } else {
        intrinsic := Max(0.0, leg.strike - x);
      }
      if leg.action == Buy {
        pnl := pnl + (intrinsic - leg.premium) * leg.qty as real;
      } else {
        pnl := pnl + (leg.premium - intrinsic) * leg.qty as real;
      }
      assert legs[..j + 1][..j] == legs[..j];
      j := j + 1;
    }
    assert legs[..|legs|] == legs;
  }

  /** The grid price at position `i`. */
  function GridPrice(atm: real, i: int): real
  {
    atm - Range + GridStep * i as real
  }

  /** The payoff loop: prices from `atm - 1000` to `atm + 1000` in steps of
      100, each with the total profit of the legs there. */
  method PayoffGrid(legs: seq<Leg>, atm: real) returns (payoff: seq<Point>)
    ensures |payoff| == 21
    ensures forall i :: 0 <= i < 21 ==> payoff[i] == Point(GridPrice(atm, i), Pnl(legs, GridPrice(atm, i)))
  {
    payoff := [];
    var price := atm - Range;
    var i := 0;
    while price <= atm + Range
      invariant 0 <= i <= 21 && |payoff| == i
      invariant price == GridPrice(atm, i)
      invariant forall j :: 0 <= j < i ==> payoff[j] == Point(GridPrice(atm, j), Pnl(legs, GridPrice(atm, j)))
      decreases 21 - i
    {
      var pnl := PnlAt(legs, price);
      payoff := payoff + [Point(price, pnl)];
      price := price + GridStep;
      i := i + 1;
    }
  }

  /** The grid is centred on the ATM strike, which is its middle point. */
  lemma GridShape(atm: real)
    ensures GridPrice(atm, 0) == atm - 1000.0 && GridPrice(atm, 10) == atm && GridPrice(atm, 20) == atm + 1000.0
    ensures forall i :: GridPrice(atm, i + 1) == GridPrice(atm, i) + 100.0
  {
  }

  /** The most an unhedged plan can earn is the two premiums, 10000; a
      hedged one earns at most the premiums net of the hedges, 8000. */
  lemma PayoffCap(strategy: string, ceStrike: real, peStrike: real, x: real)
    ensures Pnl(Legs(strategy, ceStrike, peStrike), x) <= if Hedged(strategy) then 8000.0 else 10000.0
  {
    var legs := Legs(strategy, ceStrike, peStrike);
    var two := legs[..2];
    PnlOfTwo(two, x);
    if Hedged(strategy) {
      assert legs[..3][..2] == two;
      assert legs[..4] == legs;
      assert Pnl(legs, x) == Pnl(two, x) + LegPnl(legs[2], x) + LegPnl(legs[3], x);
      HedgeCovers(x, ceStrike);
      HedgeCovers(-x, -peStrike);
    } else {
      assert legs == two;
    }
  }

  lemma PnlOfTwo(two: seq<Leg>, x: real)
    requires |two| == 2
    ensures Pnl(two, x) == LegPnl(two[0], x) + LegPnl(two[1], x)
  {
    assert two[..1][..0] == [];
    assert Pnl(two[..1], x) == LegPnl(two[0], x);
  }

  /** A long option 200 further out is worth at most the short one. */
  lemma HedgeCovers(x: real, k: real)
    ensures Max(0.0, x - (k + 200.0)) <= Max(0.0, x - k)
    ensures Max(0.0, x - k) - Max(0.0, x - (k + 200.0)) <= 200.0
  {
  }

  /** A hedged plan whose put strike is not above its call strike loses at
      most 2000 at any price: the hedges cap each side's loss at 200 points
      and both sides cannot be in the money at once. */
  lemma HedgedLossFloor(strategy: string, ceStrike: real, peStrike: real, x: real)
    requires Hedged(strategy) && peStrike <= ceStrike
    ensures Pnl(Legs(strategy, ceStrike, peStrike), x) >= -2000.0
  {
    var legs := Legs(strategy, ceStrike, peStrike);
    var two := legs[..2];
    PnlOfTwo(two, x);
    assert legs[..3][..2] == two;
    assert legs[..4] == legs;
    assert Pnl(legs, x) == Pnl(two, x) + LegPnl(legs[2], x) + LegPnl(legs[3], x);
    HedgeCovers(x, ceStrike);
    HedgeCovers(-x, -peStrike);
  }

  // ---------------------------------------------------------------------
  // The run
  // ---------------------------------------------------------------------

  const ResearchBullish := "Global markets showing resilience. FII inflows positive in recent sessions. Tech sector leading the rally."
  const ResearchBearish := "Global cues weak due to inflation concerns. Profit booking seen in major banking stocks."

  /** The four steps shown on the page, all completed. */
  function Steps(m: MarketSnapshot, d: Decision, risk: RiskAnalysis, toFixed: NumberFormat): (steps: seq<Step>)
    ensures |steps| == 4
    ensures forall i :: 0 <= i < 4 ==> steps[i].id == i + 1 && steps[i].status == "completed"
    ensures steps[0].agent == "Market Scanner" && steps[1].agent == "Market Researcher"
    ensures steps[2].agent == "Strategist" && steps[3].agent == "Risk Manager"
  {
    var research := if m.trend == Bullish then ResearchBullish else ResearchBearish;
    [Step(1, "Market Scanner", "completed",
          "Fetched NIFTY Spot: " + toFixed(m.spotPrice, 2) + ", India VIX: " + toFixed(m.vix, 2)),
     Step(2, "Market Researcher", "completed", "Analyzed News: " + research),
     Step(3, "Strategist", "completed", "Selected Strategy: " + d.strategy + ". Reasoning: " + d.reasoning),
     Step(4, "Risk Manager", "completed", risk.details + " Risk Check: " + risk.status + ".")]
  }

  /** `POST`: `override` is the body's `strategyOverride` and `quotes` the
      outcome of the two quote requests (`Err` when either throws). */
  method Post(override: Option<string>, quotes: Result<RunQuotes>, toFixed: NumberFormat)
    returns (resp: RunResponse)
    ensures quotes.Err? <==> resp == Failure("Failed to run agent workflow", 500)
    ensures quotes.Ok? ==>
      var m := Snapshot(quotes.value);
      var d := Decide(OrString(override, "Auto"), m.vix, OrNumber(quotes.value.niftyChangePercent, 0.0));
      var atm := RoundToStrike(m.spotPrice);
      var k := Strikes(d.strategy, atm, m.vix);
      && resp.Success?
      && resp.marketData == m
      && resp.finalDecision == Plan(d.strategy, Legs(d.strategy, k.0, k.1))
      && resp.riskAnalysis == Risk(d.strategy, toFixed)
      && resp.steps == Steps(m, d, resp.riskAnalysis, toFixed)
      && |resp.payoffData| == 21
      && forall i :: 0 <= i < 21 ==>
           resp.payoffData[i] == Point(GridPrice(atm, i), Pnl(Legs(d.strategy, k.0, k.1), GridPrice(atm, i)))
  {
    if quotes.Err? {
      return Failure("Failed to run agent workflow", 500);
    }
    var q := quotes.value;
    var strategyOverride := OrString(override, "Auto");
    var m := Snapshot(q);
    var d := Decide(strategyOverride, m.vix, OrNumber(q.niftyChangePercent, 0.0));
    var atm := RoundToStrike(m.spotPrice);
    var k := Strikes(d.strategy, atm, m.vix);
    var legs := BuildLegs(d.strategy, k.0, k.1);
    var risk := Risk(d.strategy, toFixed);
    var payoff := PayoffGrid(legs, atm);
    resp := Success(m, Steps(m, d, risk, toFixed), Plan(d.strategy, legs), risk, payoff);
  }

  /** Under "Auto" the plan is hedged, and the margin the lower one,
      exactly when VIX is high or the market moved more than 1%. */
  lemma AutoPlanHedging(vix: real, changePercent: real)
    ensures var s := Decide("Auto", vix, changePercent).strategy;
      && (Hedged(s) <==> HighVix(vix) || Abs(changePercent) > 1.0)
      && (Margin(s) == 60000 <==> Hedged(s))
  {
    if HighVix(vix) {
      IronFlyHedged();
    } else if Abs(changePercent) > 1.0 {
      SpreadsHedged();
    } else {
      StrangleNaked();
    }
  }

  lemma IronFlyHedged()
    ensures Hedged("Iron Fly") && Margin("Iron Fly") == 60000
  {
    assert OccursAt("Iron Fly", "Iron", 0);
  }

  lemma SpreadsHedged()
    ensures Hedged("Bull Call Spread") && Margin("Bull Call Spread") == 60000
    ensures Hedged("Bear Put Spread") && Margin("Bear Put Spread") == 60000
  {
    assert OccursAt("Bull Call Spread", "Spread", 10);
    assert OccursAt("Bear Put Spread", "Spread", 9);
  }

  lemma StrangleNaked()
    ensures !Hedged("Short Strangle") && Margin("Short Strangle") == 125000
  {
    MissingChar("Short Strangle", "Iron", 0);
    MissingChar("Short Strangle", "Spread", 1);
  }
}
