/** The executor agent: it turns the strategist's decision and the market
    snapshot into a combination order, choosing the strikes, the legs to
    trade and, for each leg, the listed strike nearest to its target and
    that strike's trading symbol. The broker's instrument list, used only
    for lot sizes, is an input. */
module Executor {
  import opened Util
  import opened RealMath
  import opened Nearest
  import SigmaCalculator
  import OptionChainBuilder

  /** One row of the option chain handed over in the market data. An
      empty symbol is a missing one. */
  datatype ChainEntry = ChainEntry(strike: real, ceSymbol: string, peSymbol: string)

  /** The market data the executor reads; `chain` is `None` when absent. */
  datatype MarketInputs = MarketInputs(spot: real, iv: real, days: int, symbol: Option<string>,
                                       chain: Option<seq<ChainEntry>>)

  /** The strategist's decision; absent fields are `None`. */
  datatype Decision = Decision(strategy: Option<string>, recommendedSigma: Option<real>)

  /** The `strikes` dictionary, also returned as the order's analysis. */
  datatype StrikePlan =
    | Straddle(atm: int)
    | IronFly(atm: int, wingWidth: int)
    | Strangle(strikes: SigmaCalculator.StrangleStrikes)

  /** A leg to price: option side ("CE" or "PE"), target strike, action. */
  datatype LegRequest = LegRequest(side: string, strike: int, action: string)

  /** A leg of the final order; the order id is always `None` and is not
      kept. */
  datatype FinalLeg = FinalLeg(side: string, strike: real, instrument: string, quantity: int, action: string)

  datatype Order = Order(action: string, strategy: string, legs: seq<FinalLeg>, analysis: StrikePlan)

  /** What `execute_order` does: returns an error reply, returns an order,
      or raises. */
  datatype Outcome = ErrorReply(error: string) | FinalOrder(order: Order) | Raised(message: string)

  const WingWidth: int := 300

  const NoMarketData := "No market data found"

  /** The message raised when the chain is missing or empty. */
  const NoChainMessage := "Cannot execute order without valid option chain data: Option chain data not available"

  function StrategyName(d: Decision): string
  {
    if d.strategy.Some? then d.strategy.value else "Short Strangle"
  }

  function SigmaMult(d: Decision): real
  {
    if d.recommendedSigma.Some? then d.recommendedSigma.value else 1.0
  }

  function Underlying(md: MarketInputs): string
  {
    if md.symbol.Some? then md.symbol.value else "NIFTY"
  }

  function SellCallStrike(p: StrikePlan): int
  {
    match p
    case Straddle(atm) => atm
    case IronFly(atm, _) => atm
    case Strangle(s) => s.sellCallStrike
  }

  function SellPutStrike(p: StrikePlan): int
  {
    match p
    case Straddle(atm) => atm
    case IronFly(atm, _) => atm
    case Strangle(s) => s.sellPutStrike
  }

  /** The strike plan: both sells at the ATM strike for "Short Straddle"
      and "Iron Fly" (with wings 300 points out), the sigma strangle for
      any other name; that one fails for negative days. */
  function PlanStrikes(m: Transcendentals, round: DecimalRounding, name: string, sigma: real,
                       md: MarketInputs): (r: Result<StrikePlan>)
    ensures name == "Short Straddle" ==> r == Ok(Straddle(SigmaCalculator.GetAtmStrike(md.spot)))
    ensures name == "Iron Fly" ==> r == Ok(IronFly(SigmaCalculator.GetAtmStrike(md.spot), 300))
    ensures name != "Short Straddle" && name != "Iron Fly" ==>
      (r.Ok? <==> md.days >= 0)
      && (r.Ok? ==> r == Ok(Strangle(SigmaCalculator.GetStrangleStrikes(m, md.spot, md.iv, md.days, sigma, round).value)))
  {
    if name == "Short Straddle" then Ok(Straddle(SigmaCalculator.GetAtmStrike(md.spot)))
    else if name == "Iron Fly" then Ok(IronFly(SigmaCalculator.GetAtmStrike(md.spot), WingWidth))
    else
      var s := SigmaCalculator.GetStrangleStrikes(m, md.spot, md.iv, md.days, sigma, round);
      if s.Err? then Err(s.message) else Ok(Strangle(s.value))
  }

  /** `legs_to_process`: sell the call, sell the put, and for "Iron Fly"
      buy the call wing and the put wing. */
  function LegsToProcess(name: string, p: StrikePlan): (legs: seq<LegRequest>)
    ensures |legs| == (if name == "Iron Fly" then 4 else 2)
    ensures legs[0] == LegRequest("CE", SellCallStrike(p), "SELL")
    ensures legs[1] == LegRequest("PE", SellPutStrike(p), "SELL")
  {
    var sells := [LegRequest("CE", SellCallStrike(p), "SELL"), LegRequest("PE", SellPutStrike(p), "SELL")];
    if name == "Iron Fly" then
      var (buyCall, buyPut) := if p.IronFly? then (p.atm + p.wingWidth, p.atm - p.wingWidth) else (0, 0);
      sells + [LegRequest("CE", buyCall, "BUY"), LegRequest("PE", buyPut, "BUY")]
    else sells
  }

  /** An iron fly sells at the ATM strike and buys 300 points either side. */
  lemma IronFlyWings(m: Transcendentals, round: DecimalRounding, sigma: real, md: MarketInputs)
    ensures var legs := LegsToProcess("Iron Fly", PlanStrikes(m, round, "Iron Fly", sigma, md).value);
      var atm := SigmaCalculator.GetAtmStrike(md.spot);
      && legs[0].strike == legs[1].strike == atm
      && legs[2] == LegRequest("CE", atm + 300, "BUY") && legs[3] == LegRequest("PE", atm - 300, "BUY")
  {
  }

  function Strikes(chain: seq<ChainEntry>): (xs: seq<real>)
    ensures |xs| == |chain| && forall k :: 0 <= k < |chain| ==> xs[k] == chain[k].strike
  {
    seq(|chain|, k requires 0 <= k < |chain| => chain[k].strike)
  }

  /** The first row listed at a strike. */
  function RowAt(chain: seq<ChainEntry>, strike: real): (r: Option<ChainEntry>)
    ensures r.None? <==> forall k :: 0 <= k < |chain| ==> chain[k].strike != strike
    ensures r.Some? ==> r.value in chain && r.value.strike == strike
  {
    if chain == [] then None
    else if chain[0].strike == strike then Some(chain[0])
    else
      var rest := RowAt(chain[1..], strike);
      assert forall k :: 0 < k < |chain| ==> chain[k] == chain[1..][k - 1];
      rest
  }

  function SymbolFor(e: ChainEntry, side: string): string
  {
    if side == "CE" then e.ceSymbol else e.peSymbol
  }

  /** One leg resolved against a non-empty chain: the nearest listed strike
      (first on ties) and its symbol for the leg's side, or nothing when
      that symbol is empty. */
  function Resolve(chain: seq<ChainEntry>, leg: LegRequest, lot: int): Option<FinalLeg>
    requires chain != []
  {
    var actual := Closest(Strikes(chain), leg.strike as real);
    var row := RowAt(chain, actual);
    if row.Some? && SymbolFor(row.value, leg.side) != "" then
      Some(FinalLeg(leg.side, actual, SymbolFor(row.value, leg.side), lot, leg.action))
    else None
  }

  /** A resolved leg keeps the side and action, carries the lot size, sits
      at a listed strike no farther from the target than any other, and
      names the non-empty symbol listed there for its side. A leg is
      dropped only when that symbol is empty. */
  lemma ResolvedLeg(chain: seq<ChainEntry>, leg: LegRequest, lot: int)
    requires chain != []
    ensures var f := Resolve(chain, leg, lot);
      && (f.Some? ==>
        && f.value.side == leg.side && f.value.action == leg.action && f.value.quantity == lot
        && f.value.strike in Strikes(chain)
        && (forall x :: x in Strikes(chain) ==> Dist(f.value.strike, leg.strike as real) <= Dist(x, leg.strike as real))
        && f.value.instrument != ""
        && exists e :: e in chain && e.strike == f.value.strike && SymbolFor(e, leg.side) == f.value.instrument)
      && (f.None? <==> SymbolFor(RowAt(chain, Closest(Strikes(chain), leg.strike as real)).value, leg.side) == "")
  {
    var actual := Closest(Strikes(chain), leg.strike as real);
    var k :| 0 <= k < |chain| && Strikes(chain)[k] == actual;
    assert chain[k].strike == actual;
  }

  /** The final legs: every request resolved, in order, skipping those
      without a symbol. */
  function ResolveAll(chain: seq<ChainEntry>, legs: seq<LegRequest>, lot: int): (finals: seq<FinalLeg>)
    requires chain != []
    ensures |finals| <= |legs|
  {
    if legs == [] then []
    else
      var init := ResolveAll(chain, legs[..|legs| - 1], lot);
      var last := Resolve(chain, legs[|legs| - 1], lot);
      if last.Some? then init + [last.value] else init
  }

  /** Resolving is done leg by leg, so it distributes over concatenation:
      the final legs keep the order of the requests. */
  lemma {:induction false} ResolveAllAppend(chain: seq<ChainEntry>, a: seq<LegRequest>, b: seq<LegRequest>, lot: int)
    requires chain != []
    ensures ResolveAll(chain, a + b, lot) == ResolveAll(chain, a, lot) + ResolveAll(chain, b, lot)
  {
    if b == [] {
      assert a + b == a;
    } else {
      var b' := b[..|b| - 1];
      assert (a + b)[..|a + b| - 1] == a + b';
      assert (a + b)[|a + b| - 1] == b[|b| - 1];
      ResolveAllAppend(chain, a, b', lot);
    }
  }

  /** When every listed strike has both symbols, no leg is dropped. */
  lemma {:induction false} NothingDropped(chain: seq<ChainEntry>, legs: seq<LegRequest>, lot: int)
    requires chain != []
    requires forall e :: e in chain ==> e.ceSymbol != "" && e.peSymbol != ""
    ensures |ResolveAll(chain, legs, lot)| == |legs|
  {
    if legs != [] {
      NothingDropped(chain, legs[..|legs| - 1], lot);
      var leg := legs[|legs| - 1];
      var row := RowAt(chain, Closest(Strikes(chain), leg.strike as real));
      ResolvedLeg(chain, leg, lot);
      assert row.value in chain;
    }
  }

  /** The loop of `execute_order` over the legs to process. */
  method ResolveLegs(chain: seq<ChainEntry>, legs: seq<LegRequest>, symbol: string,
                     instruments: Result<seq<OptionChainBuilder.Instrument>>) returns (finals: seq<FinalLeg>)
    requires chain != []
    ensures finals == ResolveAll(chain, legs, OptionChainBuilder.GetLotSize(symbol, instruments))
  {
    finals := [];
    var i := 0;
    while i < |legs|
      invariant 0 <= i <= |legs|
      invariant finals == ResolveAll(chain, legs[..i], OptionChainBuilder.GetLotSize(symbol, instruments))
    {
      var leg := legs[i];
      var actual := Closest(Strikes(chain), leg.strike as real);
      var row := RowAt(chain, actual);
      if row.Some? && SymbolFor(row.value, leg.side) != "" {
        var lot := OptionChainBuilder.GetLotSize(symbol, instruments);
        finals := finals + [FinalLeg(leg.side, actual, SymbolFor(row.value, leg.side), lot, leg.action)];
      }
      assert legs[..i + 1][..i] == legs[..i];
      i := i + 1;
    }
    assert legs[..|legs|] == legs;
  }

  /** `execute_order`. `lot` stands for `get_lot_size(symbol)`, computed
      from the broker's instrument list. */
  method ExecuteOrder(m: Transcendentals, round: DecimalRounding, decision: Decision,
                      marketData: Option<MarketInputs>, instruments: Result<seq<OptionChainBuilder.Instrument>>)
    returns (r: Outcome)
    ensures marketData.None? ==> r == ErrorReply(NoMarketData)
    ensures marketData.Some? ==>
      var md := marketData.value;
      var name := StrategyName(decision);
      var plan := PlanStrikes(m, round, name, SigmaMult(decision), md);
      var lot := OptionChainBuilder.GetLotSize(Underlying(md), instruments);
      if plan.Err? then r == Raised(plan.message)
      else if md.chain.None? || md.chain.value == [] then
        r == Raised(NoChainMessage)
      else
        r == FinalOrder(Order("COMBINATION", name, ResolveAll(md.chain.value, LegsToProcess(name, plan.value), lot),
                              plan.value))
  {
    if marketData.None? {
      return ErrorReply(NoMarketData);
    }
    var md := marketData.value;
    var name := StrategyName(decision);
    var symbol := Underlying(md);
    var plan := PlanStrikes(m, round, name, SigmaMult(decision), md);
    if plan.Err? {
      return Raised(plan.message);
    }
    var legs := LegsToProcess(name, plan.value);
    if md.chain.None? || md.chain.value == [] {
      return Raised(NoChainMessage);
    }
    var finals := ResolveLegs(md.chain.value, legs, symbol, instruments);
    r := FinalOrder(Order("COMBINATION", name, finals, plan.value));
  }
}
