/** The trading-system page: a run button that clears the previous run,
    posts the chosen strategy, reveals the returned agent steps one by one
    in place of a placeholder step, and a payoff chart that scales the
    payoff points into a 100 by 50 view box. The server's reply (or the
    failure of the request) is an input; the delays between reveals are not
    modelled. */
module RagPage {
  import opened Util
  import opened RealMath
  import RagRun
  import MarketData

  type Step = RagRun.Step
  type Point = RagRun.Point

  const SystemAgent := "System"
  /** The placeholder shown while the request is in flight. */
  const InitStep: Step := RagRun.Step(0, SystemAgent, "running", "Initializing agents...")

  const ChartWidth: real := 100.0
  const ChartHeight: real := 50.0

  // ---------------------------------------------------------------------
  // Step reveal
  // ---------------------------------------------------------------------

  /** The `setSteps` updater: when the last step shown is a "System" one,
      the first step is dropped; then the incoming step is appended. */
  function Revealed(prev: seq<Step>, incoming: Step): seq<Step>
  {
    var kept := if |prev| > 0 && prev[|prev| - 1].agent == SystemAgent then prev[1..] else prev;
    kept + [incoming]
  }

  /** The list after revealing `incoming` one step at a time. */
  function RevealAll(prev: seq<Step>, incoming: seq<Step>): seq<Step>
  {
    if |incoming| == 0 then prev
    else Revealed(RevealAll(prev, incoming[..|incoming| - 1]), incoming[|incoming| - 1])
  }

  /** Each reveal appends the incoming step and either keeps the list or
      drops its first step, the latter exactly after a "System" step. */
  lemma RevealShape(prev: seq<Step>, incoming: Step)
    ensures var r := Revealed(prev, incoming);
      && r[|r| - 1] == incoming
      && (|prev| > 0 && prev[|prev| - 1].agent == SystemAgent ==> |r| == |prev| && r[..|r| - 1] == prev[1..])
      && (!(|prev| > 0 && prev[|prev| - 1].agent == SystemAgent) ==> |r| == |prev| + 1 && r[..|r| - 1] == prev)
  {
  }

  /** The placeholder is replaced by the first real step, and from then on
      steps only accumulate: when no incoming step is a "System" one, the
      page ends up showing exactly the steps it received. */
  lemma {:induction false} PlaceholderReplaced(incoming: seq<Step>)
    requires |incoming| > 0
    requires forall i :: 0 <= i < |incoming| ==> incoming[i].agent != SystemAgent
    ensures RevealAll([InitStep], incoming) == incoming
  {
    var n := |incoming|;
    if n == 1 {
      assert incoming == [incoming[0]];
      FirstReveal(incoming[0]);
    } else {
      var init := incoming[..n - 1];
      assert forall i :: 0 <= i < |init| ==> init[i].agent != SystemAgent by {
        forall i | 0 <= i < |init|
          ensures init[i].agent != SystemAgent
        {
          assert init[i] == incoming[i];
        }
      }
      PlaceholderReplaced(init);
      RevealNext([InitStep], incoming);
    }
  }

  /** The first reveal replaces the placeholder. */
  lemma FirstReveal(incoming: Step)
    ensures RevealAll([InitStep], [incoming]) == [incoming]
  {
    assert [incoming][..0] == [];
  }

  /** Once the steps shown are the incoming ones so far, revealing the next
      one after a step that is not a "System" one keeps them so. */
  lemma RevealNext(prev: seq<Step>, incoming: seq<Step>)
    requires |incoming| > 1
    requires RevealAll(prev, incoming[..|incoming| - 1]) == incoming[..|incoming| - 1]
    requires incoming[|incoming| - 2].agent != SystemAgent
    ensures RevealAll(prev, incoming) == incoming
  {
    var n := |incoming|;
    var init := incoming[..n - 1];
    assert init[n - 2] == incoming[n - 2];
    assert init + [incoming[n - 1]] == incoming;
  }

  /** The four completed steps of a run are all shown, in order, once
      revealed. */
  lemma RunStepsShown(m: RagRun.MarketSnapshot, d: RagRun.Decision, risk: RagRun.RiskAnalysis,
                      toFixed: MarketData.NumberFormat)
    ensures RevealAll([InitStep], RagRun.Steps(m, d, risk, toFixed)) == RagRun.Steps(m, d, risk, toFixed)
  {
    var steps := RagRun.Steps(m, d, risk, toFixed);
    assert forall i :: 0 <= i < |steps| ==> steps[i].agent != SystemAgent;
    PlaceholderReplaced(steps);
  }

  /** A "System" step arriving after the placeholder has gone makes the next
      reveal drop the first step shown rather than the "System" one. */
  lemma SystemStepDropsFirst(a: Step, s: Step, b: Step)
    requires a.agent != SystemAgent && s.agent == SystemAgent
    ensures RevealAll([InitStep], [a, s, b]) == [s, b]
  {
    assert [a, s, b][..2] == [a, s];
    assert [a, s][..1] == [a];
    assert [a, s, b][..2][..1] == [a];
    assert RevealAll([InitStep], [a]) == [a];
    assert RevealAll([InitStep], [a, s]) == [a, s];
  }

  // ---------------------------------------------------------------------
  // Payoff chart
  // ---------------------------------------------------------------------

  /** `Math.min(...xs)` on a non-empty list. */
  function MinOf(xs: seq<real>): (m: real)
    requires |xs| > 0
    ensures m in xs && forall x :: x in xs ==> m <= x
  {
    if |xs| == 1 then xs[0]
    else
      var rest := MinOf(xs[1..]);
      assert forall x :: x in xs ==> x == xs[0] || x in xs[1..];
      if xs[0] <= rest then xs[0] else rest
  }

  /** `Math.max(...xs)` on a non-empty list. */
  function MaxOf(xs: seq<real>): (m: real)
    requires |xs| > 0
    ensures m in xs && forall x :: x in xs ==> x <= m
  {
    if |xs| == 1 then xs[0]
    else
      var rest := MaxOf(xs[1..]);
      assert forall x :: x in xs ==> x == xs[0] || x in xs[1..];
      if xs[0] >= rest then xs[0] else rest
  }

  function Xs(data: seq<Point>): (xs: seq<real>)
    ensures |xs| == |data| && forall i :: 0 <= i < |data| ==> xs[i] == data[i].x
  {
    seq(|data|, i requires 0 <= i < |data| => data[i].x)
  }

  function Ys(data: seq<Point>): (ys: seq<real>)
    ensures |ys| == |data| && forall i :: 0 <= i < |data| ==> ys[i] == data[i].y
  {
    seq(|data|, i requires 0 <= i < |data| => data[i].y)
  }

  /** The scales: the x range spans the data; the y range also takes in 0
      at the bottom so that the zero line is in view; a zero span becomes 1
      (`|| 1`). */
  datatype Scale = Scale(minX: real, xRange: real, minY: real, yRange: real)

  function ScaleOf(data: seq<Point>): (s: Scale)
    requires |data| > 0
    ensures s.xRange > 0.0 && s.yRange > 0.0
    ensures forall i :: 0 <= i < |data| ==> s.minX <= data[i].x <= s.minX + s.xRange
    ensures forall i :: 0 <= i < |data| ==> s.minY <= data[i].y <= s.minY + s.yRange
    ensures s.minY <= 0.0
    ensures s.minX == MinOf(Xs(data)) && s.minY == Min(MinOf(Ys(data)), 0.0)
    ensures s.xRange == (if MaxOf(Xs(data)) - s.minX == 0.0 then 1.0 else MaxOf(Xs(data)) - s.minX)
    ensures s.yRange == (if MaxOf(Ys(data)) - s.minY == 0.0 then 1.0 else MaxOf(Ys(data)) - s.minY)
  {
    var xs := Xs(data);
    var ys := Ys(data);
    var minX := MinOf(xs);
    var maxX := MaxOf(xs);
    var minY := Min(MinOf(ys), 0.0);
    var maxY := MaxOf(ys);
    assert forall i :: 0 <= i < |data| ==> xs[i] in xs && ys[i] in ys;
    Scale(minX, if maxX - minX == 0.0 then 1.0 else maxX - minX,
          minY, if maxY - minY == 0.0 then 1.0 else maxY - minY)
  }

  /** One payoff point in view-box coordinates, with y inverted for SVG. */
  function Plot(s: Scale, p: Point): Point
    requires s.xRange > 0.0 && s.yRange > 0.0
  {
    RagRun.Point((p.x - s.minX) / s.xRange * ChartWidth, ChartHeight - (p.y - s.minY) / s.yRange * ChartHeight)
  }

  /** What the chart draws: the plotted points and the height of the zero
      line. */
  datatype Chart = Chart(points: seq<Point>, zeroLineY: real)

  /** `renderPayoffChart`: nothing without payoff data. */
  function PayoffChart(data: seq<Point>): (r: Option<Chart>)
    ensures r.None? <==> |data| == 0
    ensures r.Some? ==> |r.value.points| == |data|
  {
    if |data| == 0 then None
    else
      var s := ScaleOf(data);
      Some(Chart(seq(|data|, i requires 0 <= i < |data| => Plot(s, data[i])),
                 ChartHeight - (0.0 - s.minY) / s.yRange * ChartHeight))
  }

  lemma Fraction(a: real, b: real)
    requires 0.0 <= a <= b && b > 0.0
    ensures 0.0 <= a / b <= 1.0
  {
  }

  /** Every point lands inside the 100 by 50 view box, and so does the
      zero line whenever some payoff is not negative. */
  lemma ChartInView(data: seq<Point>)
    requires |data| > 0
    ensures var c := PayoffChart(data).value;
      && (forall i :: 0 <= i < |c.points| ==> 0.0 <= c.points[i].x <= ChartWidth && 0.0 <= c.points[i].y <= ChartHeight)
      && (MaxOf(Ys(data)) >= 0.0 ==> 0.0 <= c.zeroLineY <= ChartHeight)
  {
    var s := ScaleOf(data);
    var c := PayoffChart(data).value;
    forall i | 0 <= i < |c.points|
      ensures 0.0 <= c.points[i].x <= ChartWidth && 0.0 <= c.points[i].y <= ChartHeight
    {
      Fraction(data[i].x - s.minX, s.xRange);
      Fraction(data[i].y - s.minY, s.yRange);
    }
    if MaxOf(Ys(data)) >= 0.0 {
      ZeroLineInView(data);
    }
  }

  lemma ZeroLineInView(data: seq<Point>)
    requires |data| > 0 && MaxOf(Ys(data)) >= 0.0
    ensures var s := ScaleOf(data); 0.0 <= (0.0 - s.minY) / s.yRange <= 1.0
  {
    var s := ScaleOf(data);
    var ys := Ys(data);
    var maxY := MaxOf(ys);
    var k :| 0 <= k < |ys| && ys[k] == maxY;
    assert maxY <= s.minY + s.yRange;
    Fraction(0.0 - s.minY, s.yRange);
  }

  /** The chart keeps the order of the data: a larger strike is further
      right and a larger payoff is higher up (smaller y). */
  lemma ChartKeepsOrder(data: seq<Point>, i: int, j: int)
    requires 0 <= i < |data| && 0 <= j < |data|
    ensures var c := PayoffChart(data).value;
      && (data[i].x <= data[j].x ==> c.points[i].x <= c.points[j].x)
      && (data[i].y <= data[j].y ==> c.points[j].y <= c.points[i].y)
  {
    var s := ScaleOf(data);
    if data[i].x <= data[j].x {
      PlotKeepsX(s, data[i], data[j]);
    }
    if data[i].y <= data[j].y {
      PlotKeepsY(s, data[i], data[j]);
    }
  }

  lemma PlotKeepsX(s: Scale, p: Point, q: Point)
    requires s.xRange > 0.0 && s.yRange > 0.0 && p.x <= q.x
    ensures Plot(s, p).x <= Plot(s, q).x
  {
    DivideKeepsOrder(p.x - s.minX, q.x - s.minX, s.xRange);
  }

  lemma PlotKeepsY(s: Scale, p: Point, q: Point)
    requires s.xRange > 0.0 && s.yRange > 0.0 && p.y <= q.y
    ensures Plot(s, q).y <= Plot(s, p).y
  {
    DivideKeepsOrder(p.y - s.minY, q.y - s.minY, s.yRange);
  }

  lemma DivideKeepsOrder(a: real, b: real, c: real)
    requires a <= b && c > 0.0
    ensures a / c <= b / c
  {
  }

  // ---------------------------------------------------------------------
  // Page state
  // ---------------------------------------------------------------------

  predicate ValidMode(mode: string)
  {
    mode == "Auto" || mode == "Short Strangle" || mode == "Short Straddle" || mode == "Iron Fly"
  }

  class TradingPage {
    var isRunning: bool
    var steps: seq<Step>
    var marketData: Option<RagRun.MarketSnapshot>
    var finalDecision: Option<RagRun.Plan>
    var riskAnalysis: Option<RagRun.RiskAnalysis>
    var payoffData: seq<Point>
    var strategyMode: string

    constructor()
      ensures !isRunning && steps == [] && marketData.None? && finalDecision.None? && riskAnalysis.None?
      ensures payoffData == [] && strategyMode == "Auto"
    {
      isRunning := false;
      steps := [];
      marketData := None;
      finalDecision := None;
      riskAnalysis := None;
      payoffData := [];
      strategyMode := "Auto";
    }

    /** The strategy selector. */
    method SetStrategyMode(mode: string)
      requires ValidMode(mode)
      modifies this
      ensures strategyMode == mode
      ensures isRunning == old(isRunning) && steps == old(steps) && marketData == old(marketData)
      ensures finalDecision == old(finalDecision) && riskAnalysis == old(riskAnalysis) && payoffData == old(payoffData)
    {
      strategyMode := mode;
    }

    /** One `setSteps(prev => ...)` of the reveal loop: copy, maybe shift,
        append. */
    method RevealStep(incoming: Step)
      modifies this
      ensures steps == Revealed(old(steps), incoming)
      ensures isRunning == old(isRunning) && marketData == old(marketData) && finalDecision == old(finalDecision)
      ensures riskAnalysis == old(riskAnalysis) && payoffData == old(payoffData) && strategyMode == old(strategyMode)
    {
      var newSteps := steps;
      if |newSteps| > 0 && newSteps[|newSteps| - 1].agent == SystemAgent {
        newSteps := newSteps[1..];
      }
      steps := newSteps + [incoming];
    }

    /** `runAgentSystem`. `reply` is the decoded reply, `None` when the
        request or the decoding threw. Everything from the previous run is
        cleared first; whatever happens, the page is no longer running at
        the end. */
    method RunAgentSystem(reply: Option<RagRun.RunResponse>)
      modifies this
      ensures !isRunning && strategyMode == old(strategyMode)
      ensures reply.Some? && reply.value.Success? ==>
        && steps == RevealAll([InitStep], reply.value.steps)
        && marketData == Some(reply.value.marketData)
        && finalDecision == Some(reply.value.finalDecision)
        && riskAnalysis == Some(reply.value.riskAnalysis)
        && payoffData == reply.value.payoffData
      ensures !(reply.Some? && reply.value.Success?) ==>
        steps == [InitStep] && marketData.None? && finalDecision.None? && riskAnalysis.None? && payoffData == []
    {
      isRunning := true;
      steps := [];
      marketData := None;
      finalDecision := None;
      riskAnalysis := None;
      payoffData := [];
      steps := [InitStep];
      if reply.Some? && reply.value.Success? {
        var result := reply.value;
        var incoming := result.steps;
        marketData := Some(result.marketData);
        var i := 0;
        while i < |incoming|
          invariant 0 <= i <= |incoming|
          invariant steps == RevealAll([InitStep], incoming[..i])
          invariant marketData == Some(result.marketData) && strategyMode == old(strategyMode)
        {
          assert incoming[..i + 1][..i] == incoming[..i];
          RevealStep(incoming[i]);
          i := i + 1;
        }
        assert incoming[..i] == incoming;
        finalDecision := Some(result.finalDecision);
        riskAnalysis := Some(result.riskAnalysis);
        payoffData := result.payoffData;
      }
      isRunning := false;
    }
  }
}
