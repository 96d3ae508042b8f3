/** The strategist agent: it picks the strategy, the sigma multiplier and
    the rules to follow, from a manual override or from the language
    model's reply. The retrieved rule texts, the reply, the outcome of
    decoding the reply as JSON and the hits of the fallback regular
    expressions are inputs. */
module Strategist {
  import opened Util
  import LlmClient

  /** The texts retrieved from the knowledge base. */
  datatype Knowledge = Knowledge(strangleRules: string, straddleRules: string, news: string)

  /** `recommended_sigma` of a decoded reply: absent, convertible by
      `float()`, or rejected by it with a `ValueError` (a string that is no
      number) or a `TypeError` (null, a list, an object). */
  datatype SigmaField = Absent | Converts(value: real) | ValueErr | TypeErr

  /** `json.loads` of the reply without code fences: not JSON, JSON that is
      not an object, or an object with these fields (`None` = absent). */
  datatype JsonOutcome =
    | NotJson
    | NotObject
    | Object(strategy: Option<string>, sigma: SigmaField, rationale: Option<string>)

  /** Whether each fallback pattern matches the reply (case-insensitive,
      whole words): `short straddle`, `short strangle`, `straddle`,
      `strangle`; and the number after the first `sigma`, if any. */
  datatype RegexHits = RegexHits(shortStraddle: bool, shortStrangle: bool, straddle: bool, strangle: bool,
                                 sigma: Option<real>)

  /** The `strategy_decision` dictionary. */
  datatype StrategyDecision = StrategyDecision(
    strategy: string, rationale: string, constraints: string, marketSentiment: string,
    llmAnalysis: string, recommendedSigma: real)

  const DefaultSigma: real := 1.0
  const ManualAnalysis := "Manual Override. LLM analysis skipped."

  /** A Python string is truthy when it is present and non-empty. */
  predicate Given(s: Option<string>)
  {
    s.Some? && s.value != ""
  }

  /** The strategy named by the fallback patterns, in order of precedence. */
  function RegexStrategy(h: RegexHits): (s: Option<string>)
    ensures s.None? <==> !(h.shortStraddle || h.shortStrangle || h.straddle || h.strangle)
    ensures s.Some? ==> s.value == "Short Straddle" || s.value == "Short Strangle"
  {
    if h.shortStraddle then Some("Short Straddle")
    else if h.shortStrangle then Some("Short Strangle")
    else if h.straddle then Some("Short Straddle")
    else if h.strangle then Some("Short Strangle")
    else None
  }

  /** The regular-expression fallback: the strategy found in the text,
      else the one already read, and the sigma found in the text, else the
      default. */
  function Fallback(h: RegexHits, read: Option<string>, reply: string): (Option<string>, real, string)
  {
    var strategy := if RegexStrategy(h).Some? then RegexStrategy(h) else read;
    (strategy, if h.sigma.Some? then h.sigma.value else DefaultSigma, reply)
  }

  /** Strategy, sigma and rationale read from the reply; an error for the
      exceptions the parsing step does not catch. */
  function ReadReply(reply: string, json: JsonOutcome, h: RegexHits): Result<(Option<string>, real, string)>
  {
    match json
    case NotJson => Ok(Fallback(h, None, reply))
    case NotObject => Err("AttributeError")
    case Object(strategy, sigma, rationale) =>
      match sigma
      case Absent => Ok((strategy, DefaultSigma, if rationale.Some? then rationale.value else reply))
      case Converts(x) => Ok((strategy, x, if rationale.Some? then rationale.value else reply))
      case ValueErr => Ok(Fallback(h, strategy, reply))
      case TypeErr => Err("TypeError")
  }

  /** The rules that go with a strategy name. */
  function RulesFor(k: Knowledge, strategy: string): string
  {
    if strategy == "Short Straddle" then k.straddleRules else k.strangleRules
  }

  /** `analyze_strategy`. `ivText` is how the market IV prints. */
  function AnalyzeStrategy(k: Knowledge, ivText: string, override: Option<string>, reply: string,
                           json: JsonOutcome, h: RegexHits): (r: Result<StrategyDecision>)
    ensures Given(override) ==> r.Ok? && r.value.strategy == override.value
                                && r.value.recommendedSigma == DefaultSigma
                                && r.value.llmAnalysis == ManualAnalysis
    ensures r.Ok? ==> r.value.constraints == RulesFor(k, r.value.strategy) && r.value.marketSentiment == k.news
    ensures !Given(override) && r.Ok? ==> r.value.strategy != "" && r.value.llmAnalysis == reply
    ensures !Given(override) && Contains(reply, "Error") ==>
      r.Ok? && r.value.strategy == "Short Strangle" && r.value.recommendedSigma == DefaultSigma
  {
    if Given(override) then
      var name := override.value;
      Ok(StrategyDecision(name, "User manually selected " + name + ".", RulesFor(k, name), k.news,
                          ManualAnalysis, DefaultSigma))
    else if Contains(reply, "Error") then
      Ok(StrategyDecision("Short Strangle", "Defaulting to safer strategy due to LLM error. IV is " + ivText + "%.",
                          k.strangleRules, k.news, reply, DefaultSigma))
    else
      var read := ReadReply(reply, json, h);
      if read.Err? then Err(read.message)
      else
        var (strategy, sigma, rationale) := read.value;
        var name := if Given(strategy) then strategy.value else "Short Strangle";
        Ok(StrategyDecision(name, rationale, RulesFor(k, name), k.news, reply, sigma))
  }

  /** With an override the reply is never consulted: the decision is the
      same whatever the model said. */
  lemma OverrideIgnoresModel(k: Knowledge, ivText: string, override: Option<string>,
                             reply: string, json: JsonOutcome, h: RegexHits,
                             reply': string, json': JsonOutcome, h': RegexHits)
    requires Given(override)
    ensures AnalyzeStrategy(k, ivText, override, reply, json, h) == AnalyzeStrategy(k, ivText, override, reply', json', h')
  {
  }

  /** A reply decoded as a JSON object is read field by field: the
      strategy ("Short Strangle" when missing or empty), the sigma (1.0 when
      missing) and the rationale (the reply itself when missing). */
  lemma JsonPathReads(k: Knowledge, ivText: string, override: Option<string>, reply: string, h: RegexHits,
                      strategy: Option<string>, sigma: SigmaField, rationale: Option<string>)
    requires !Given(override) && !Contains(reply, "Error")
    requires sigma.Absent? || sigma.Converts?
    ensures var name := if Given(strategy) then strategy.value else "Short Strangle";
      AnalyzeStrategy(k, ivText, override, reply, Object(strategy, sigma, rationale), h)
        == Ok(StrategyDecision(name, if rationale.Some? then rationale.value else reply,
                               RulesFor(k, name), k.news, reply,
                               if sigma.Converts? then sigma.value else DefaultSigma))
  {
  }

  /** A reply that is not JSON is read by the patterns, in precedence
      order, falling back to "Short Strangle"; the sigma is the number after
      "sigma" or 1.0. */
  lemma PatternPrecedence(k: Knowledge, ivText: string, override: Option<string>, reply: string, h: RegexHits)
    requires !Given(override) && !Contains(reply, "Error")
    ensures var r := AnalyzeStrategy(k, ivText, override, reply, NotJson, h);
      && r.Ok?
      && r.value.strategy == (if h.shortStraddle then "Short Straddle"
                              else if h.shortStrangle then "Short Strangle"
                              else if h.straddle then "Short Straddle"
                              else "Short Strangle")
      && r.value.recommendedSigma == (if h.sigma.Some? then h.sigma.value else 1.0)
      && r.value.rationale == reply
  {
  }

  /** A JSON strategy survives a `recommended_sigma` that `float()`
      rejects with a `ValueError`, unless a pattern names a strategy. */
  lemma JsonStrategySurvivesBadSigma(k: Knowledge, ivText: string, override: Option<string>, reply: string,
                                     strategy: string, rationale: Option<string>, h: RegexHits)
    requires !Given(override) && !Contains(reply, "Error") && strategy != ""
    ensures var r := AnalyzeStrategy(k, ivText, override, reply, Object(Some(strategy), ValueErr, rationale), h);
      && r.Ok?
      && r.value.strategy == (if RegexStrategy(h).Some? then RegexStrategy(h).value else strategy)
      && r.value.rationale == reply
  {
  }

  /** Errors escape only for a reply that decodes to something other than
      an object, or to an object whose sigma `float()` rejects with a
      `TypeError`. */
  lemma WhenAnalysisRaises(k: Knowledge, ivText: string, override: Option<string>, reply: string,
                           json: JsonOutcome, h: RegexHits)
    ensures AnalyzeStrategy(k, ivText, override, reply, json, h).Err? <==>
      !Given(override) && !Contains(reply, "Error") && (json.NotObject? || (json.Object? && json.sigma.TypeErr?))
  {
  }

  /** A model call that failed, for want of a client or by raising, always
      leads to the default "Short Strangle" with sigma 1.0. */
  lemma FailedQueryDefaults(k: Knowledge, ivText: string, override: Option<string>, message: string,
                            json: JsonOutcome, h: RegexHits)
    requires !Given(override)
    ensures var r := AnalyzeStrategy(k, ivText, override, LlmClient.NoClientReply, json, h);
      r.Ok? && r.value.strategy == "Short Strangle" && r.value.recommendedSigma == DefaultSigma
    ensures var r := AnalyzeStrategy(k, ivText, override, LlmClient.CallErrorPrefix + message, json, h);
      r.Ok? && r.value.strategy == "Short Strangle" && r.value.recommendedSigma == DefaultSigma
  {
    LlmClient.FailuresStartWithError(message);
  }
}
