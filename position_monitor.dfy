/** The position monitor agent: it describes the last logged trade and the
    market to a language model and flags an adjustment when the reply
    mentions adjusting or exiting. The log's lines (or the failure to read
    them) and the reply (or the failure of the call) are inputs. */
module PositionMonitor {
  import opened Util

  const NoPositions := "No active positions found in log."

  /** The position described to the model: the last log line, stripped,
      when the log has a line beyond the header; otherwise the default. */
  function PositionContext(log: Option<seq<string>>): (c: string)
    ensures log.Some? && |log.value| > 1 ==> c == Strip(log.value[|log.value| - 1])
    ensures !(log.Some? && |log.value| > 1) ==> c == NoPositions
  {
    if log.Some? && |log.value| > 1 then Strip(log.value[|log.value| - 1]) else NoPositions
  }

  /** The market figures put in the prompt, with their defaults. */
  datatype PromptFacts = PromptFacts(spot: real, iv: real, news: string, position: string)

  function Prompt(spot: Option<real>, iv: Option<real>, research: Option<string>,
                  log: Option<seq<string>>): (p: PromptFacts)
    ensures p.spot == (if spot.Some? then spot.value else 22000.0)
    ensures p.iv == (if iv.Some? then iv.value else 12.0)
    ensures p.news == (if research.Some? then research.value else "No news.")
    ensures p.position == PositionContext(log)
  {
    PromptFacts(if spot.Some? then spot.value else 22000.0, if iv.Some? then iv.value else 12.0,
                if research.Some? then research.value else "No news.", PositionContext(log))
  }

  /** The rule applied to the reply: "adjust" or "exit" anywhere in the
      lower-cased text, as a plain substring. */
  predicate MentionsAdjustment(reply: string)
  {
    Contains(Lower(reply), "adjust") || Contains(Lower(reply), "exit")
  }

  /** What `monitor_positions` returns; the analysis is absent when the
      model call failed. */
  datatype MonitorResult = MonitorResult(adjustmentNeeded: bool, monitorAnalysis: Option<string>)

  /** `monitor_positions`, from the reply onwards; `reply` is `None` when
      the model call raised. */
  function MonitorPositions(reply: Option<string>): (r: MonitorResult)
    ensures reply.None? ==> r == MonitorResult(false, None)
    ensures reply.Some? ==> r.monitorAnalysis == reply && (r.adjustmentNeeded <==> MentionsAdjustment(reply.value))
  {
    if reply.None? then MonitorResult(false, None)
    else MonitorResult(MentionsAdjustment(reply.value), reply)
  }

  /** The substring rule reads a negation as a request: "No exit needed"
      flags an adjustment. */
  lemma NegationStillFlags()
    ensures MonitorPositions(Some("No exit needed")).adjustmentNeeded
  {
    assert Lower("No exit needed") == "no exit needed";
    assert OccursAt("no exit needed", "exit", 3);
  }

  /** A plain "HOLD" does not. */
  lemma HoldDoesNotFlag()
    ensures !MonitorPositions(Some("HOLD")).adjustmentNeeded
  {
    var s := Lower("HOLD");
    assert s == "hold";
    MissingChar(s, "adjust", 0);
    MissingChar(s, "exit", 0);
  }

  /** Case does not matter: a reply and its lower-cased form are flagged
      alike. */
  lemma CaseInsensitive(reply: string)
    ensures MonitorPositions(Some(reply)).adjustmentNeeded == MonitorPositions(Some(Lower(reply))).adjustmentNeeded
  {
    assert Lower(Lower(reply)) == Lower(reply);
  }
}
