/** The risk manager agent: it asks a second language model to approve or
    reject the proposed order and reads its verdict, rejecting whenever the
    call or the reading fails. The reply (or the failure of the call), the
    JSON decoding of the reply and the keyword hits are inputs. */
module RiskManager {
  import opened Util

  /** The `decision` field of a decoded reply: absent, a string, or some
      other JSON value (which has no `.lower()`). */
  datatype DecisionField = Absent | Text(s: string) | NotText

  /** `json.loads` of the reply without code fences. */
  datatype RiskJson = NotJson | NotObject | Object(decision: DecisionField)

  /** Whether `\brejected?\b` and `\bapproved?\b` match the reply,
      ignoring case. */
  datatype Keywords = Keywords(reject: bool, approve: bool)

  /** What `validate_order` returns. */
  datatype RiskResult = NoOrder(error: string) | Assessed(riskStatus: string, riskAnalysis: string)

  const NoOrderMessage := "No order to validate."
  const Failure := "LLM Failure"

  /** The keyword fallback: a rejection word wins, an approval word
      approves, and an unclear reply is rejected. */
  function KeywordDecision(k: Keywords): (d: string)
    ensures d == "approved" <==> k.approve && !k.reject
    ensures d == "approved" || d == "rejected"
  {
    if k.reject then "rejected" else if k.approve then "approved" else "rejected"
  }

  /** The verdict read from the reply, or `None` when reading raises an
      exception the keyword fallback does not catch. */
  function ReadDecision(json: RiskJson, k: Keywords): Option<string>
  {
    match json
    case NotJson => Some(KeywordDecision(k))
    case NotObject => None
    case Object(Absent) => Some("approved")
    case Object(Text(s)) => Some(Lower(s))
    case Object(NotText) => None
  }

  /** `validate_order`. `hasOrder` is the truthiness of the proposed order;
      `reply` is `None` when the model call raised. */
  function ValidateOrder(hasOrder: bool, reply: Option<string>, json: RiskJson, k: Keywords): (r: RiskResult)
    ensures !hasOrder <==> r == NoOrder(NoOrderMessage)
    ensures hasOrder && reply.None? ==> r == Assessed("rejected", Failure)
    ensures r.Assessed? && r.riskAnalysis != Failure ==> reply.Some? && r.riskAnalysis == reply.value
    // A readable reply: the JSON verdict lower-cased, "approved" when the
    // field is missing, or the keyword verdict when the reply is not JSON.
    ensures hasOrder && reply.Some? && json.Object? && json.decision.Text? ==>
              r == Assessed(Lower(json.decision.s), reply.value)
    ensures hasOrder && reply.Some? && json == Object(Absent) ==> r == Assessed("approved", reply.value)
    ensures hasOrder && reply.Some? && json.NotJson? ==> r == Assessed(KeywordDecision(k), reply.value)
    // Reading a decoded value that is not an object, or a decision that is
    // not a string, raises into the fail-safe handler.
    ensures hasOrder && reply.Some? && (json.NotObject? || json == Object(NotText)) ==>
              r == Assessed("rejected", Failure)
  {
    if !hasOrder then NoOrder(NoOrderMessage)
    else if reply.None? then Assessed("rejected", Failure)
    else
      var d := ReadDecision(json, k);
      if d.None? then Assessed("rejected", Failure)
      else Assessed(d.value, reply.value)
  }

  /** An order is approved only on an explicit or defaulted approval in
      the JSON, or on an approval word without a rejection word in a reply
      that is not JSON. */
  lemma ApprovalNeedsConsent(hasOrder: bool, reply: Option<string>, json: RiskJson, k: Keywords)
    requires ValidateOrder(hasOrder, reply, json, k).Assessed?
    requires ValidateOrder(hasOrder, reply, json, k).riskStatus == "approved"
    ensures reply.Some?
    ensures || (json.Object? && json.decision.Absent?)
            || (json.Object? && json.decision.Text? && Lower(json.decision.s) == "approved")
            || (json.NotJson? && k.approve && !k.reject)
  {
    assert Failure != "approved";
  }

  /** Upper or mixed case in the JSON verdict does not matter: any
      decision text is read as its lower-case form, and writing it in lower
      case already gives the same result. */
  lemma {:induction false} VerdictIgnoresCase(reply: string, s: string, k: Keywords)
    ensures ValidateOrder(true, Some(reply), Object(Text(s)), k) == Assessed(Lower(s), reply)
    ensures ValidateOrder(true, Some(reply), Object(Text(Lower(s))), k)
         == ValidateOrder(true, Some(reply), Object(Text(s)), k)
  {
    var l := Lower(s);
    assert Lower(l) == l by {
      forall i | 0 <= i < |l|
        ensures Lower(l)[i] == l[i]
      {
        assert l[i] == LowerChar(s[i]);
      }
    }
  }
}
