/** The expiry endpoint: it runs a Python snippet that prints the expiry
    dates as JSON between two marker lines, collects the child's output,
    cuts the JSON out from between the markers and answers with a success
    or an error envelope. The child's output chunks, its exit code, whether
    the ten-second timer fired first and `JSON.parse` are inputs. */
module ExpiryRoute {
  import opened Util

  const StartMarker := "__JSON_START__"
  const EndMarker := "__JSON_END__"
  const NoJsonPrefix := "No JSON output found. Logs: "
  const ParseFailurePrefix := "Failed to parse JSON output: "
  const TimeoutMessage := "Python execution timeout"
  const ExitPrefix := "Python process exited with code "
  const ExitErrorInfix := ". Error: "
  const FetchFailed := "Failed to fetch expiries"
  const NullRead := "Cannot read properties of null (reading 'error')"

  /** What `JSON.parse` produced: `null`, or a value whose `error` and
      `expiries` properties are read (absent on numbers, strings and arrays,
      and on objects without them). */
  datatype JsonValue = Null | Value(error: Option<string>, expiries: Option<seq<string>>)

  /** The reply: HTTP status and body. */
  datatype Body = Success(expiries: seq<string>) | Failure(error: string)
  datatype Response = Response(status: int, body: Body)

  /** All chunks of a stream, in arrival order. */
  function Concat(chunks: seq<string>): string
  {
    if |chunks| == 0 then "" else Concat(chunks[..|chunks| - 1]) + chunks[|chunks| - 1]
  }

  /** The `data` handlers: every chunk is appended to the text so far. */
  method Accumulate(chunks: seq<string>) returns (text: string)
    ensures text == Concat(chunks)
  {
    text := "";
    var i := 0;
    while i < |chunks|
      invariant 0 <= i <= |chunks|
      invariant text == Concat(chunks[..i])
    {
      assert chunks[..i + 1][..i] == chunks[..i];
      text := text + chunks[i];
      i := i + 1;
    }
    assert chunks[..i] == chunks;
  }

  /** JavaScript `s.substring(a, b)`: both bounds clamped to the string,
      then swapped when the first exceeds the second. */
  function JsSubstring(s: string, a: int, b: int): (r: string)
    ensures var lo := Min(Max(a, 0), |s|); var hi := Min(Max(b, 0), |s|);
      && (lo <= hi ==> |r| == hi - lo && forall k :: 0 <= k < |r| ==> r[k] == s[lo + k])
      && (hi < lo ==> |r| == lo - hi && forall k :: 0 <= k < |r| ==> r[k] == s[hi + k])
  {
    var lo := if a < 0 then 0 else if a > |s| then |s| else a;
    var hi := if b < 0 then 0 else if b > |s| then |s| else b;
    if lo <= hi then s[lo..hi] else s[hi..lo]
  }

  function Min(a: int, b: int): int { if a <= b then a else b }
  function Max(a: int, b: int): int { if a >= b then a else b }

  /** The text between the markers, or the rejection when a marker is
      missing. */
  function Extract(output: string): (r: Result<string>)
    ensures r.Err? <==> !Contains(output, StartMarker) || !Contains(output, EndMarker)
    ensures r.Err? ==> r.message == NoJsonPrefix + output
  {
    var startIndex := IndexOf(output, StartMarker);
    var endIndex := IndexOf(output, EndMarker);
    if startIndex != -1 && endIndex != -1 then Ok(JsSubstring(output, startIndex + |StartMarker|, endIndex))
    else Err(NoJsonPrefix + output)
  }

  /** When the end marker follows the start marker, exactly the characters
      between them are parsed; when it begins inside or before the start
      marker's span, `substring` swaps its bounds and the text runs from
      the end marker to the start marker's last character. */
  lemma ExtractBounds(output: string)
    requires Contains(output, StartMarker) && Contains(output, EndMarker)
    ensures var s := IndexOf(output, StartMarker); var e := IndexOf(output, EndMarker);
      && (s + 14 <= e ==> Extract(output) == Ok(output[s + 14..e]))
      && (e < s + 14 ==> Extract(output) == Ok(output[e..s + 14]))
      && (e + 12 <= s + 14 ==> StartsWith(Extract(output).value, EndMarker))
  {
    var s := IndexOf(output, StartMarker);
    var e := IndexOf(output, EndMarker);
    assert OccursAt(output, StartMarker, s) && OccursAt(output, EndMarker, e);
    var r := Extract(output).value;
    if s + 14 <= e {
      assert r == output[s + 14..e];
    } else {
      assert r == output[e..s + 14];
      if e + 12 <= s + 14 {
        assert r[..12] == output[e..e + 12];
      }
    }
  }

  /** The two markers can overlap: in "__JSON_START__JSON_END__", the start
      marker followed by the end marker less its two underscores, the first
      end marker begins inside the start marker, and the text handed to
      `JSON.parse` is the two underscores they share. */
  lemma OverlappingMarkers()
    ensures Extract(StartMarker + EndMarker[2..]) == Ok("__")
  {
    var s := StartMarker + EndMarker[2..];
    assert s[0..14] == StartMarker;
    FirstOccurrence(s, StartMarker, 0);
    assert s[12..24] == EndMarker;
    forall j | 0 <= j < 12
      ensures !OccursAt(s, EndMarker, j)
    {
      if j == 0 {
        DiffersAt(s, EndMarker, j, 7);
      } else if j == 1 || j == 6 {
        DiffersAt(s, EndMarker, j, 1);
      } else {
        DiffersAt(s, EndMarker, j, 0);
      }
    }
    FirstOccurrence(s, EndMarker, 12);
    assert s[12..14] == "__";
  }

  /** The protocol carries the payload: when nothing before the start
      marker and nothing in the payload has an underscore, the text handed
      to `JSON.parse` is exactly the payload printed between the markers. */
  lemma PayloadRoundTrip(pre: string, payload: string, post: string)
    requires '_' !in pre && '_' !in payload
    ensures Extract(pre + StartMarker + payload + EndMarker + post) == Ok(payload)
  {
    var s := pre + StartMarker + payload + EndMarker + post;
    StartFound(pre, payload, post);
    EndFound(pre, payload, post);
    PayloadBetween(pre, payload, post);
    ExtractBetween(s, |pre|, |pre| + 14 + |payload|, payload);
  }

  /** With the start marker first found at `a` and the end marker first
      found at `b`, no earlier than the start marker's end, the text between
      them is parsed. */
  lemma ExtractBetween(output: string, a: int, b: int, payload: string)
    requires 0 <= a && a + 14 <= b <= |output| && output[a + 14..b] == payload
    requires IndexOf(output, StartMarker) == a && IndexOf(output, EndMarker) == b
    ensures Extract(output) == Ok(payload)
  {
    assert JsSubstring(output, a + 14, b) == output[a + 14..b];
  }

  /** Where the payload sits in the printed text. */
  lemma PayloadBetween(pre: string, payload: string, post: string)
    ensures var s := pre + StartMarker + payload + EndMarker + post;
      s[|pre| + 14..|pre| + 14 + |payload|] == payload
  {
    var s := pre + StartMarker + payload + EndMarker + post;
    assert |StartMarker| == 14;
    assert s[|pre| + 14..|pre| + 14 + |payload|] == payload;
  }

  /** The first start marker is the one after the prefix. */
  lemma StartFound(pre: string, payload: string, post: string)
    requires '_' !in pre
    ensures IndexOf(pre + StartMarker + payload + EndMarker + post, StartMarker) == |pre|
  {
    var rest := StartMarker + payload + EndMarker + post;
    var s := pre + StartMarker + payload + EndMarker + post;
    assert s == pre + rest;
    assert s[|pre|..|pre| + 14] == StartMarker;
    forall j | 0 <= j < |pre|
      ensures !OccursAt(s, StartMarker, j)
    {
      NoMarkerInPrefix(pre, rest, j);
    }
    FirstOccurrence(s, StartMarker, |pre|);
  }

  /** The first end marker is the one after the payload. */
  lemma EndFound(pre: string, payload: string, post: string)
    requires '_' !in pre && '_' !in payload
    ensures IndexOf(pre + StartMarker + payload + EndMarker + post, EndMarker) == |pre| + 14 + |payload|
  {
    var rest := StartMarker + payload + EndMarker + post;
    var s := pre + StartMarker + payload + EndMarker + post;
    assert s == pre + rest;
    var e := |pre| + 14 + |payload|;
    assert s[e..e + 12] == EndMarker;
    forall j | 0 <= j < e
      ensures !OccursAt(s, EndMarker, j)
    {
      if j < |pre| {
        NoMarkerInPrefix(pre, rest, j);
      } else {
        OccursAfter(pre, rest, EndMarker, j);
        NoEarlyEnd(payload, post, j - |pre|);
      }
    }
    FirstOccurrence(s, EndMarker, e);
  }

  /** Neither marker begins in a prefix without underscores. */
  lemma NoMarkerInPrefix(pre: string, rest: string, j: int)
    requires '_' !in pre && 0 <= j < |pre|
    ensures !OccursAt(pre + rest, StartMarker, j) && !OccursAt(pre + rest, EndMarker, j)
  {
    assert (pre + rest)[j] == pre[j];
    assert pre[j] in pre;
    DiffersAt(pre + rest, StartMarker, j, 0);
    DiffersAt(pre + rest, EndMarker, j, 0);
  }

  /** No end marker begins inside the start marker or the payload. */
  lemma NoEarlyEnd(payload: string, post: string, k: int)
    requires '_' !in payload
    requires 0 <= k < 14 + |payload|
    ensures !OccursAt(StartMarker + payload + EndMarker + post, EndMarker, k)
  {
    if k >= 14 {
      NoEndInPayload(payload, post, k);
    } else if k >= 12 {
      NoEndAtJoin(payload, post, k);
    } else {
      NoEndInStart(payload + EndMarker + post, k);
    }
  }

  lemma NoEndInPayload(payload: string, post: string, k: int)
    requires '_' !in payload
    requires 14 <= k < 14 + |payload|
    ensures !OccursAt(StartMarker + payload + EndMarker + post, EndMarker, k)
  {
    var s := StartMarker + payload + EndMarker + post;
    assert s[k] == payload[k - 14];
    assert payload[k - 14] in payload;
    DiffersAt(s, EndMarker, k, 0);
  }

  lemma NoEndAtJoin(payload: string, post: string, k: int)
    requires '_' !in payload
    requires k == 12 || k == 13
    ensures !OccursAt(StartMarker + payload + EndMarker + post, EndMarker, k)
  {
    var s := StartMarker + payload + EndMarker + post;
    if k == 13 {
      if |payload| > 0 {
        assert s[k + 1] == payload[0];
        assert payload[0] in payload;
        DiffersAt(s, EndMarker, k, 1);
      } else {
        assert s[k + 2] == EndMarker[1];
        DiffersAt(s, EndMarker, k, 2);
      }
    } else if |payload| >= 5 {
      assert s[k + 6] == payload[4];
      assert payload[4] in payload;
      DiffersAt(s, EndMarker, k, 6);
    } else {
      var q := 2 + |payload|;
      assert s[k + q] == EndMarker[0];
      if q == 6 {
        assert s[k + 8] == EndMarker[2];
        DiffersAt(s, EndMarker, k, 8);
      } else {
        DiffersAt(s, EndMarker, k, q);
      }
    }
  }

  lemma NoEndInStart(rest: string, k: int)
    requires 0 <= k < 12
    ensures !OccursAt(StartMarker + rest, EndMarker, k)
  {
    var s := StartMarker + rest;
    assert s[k] == StartMarker[k] && s[k + 1] == StartMarker[k + 1];
    if k == 0 {
      assert s[k + 7] == StartMarker[7];
      DiffersAt(s, EndMarker, k, 7);
    } else if k == 1 || k == 6 {
      DiffersAt(s, EndMarker, k, 1);
    } else {
      DiffersAt(s, EndMarker, k, 0);
    }
  }

  /** How the promise settled. */
  datatype Settled = Resolved(value: JsonValue) | Rejected(message: string)

  /** The `close` handler and the timer: the first to settle wins. `exit`
      is the exit code, `None` when the child was killed by a signal. */
  function Settle(output: string, stderr: string, exit: Option<int>, timedOut: bool,
                  parse: string -> Result<JsonValue>): (r: Settled)
    ensures timedOut ==> r == Rejected(TimeoutMessage)
    ensures r.Resolved? ==> !timedOut && exit == Some(0) && Extract(output).Ok? && parse(Extract(output).value) == Ok(r.value)
    ensures !timedOut && exit != Some(0) ==>
      r == Rejected(ExitPrefix + (if exit.Some? then IntToString(exit.value) else "null") + ExitErrorInfix + stderr)
  {
    if timedOut then Rejected(TimeoutMessage)
    else if exit != Some(0) then
      Rejected(ExitPrefix + (if exit.Some? then IntToString(exit.value) else "null") + ExitErrorInfix + stderr)
    else
      match Extract(output)
      case Err(m) => Rejected(m)
      case Ok(text) =>
        match parse(text)
        case Ok(v) => Resolved(v)
        case Err(m) => Rejected(ParseFailurePrefix + m)
  }

  /** The envelope: a settled value without a truthy `error` is a success
      listing its expiries (none when absent); anything else is a 500 with
      the error's message. */
  function Respond(s: Settled): (r: Response)
    ensures r.status == 200 <==> r.body.Success?
    ensures r.body.Success? <==> s.Resolved? && s.value.Value? && !Truthy(s.value.error)
    ensures r.body.Success? ==> r.body.expiries == if s.value.expiries.Some? then s.value.expiries.value else []
    ensures r.body.Failure? && s.Resolved? && s.value.Value? ==> r.body.error == s.value.error.value
  {
    match s
    case Rejected(m) => Response(500, Failure(OrString(Some(m), FetchFailed)))
    case Resolved(Null) => Response(500, Failure(NullRead))
    case Resolved(Value(error, expiries)) =>
      if Truthy(error) then Response(500, Failure(error.value))
      else Response(200, Success(if expiries.Some? then expiries.value else []))
  }

  /** `GET /api/market/expiry`, from the child's output onwards. */
  method Get(stdoutChunks: seq<string>, stderrChunks: seq<string>, exit: Option<int>, timedOut: bool,
             parse: string -> Result<JsonValue>) returns (r: Response)
    ensures r == Respond(Settle(Concat(stdoutChunks), Concat(stderrChunks), exit, timedOut, parse))
  {
    var output := Accumulate(stdoutChunks);
    var stderr := Accumulate(stderrChunks);
    r := Respond(Settle(output, stderr, exit, timedOut, parse));
  }

  /** A reply is a success only when the child exited cleanly in time and
      both markers were printed. */
  lemma SuccessNeedsCleanRun(output: string, stderr: string, exit: Option<int>, timedOut: bool,
                             parse: string -> Result<JsonValue>)
    requires Respond(Settle(output, stderr, exit, timedOut, parse)).body.Success?
    ensures !timedOut && exit == Some(0)
    ensures Contains(output, StartMarker) && Contains(output, EndMarker)
  {
  }
}
