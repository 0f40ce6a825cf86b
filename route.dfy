/** The relay endpoint (`POST` in app/api/chat/route.ts) with its network
    calls taken out: given how the upstream call ended, the single JSON
    response the handler returns. */
module Route {
  import opened Js
  import opened Http

  const TimeoutMessage := "Upstream timeout (60s). Try again."
  const ProxyFailed := "Proxy failed"
  const UnknownUpstreamError := "Unknown upstream error"
  const AbortErrorName := "AbortError"
  const SyntaxErrorName := "SyntaxError"

  /** What `JSON.parse` (and `req.json()`) make of a text: a value, or a
      thrown `SyntaxError` with its message. */
  datatype Parsed = Parsed(value: Json) | SyntaxError(message: string)

  /** How the upstream exchange ended: an exception (a network failure, the
      abort fired by the 60-second timer, a failed body read) with its
      `name` and `message`, or a response with its status and body text. */
  datatype Outcome =
    | Threw(name: string, message: string)
    | Responded(status: Status, text: string)

  /** `data`: the upstream text parsed as JSON, or `{ raw: text }` when it
      does not parse. */
  function ParseOrWrap(parse: string -> Parsed, text: string): (data: Json)
    ensures parse(text).Parsed? ==> data == parse(text).value
    ensures parse(text).SyntaxError? ==>
              data.JObj? && data.fields.Keys == {"raw"} && Get(data, "raw") == Some(JStr(text))
  {
    match parse(text)
    case Parsed(v) => v
    case SyntaxError(_) => JObj(map["raw" := JStr(text)])
  }

  /** The operands of the `detail` chain, in priority order. */
  function DetailCandidates(data: Json, text: string): seq<Option<Json>> {
    [Get(data, "detail"), Get(data, "error"), Get(data, "message"), Get(data, "raw"), Some(JStr(text))]
  }

  /** `data?.detail || data?.error || data?.message || data?.raw || text ||
      "Unknown upstream error"`: always a truthy value, taken from the body,
      the raw text or the fixed fallback. */
  function Detail(data: Json, text: string): (d: Json)
    ensures Truthy(Some(d))
    ensures d == JStr(UnknownUpstreamError) || Some(d) in DetailCandidates(data, text)
  {
    FirstTruthy(DetailCandidates(data, text), JStr(UnknownUpstreamError))
  }

  /** The template `Upstream ${upstream.status}: ${detail}`, for a detail
      that can be printed. */
  function ErrorLine(status: Status, detail: Json): (line: string)
    requires Printable(detail)
    ensures |line| > 9 && line[..9] == "Upstream "
    ensures |line| >= |ToStr(detail)| && line[|line| - |ToStr(detail)|..] == ToStr(detail)
  {
    var line := "Upstream " + NatToDecimal(status) + ": " + ToStr(detail);
    assert line[|line| - |ToStr(detail)|..] == ToStr(detail);
    line
  }

  /** The message of the catch-all handler: the fixed timeout text for an
      abort, otherwise the exception's message, otherwise `"Proxy failed"`. */
  function ExceptionMessage(name: string, message: string): (m: string)
    ensures m != ""
    ensures name == AbortErrorName ==> m == TimeoutMessage
    ensures name != AbortErrorName ==> m == (if message != "" then message else ProxyFailed)
    ensures m == TimeoutMessage <==> name == AbortErrorName || message == TimeoutMessage
  {
    if name == AbortErrorName then TimeoutMessage
    else if message != "" then message
    else ProxyFailed
  }

  /** The `catch` block: status 500 and an object whose only field is
      `error`, holding the exception's message. */
  function Caught(name: string, message: string): (r: JsonResponse)
    ensures r.status == 500 && r.body.JObj? && r.body.fields.Keys == {"error"}
    ensures r.body.fields["error"] == JStr(ExceptionMessage(name, message))
  {
    JsonResponse(500, JObj(map["error" := JStr(ExceptionMessage(name, message))]))
  }

  /** The response for an upstream outcome. A success of any 2xx status is
      sent on as status 200 with `data` unchanged; a failure keeps the
      upstream status and wraps `data` in `{ error, upstream }`, unless the
      chosen detail cannot be printed, in which case the template literal
      throws and the `catch` answers; an exception becomes status 500 with an
      object whose only field is `error`. */
  function Respond(parse: string -> Parsed, outcome: Outcome): (r: JsonResponse)
    ensures outcome.Threw? ==>
              r.status == 500 && r.body.JObj? && r.body.fields.Keys == {"error"}
              && r.body.fields["error"] == JStr(ExceptionMessage(outcome.name, outcome.message))
    ensures outcome.Responded? ==> (IsOk(r.status) <==> IsOk(outcome.status))
    ensures outcome.Responded? && IsOk(outcome.status) ==>
              r.status == 200 && r.body == ParseOrWrap(parse, outcome.text)
    ensures outcome.Responded? && !IsOk(outcome.status) ==>
              var data := ParseOrWrap(parse, outcome.text);
              var detail := Detail(data, outcome.text);
              if Printable(detail) then
                r.status == outcome.status && r.body.JObj? && r.body.fields.Keys == {"error", "upstream"}
                && r.body.fields["upstream"] == data
                && r.body.fields["error"] == JStr(ErrorLine(outcome.status, detail))
              else
                r.status == 500 && r.body.JObj? && r.body.fields.Keys == {"error"}
                && r.body.fields["error"] == JStr(ConversionErrorMessage)
  {
    match outcome
    case Threw(name, message) => Caught(name, message)
    case Responded(status, text) =>
      var data := ParseOrWrap(parse, text);
      if !IsOk(status) then
        var detail := Detail(data, text);
        if Printable(detail) then
          JsonResponse(status, JObj(map["error" := JStr(ErrorLine(status, detail)), "upstream" := data]))
        else
          Caught(TypeErrorName, ConversionErrorMessage)
      else
        JsonResponse(200, data)
  }

  /** The whole handler: the incoming body is parsed inside the `try`, so a
      malformed body is an exception like any other and is answered with its
      message (or `"Proxy failed"` when that is empty); a well-formed one is
      what `call` (the upstream POST) is given. */
  function Post(parse: string -> Parsed, requestText: string, call: Json -> Outcome): (r: JsonResponse)
    ensures parse(requestText).SyntaxError? ==>
              r.status == 500 && r.body.JObj? && r.body.fields.Keys == {"error"}
              && r.body.fields["error"] == JStr(ExceptionMessage(SyntaxErrorName, parse(requestText).message))
    ensures parse(requestText).Parsed? ==> r == Respond(parse, call(parse(requestText).value))
  {
    match parse(requestText)
    case SyntaxError(message) => Caught(SyntaxErrorName, message)
    case Parsed(body) => Respond(parse, call(body))
  }

  /** The upstream is consulted on exactly one value, the parsed request body
      as it arrived; a malformed request body never reaches the upstream. */
  lemma PostForwardsBodyUnchanged(parse: string -> Parsed, requestText: string, call1: Json -> Outcome, call2: Json -> Outcome)
    requires parse(requestText).Parsed? ==> call1(parse(requestText).value) == call2(parse(requestText).value)
    ensures Post(parse, requestText, call1) == Post(parse, requestText, call2)
  {
  }

  /** An earlier truthy field always wins the `detail` chain: the k-th
      operand is chosen exactly when it is truthy and all before it are not. */
  lemma DetailFirstTruthyWins(data: Json, text: string, k: nat)
    requires k < 5 && Truthy(DetailCandidates(data, text)[k])
    requires forall j :: 0 <= j < k ==> !Truthy(DetailCandidates(data, text)[j])
    ensures Detail(data, text) == DetailCandidates(data, text)[k].value
  {
    FirstTruthySelects(DetailCandidates(data, text), JStr(UnknownUpstreamError), k);
  }

  /** When no field and not the text is truthy, the detail is the fixed
      fallback. */
  lemma DetailFallsBackToUnknown(data: Json, text: string)
    requires forall j :: 0 <= j < 5 ==> !Truthy(DetailCandidates(data, text)[j])
    ensures Detail(data, text) == JStr(UnknownUpstreamError)
  {
    FirstTruthyFallsBack(DetailCandidates(data, text), JStr(UnknownUpstreamError));
  }

  /** For a body that is not JSON, the detail is the raw text when it is
      non-empty and the fixed fallback when it is empty. */
  lemma DetailOfNonJsonBody(parse: string -> Parsed, text: string)
    requires parse(text).SyntaxError?
    ensures Detail(ParseOrWrap(parse, text), text)
              == if text != "" then JStr(text) else JStr(UnknownUpstreamError)
  {
    var data := ParseOrWrap(parse, text);
    var cands := DetailCandidates(data, text);
    assert cands[0] == None && cands[1] == None && cands[2] == None;
    if text != "" {
      DetailFirstTruthyWins(data, text, 3);
    } else {
      DetailFallsBackToUnknown(data, text);
    }
  }

  /** The error line is `Upstream `, then the three digits of the upstream
      status, which read back as that status, then `: `, then the printed
      detail. */
  lemma ErrorLineCarriesStatus(status: Status, detail: Json)
    requires Printable(detail)
    ensures var line := ErrorLine(status, detail);
            |line| >= 14 && line[..9] == "Upstream " && line[12..14] == ": "
            && (forall i :: 9 <= i < 12 ==> IsDigit(line[i]))
            && DecimalValue(line[9..12]) == status
            && line[14..] == ToStr(detail)
  {
    var digits := NatToDecimal(status);
    ThreeDigits(status);
    DecimalRoundTrip(status);
    var line := ErrorLine(status, detail);
    assert line[9..12] == digits;
    assert line[14..] == ToStr(detail);
  }

  /** A failure body whose `detail` has its own `toString` key makes the
      template literal throw: the answer is 500, not the upstream status. */
  lemma UnprintableDetailBecomes500(parse: string -> Parsed, text: string)
    requires parse(text) == Parsed(JObj(map["detail" := JObj(map["toString" := JNum(1)])]))
    ensures Respond(parse, Responded(400, text)) == JsonResponse(500, JObj(map["error" := JStr(ConversionErrorMessage)]))
  {
    var data := JObj(map["detail" := JObj(map["toString" := JNum(1)])]);
    DetailFirstTruthyWins(data, text, 0);
  }
}
