/** The client helper talking to the relay, which talks to the upstream
    backend: the whole round trip of one chat message. */
module EndToEnd {
  import opened Js
  import opened Http
  import opened Route
  import opened Chat

  /** The client's POST served by the relay. `serialize` stands for
      `JSON.stringify` of the payload, `parse` for the relay's JSON reader and
      `call` for the upstream exchange. */
  function ViaRelay(parse: string -> Parsed, serialize: Json -> string, call: Json -> Outcome): Json -> Delivery {
    payload => var r := Post(parse, serialize(payload), call); Received(r.status, Some(r.body))
  }

  /** The relay reads back exactly the payload the client serialised. */
  predicate ReadsBack(parse: string -> Parsed, serialize: Json -> string, latestUserMessage: string) {
    parse(serialize(Payload(latestUserMessage))) == Parsed(Payload(latestUserMessage))
  }

  /** An upstream success reaches the user as the reply extracted from the
      parsed (or `{ raw }`-wrapped) upstream body, unless that content cannot
      be printed. */
  lemma RelayedSuccess(parse: string -> Parsed, serialize: Json -> string, call: Json -> Outcome, latestUserMessage: string)
    requires ReadsBack(parse, serialize, latestUserMessage)
    requires call(Payload(latestUserMessage)).Responded? && IsOk(call(Payload(latestUserMessage)).status)
    ensures var content := ContentOf(ParseOrWrap(parse, call(Payload(latestUserMessage)).text));
            SendChat(latestUserMessage, ViaRelay(parse, serialize, call))
              == if Printable(content) then Reply(ToStr(content)) else Fail(ConversionErrorMessage)
  {
  }

  /** Every other outcome reaches the user as a failure whose message is the
      relay's `error` string, which is never empty: the relay's `error` field
      outranks anything the upstream body holds. */
  lemma RelayedFailure(parse: string -> Parsed, serialize: Json -> string, call: Json -> Outcome, latestUserMessage: string)
    requires ReadsBack(parse, serialize, latestUserMessage)
    requires !(call(Payload(latestUserMessage)).Responded? && IsOk(call(Payload(latestUserMessage)).status))
    ensures var r := Respond(parse, call(Payload(latestUserMessage)));
            r.body.JObj? && "error" in r.body.fields && r.body.fields["error"].JStr?
            && var e := r.body.fields["error"].s;
               e != "" && SendChat(latestUserMessage, ViaRelay(parse, serialize, call)) == Fail(e)
  {
    var r := Respond(parse, call(Payload(latestUserMessage)));
    var e := r.body.fields["error"].s;
    assert e != "";
    FirstTruthySelects([Get(r.body, "error"), Get(r.body, "detail")], JStr(ChatRequestFailed), 0);
  }

  /** `{"message":{"role":"assistant","content":"hi"}}` with status 200 is
      passed through as it is, and the user sees `"hi"`. */
  lemma RelayedHi(parse: string -> Parsed, serialize: Json -> string, call: Json -> Outcome, latestUserMessage: string, text: string)
    requires ReadsBack(parse, serialize, latestUserMessage)
    requires call(Payload(latestUserMessage)) == Responded(200, text)
    requires parse(text) == Parsed(JObj(map["message" := JObj(map["role" := JStr("assistant"), "content" := JStr("hi")])]))
    ensures Respond(parse, call(Payload(latestUserMessage)))
              == JsonResponse(200, JObj(map["message" := JObj(map["role" := JStr("assistant"), "content" := JStr("hi")])]))
    ensures SendChat(latestUserMessage, ViaRelay(parse, serialize, call)) == Reply("hi")
  {
  }

  /** A non-JSON body with status 200 is passed on as `{ raw: text }`, which
      has no `message.content`, so the user sees `""`. */
  lemma RelayedPlainText(parse: string -> Parsed, serialize: Json -> string, call: Json -> Outcome, latestUserMessage: string)
    requires ReadsBack(parse, serialize, latestUserMessage)
    requires call(Payload(latestUserMessage)) == Responded(200, "plain text")
    requires parse("plain text").SyntaxError?
    ensures Respond(parse, call(Payload(latestUserMessage))) == JsonResponse(200, JObj(map["raw" := JStr("plain text")]))
    ensures SendChat(latestUserMessage, ViaRelay(parse, serialize, call)) == Reply("")
  {
  }

  /** The relay's answer to an upstream 429 with `{"detail":"rate limited"}`:
      the upstream status, the composed error line and the upstream body. */
  lemma RateLimitedEnvelope(parse: string -> Parsed, text: string)
    requires parse(text) == Parsed(JObj(map["detail" := JStr("rate limited")]))
    ensures Respond(parse, Responded(429, text))
              == JsonResponse(429, JObj(map["error" := JStr("Upstream 429: rate limited"),
                                            "upstream" := JObj(map["detail" := JStr("rate limited")])]))
  {
    var data := JObj(map["detail" := JStr("rate limited")]);
    assert ParseOrWrap(parse, text) == data;
    DetailFirstTruthyWins(data, text, 0);
    RateLimitedLine();
  }

  /** The error line for status 429 and the detail `"rate limited"`. */
  lemma RateLimitedLine()
    ensures ErrorLine(429, JStr("rate limited")) == "Upstream 429: rate limited"
  {
    assert NatToDecimal(429) == "429" by {
      assert NatToDecimal(4) == "4";
      assert NatToDecimal(42) == "42";
    }
  }

  /** Status 429 with `{"detail":"rate limited"}` keeps its status, is wrapped
      with the composed error line, and the user sees that line. */
  lemma RelayedRateLimited(parse: string -> Parsed, serialize: Json -> string, call: Json -> Outcome, latestUserMessage: string, text: string)
    requires ReadsBack(parse, serialize, latestUserMessage)
    requires call(Payload(latestUserMessage)) == Responded(429, text)
    requires parse(text) == Parsed(JObj(map["detail" := JStr("rate limited")]))
    ensures Respond(parse, call(Payload(latestUserMessage)))
              == JsonResponse(429, JObj(map["error" := JStr("Upstream 429: rate limited"),
                                            "upstream" := JObj(map["detail" := JStr("rate limited")])]))
    ensures SendChat(latestUserMessage, ViaRelay(parse, serialize, call)) == Fail("Upstream 429: rate limited")
  {
    RateLimitedEnvelope(parse, text);
    RelayedFailure(parse, serialize, call, latestUserMessage);
  }

  /** The abort fired by the 60-second timer becomes status 500 with the
      fixed timeout message, which is what the user sees. */
  lemma RelayedTimeout(parse: string -> Parsed, serialize: Json -> string, call: Json -> Outcome, latestUserMessage: string, message: string)
    requires ReadsBack(parse, serialize, latestUserMessage)
    requires call(Payload(latestUserMessage)) == Threw(AbortErrorName, message)
    ensures Respond(parse, call(Payload(latestUserMessage))) == JsonResponse(500, JObj(map["error" := JStr(TimeoutMessage)]))
    ensures SendChat(latestUserMessage, ViaRelay(parse, serialize, call)) == Fail(TimeoutMessage)
  {
    RelayedFailure(parse, serialize, call, latestUserMessage);
  }
}
