/** The client helper `sendChat` (lib/chat.ts) with its `fetch` taken out:
    how it builds the request and how it turns the relay's answer into a
    reply or a thrown error. */
module Chat {
  import opened Js
  import opened Http

  const ChatRequestFailed := "Chat request failed"

  /** How a call ends: it returns the reply text or throws an `Error` with a
      message, never both. */
  datatype ChatResult = Reply(text: string) | Fail(message: string)

  /** What `fetch("/api/chat", …)` and `res.json()` deliver: a response
      status with the parsed body (`None` when the body did not parse), or a
      rejected fetch with the error's message. */
  datatype Delivery =
    | Received(status: Status, body: Option<Json>)
    | Rejected(message: string)

  /** `{ messages: [{ role: "user", content: latestUserMessage }] }`. */
  function Payload(latestUserMessage: string): Json {
    JObj(map["messages" := JArr([JObj(map["role" := JStr("user"), "content" := JStr(latestUserMessage)])])])
  }

  /** `data`: starts as `null` and is replaced only by a successful parse. */
  function DataOf(parsed: Option<Json>): Json {
    if parsed.Some? then parsed.value else JNull
  }

  /** The message `sendChat` throws with when handing `v` to `new Error`:
      the string form of `v`, or the conversion `TypeError`'s message when
      `v` cannot be printed. */
  function ErrorMessageOf(v: Json): (m: string)
    ensures Printable(v) ==> m == ToStr(v)
    ensures !Printable(v) ==> m == ConversionErrorMessage
  {
    if Printable(v) then ToStr(v) else ConversionErrorMessage
  }

  /** `data?.error || data?.detail || "Chat request failed"`, passed to
      `new Error`: the fixed text when neither field is truthy. */
  function FailureMessage(data: Json): (m: string)
    ensures !Truthy(Get(data, "error")) && !Truthy(Get(data, "detail")) ==> m == ChatRequestFailed
  {
    var err := FirstTruthy([Get(data, "error"), Get(data, "detail")], JStr(ChatRequestFailed));
    ErrorMessageOf(err)
  }

  /** `data?.message?.content ?? ""`: the content when it is present and not
      `null`, otherwise the empty string; never `null`. */
  function ContentOf(data: Json): (c: Json)
    ensures c != JNull
    ensures c == JStr("") || Some(c) == GetOpt(Get(data, "message"), "content")
    ensures var m := GetOpt(Get(data, "message"), "content");
            c == if m.None? || m.value == JNull then JStr("") else m.value
  {
    Coalesce(GetOpt(Get(data, "message"), "content"), JStr(""))
  }

  /** Everything after the fetch: a non-ok status throws; an ok one returns
      `String(content)`, which itself throws when the content cannot be
      printed. */
  function Receive(status: Status, parsed: Option<Json>): (r: ChatResult)
    ensures r.Reply? <==> IsOk(status) && Printable(ContentOf(DataOf(parsed)))
    ensures r.Fail? ==>
              r.message == if IsOk(status) then ConversionErrorMessage else FailureMessage(DataOf(parsed))
    ensures r.Reply? ==> r.text == ToStr(ContentOf(DataOf(parsed)))
  {
    var data := DataOf(parsed);
    if !IsOk(status) then Fail(FailureMessage(data))
    else
      var content := ContentOf(data);
      if Printable(content) then Reply(ToStr(content)) else Fail(ConversionErrorMessage)
  }

  /** One call of `sendChat(latestUserMessage)`, where `post` stands for the
      POST of the payload to the relay. A rejected fetch propagates its
      error; an answer is handled by `Receive`, so a failing status never
      returns a reply. */
  function SendChat(latestUserMessage: string, post: Json -> Delivery): (r: ChatResult)
    ensures post(Payload(latestUserMessage)).Rejected? ==> r == Fail(post(Payload(latestUserMessage)).message)
    ensures post(Payload(latestUserMessage)).Received? && r.Reply? ==> IsOk(post(Payload(latestUserMessage)).status)
    ensures post(Payload(latestUserMessage)).Received? ==>
              r == Receive(post(Payload(latestUserMessage)).status, post(Payload(latestUserMessage)).body)
  {
    match post(Payload(latestUserMessage))
    case Rejected(message) => Fail(message)
    case Received(status, body) => Receive(status, body)
  }

  /** The request carries exactly one message: from the user, with the text
      it was given. */
  lemma PayloadHoldsOneUserMessage(latestUserMessage: string)
    ensures var p := Payload(latestUserMessage);
            p.JObj? && p.fields.Keys == {"messages"}
            && p.fields["messages"].JArr? && |p.fields["messages"].items| == 1
            && var m := p.fields["messages"].items[0];
               m.JObj? && m.fields.Keys == {"role", "content"}
               && Get(m, "role") == Some(JStr("user")) && Get(m, "content") == Some(JStr(latestUserMessage))
  {
  }

  /** The relay is asked exactly one thing, the payload for this message:
      two relays that answer that payload alike give the same result. */
  lemma SendChatPostsOnlyThePayload(latestUserMessage: string, post1: Json -> Delivery, post2: Json -> Delivery)
    requires post1(Payload(latestUserMessage)) == post2(Payload(latestUserMessage))
    ensures SendChat(latestUserMessage, post1) == SendChat(latestUserMessage, post2)
  {
  }

  /** A body that does not parse leaves `data` at `null` and raises nothing
      itself: an ok status returns `""`, a failing one throws the fixed
      message. */
  lemma UnparsedBodyIsNull(status: Status)
    ensures Receive(status, None) == Receive(status, Some(JNull))
    ensures Receive(status, None) == if IsOk(status) then Reply("") else Fail(ChatRequestFailed)
  {
  }

  /** The failure message is chosen by `error`, then `detail`, then the fixed
      text: whichever is the first truthy one, handed to `new Error`. */
  lemma FailureMessagePriority(data: Json)
    ensures Truthy(Get(data, "error")) ==> FailureMessage(data) == ErrorMessageOf(Get(data, "error").value)
    ensures !Truthy(Get(data, "error")) && Truthy(Get(data, "detail")) ==>
              FailureMessage(data) == ErrorMessageOf(Get(data, "detail").value)
    ensures !Truthy(Get(data, "error")) && !Truthy(Get(data, "detail")) ==>
              FailureMessage(data) == ChatRequestFailed
  {
    var cands := [Get(data, "error"), Get(data, "detail")];
    if Truthy(cands[0]) {
      FirstTruthySelects(cands, JStr(ChatRequestFailed), 0);
    } else if Truthy(cands[1]) {
      FirstTruthySelects(cands, JStr(ChatRequestFailed), 1);
    }
  }

  /** The failure message is never empty unless the field that wins is an
      array, whose string form can be empty. */
  lemma FailureMessageNonEmpty(data: Json)
    requires Get(data, "error").Some? ==> !Get(data, "error").value.JArr?
    requires Get(data, "detail").Some? ==> !Get(data, "detail").value.JArr?
    ensures FailureMessage(data) != ""
  {
    FailureMessagePriority(data);
    var e := Get(data, "error");
    var d := Get(data, "detail");
    if Truthy(e) && Printable(e.value) {
      TruthyScalarPrintsNonEmpty(e.value);
    } else if !Truthy(e) && Truthy(d) && Printable(d.value) {
      TruthyScalarPrintsNonEmpty(d.value);
    }
  }

  /** `{ error: [] }` with a failing status throws an Error whose message is
      empty. */
  lemma EmptyArrayErrorGivesEmptyMessage()
    ensures Receive(400, Some(JObj(map["error" := JArr([])]))) == Fail("")
  {
    EmptyArrayPrintsEmpty();
  }

  /** With an ok status the reply is the string form of `message.content`
      when that is present and not `null`, and `""` otherwise; a content that
      cannot be printed makes the call throw instead. */
  lemma ReplyOfContent(status: Status, data: Json)
    requires IsOk(status)
    ensures var content := GetOpt(Get(data, "message"), "content");
            Receive(status, Some(data))
              == if content.None? || content.value == JNull then Reply("")
                 else if Printable(content.value) then Reply(ToStr(content.value))
                 else Fail(ConversionErrorMessage)
  {
  }

  /** `??` replaces only `null` and `undefined`: a falsy content such as
      `""`, `0` or `false` is kept and printed, not replaced. */
  lemma NullishKeepsFalsyContent()
    ensures Receive(200, Some(JObj(map["message" := JObj(map["content" := JStr("")])]))) == Reply("")
    ensures Receive(200, Some(JObj(map["message" := JObj(map["content" := JNum(0)])]))) == Reply("0")
    ensures Receive(200, Some(JObj(map["message" := JObj(map["content" := JBool(false)])]))) == Reply("false")
  {
  }

  /** An ok response whose content has its own `toString` key rejects: the
      call throws from `String(...)` instead of returning. */
  lemma UnprintableContentRejects()
    ensures Receive(200, Some(JObj(map["message" := JObj(map["content" := JObj(map["toString" := JNum(0)])])])))
              == Fail(ConversionErrorMessage)
  {
  }

  /** On a failing status `message.content` is never consulted: two bodies
      with the same `error` and `detail` fail alike. */
  lemma FailureIgnoresContent(status: Status, data1: Json, data2: Json)
    requires !IsOk(status)
    requires Get(data1, "error") == Get(data2, "error") && Get(data1, "detail") == Get(data2, "detail")
    ensures Receive(status, Some(data1)) == Receive(status, Some(data2))
  {
  }
}
