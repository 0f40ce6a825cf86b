# Chat relay and chat panel, modelled in Dafny

A small chat widget: a browser panel collects a message, a client helper
(`sendChat`) posts it to a same-origin relay endpoint, and the relay forwards
the JSON body to a fixed upstream chat backend. A 60-second timer aborts the
upstream call if its response has not arrived; the timer is cleared as soon
as the response arrives, before its body is read, so the body read itself is
not bounded. The relay turns whatever comes back (a response, a non-JSON
body, a failure, a timeout) into one JSON response and one status. This
project models the three pieces that make decisions, with all network calls
taken out:

- `Route` (app/api/chat/route.ts): the relay's `POST` handler as a pure
  function from the upstream outcome to the JSON response. The `data`
  parse-or-wrap step, the ok/not-ok branch, the `detail` fallback chain and
  the exception-to-message mapping are modelled as written.
- `Chat` (lib/chat.ts): `sendChat` as a pure function from the relay's
  answer to `Reply(text)` or `Fail(message)`, with its own fallback chain
  (`error`, `detail`, fixed text) and the `??` extraction of
  `message.content`.
- `ChatUi` (components/chat/ChatPanel.tsx): `handleSend` as a class
  `ChatPanel` with the component state `messages`, `input` and `loading`.
  The asynchronous handler is split into `BeginSend` (guard and user message)
  and `Complete` (assistant message, `loading` lowered); `HandleSend` runs
  both around the `sendChat` call. The object invariant `Valid()` states what
  the `loading` gate guarantees: when nothing is pending, the log has even
  length and alternates user, assistant.
- `EndToEnd`: the client helper composed with the relay. It covers the
  200, non-JSON, 429 and timeout round trips, and the general statement that
  every relay failure reaches the user as a non-empty message.
- `Js` and `Http`: the JavaScript semantics the code relies on. `Js` has
  JSON values, truthiness, optional property access, `??`, the value of an
  `a || b || …` chain and `String(v)` with the values it cannot convert.
  `Http` has the status range and `Response.ok`.

`JSON.parse` (and `req.json()`) is a parameter `parse: string -> Parsed`
that returns a value or a `SyntaxError`; no JSON parser is verified. The
upstream exchange is a parameter `call: Json -> Outcome`, so the body the
relay forwards is exactly the argument `call` receives. In the end-to-end
lemmas, `serialize` stands for `JSON.stringify`, and the relay is assumed to
read back the payload the client serialised (`EndToEnd.ReadsBack`).

Two behaviours of the relay worth knowing:

- A success is returned with status 200, not with the upstream's own 2xx
  status (app/api/chat/route.ts:43). `Route.Respond` sends a 201 on as 200.
- The incoming request body is parsed inside the `try`
  (app/api/chat/route.ts:9). A malformed body is therefore answered with
  status 500 and the parse error's message, or `"Proxy failed"` when that
  message is empty (`Route.Post`).

String conversion can throw. `JSON.parse` can build an object with its own
`toString` key; that property is not callable, and the object's `valueOf`
returns the object itself, so `String(x)`, a template literal and
`new Error(x)` all throw a `TypeError` for it, also when it sits inside an
array (`Js.Printable`). The model follows this wherever the code converts:

- a failure whose chosen `detail` cannot be printed makes the template at
  app/api/chat/route.ts:37 throw inside the `try`, so the relay answers 500
  with the `TypeError`'s message instead of the upstream status
  (`Route.UnprintableDetailBecomes500`);
- in the client, an unprintable `error`/`detail` (line 22) or `content`
  (line 26) makes `sendChat` reject with that `TypeError`; an ok status then
  yields a failure, not a reply (`Chat.UnprintableContentRejects`).

"Never empty" for the client's failure message holds only under a
condition. `new Error(err)` converts a truthy `err` to a string, and a
truthy array such as `[]` prints as `""`. So `{ error: [] }` with a failing
status throws an error with an empty message
(`Chat.EmptyArrayErrorGivesEmptyMessage`). Through the relay this cannot
happen: the relay's `error` field is always a non-empty string
(`EndToEnd.RelayedFailure`).

## Model

| member | source | states |
|---|---|---|
| `Js.FirstTruthy` | app/api/chat/route.ts:34-35 | a chain of `or` operators yields one of its operands or its last operand, and it is truthy unless it is the last operand |
| `Js.FirstTruthySelects` | app/api/chat/route.ts:34-35 | the chain yields the first truthy operand: all earlier ones are falsy, later ones are never consulted |
| `Js.FirstTruthyFallsBack` | app/api/chat/route.ts:34-35 | when every operand is falsy the chain yields its last operand |
| `Js.NatToDecimal` | app/api/chat/route.ts:37 | the upstream status is printed as a non-empty string of decimal digits, one digit exactly below 10, with no leading zero |
| `Js.IntToDecimal` | lib/chat.ts:26 | `String` of an integer: a minus sign exactly for negatives, then digits without leading zero that read back as the magnitude |
| `Js.DecimalRoundTrip` | app/api/chat/route.ts:37 | the decimal form of a number, as printed in a template literal, reads back as that number |
| `Js.ToStr` | lib/chat.ts:26 | `String(v)` of a printable value: a string as it is, an object `"[object Object]"`, booleans as words, the empty array as `""` |
| `Js.OwnToStringIsUnprintable` | lib/chat.ts:26 | an object with its own `toString` key cannot be converted, alone or inside an array; another own key such as `valueOf` does not matter |
| `Js.TruthyScalarPrintsNonEmpty` | lib/chat.ts:21-22 | a printable truthy value that is not an array has a non-empty string form |
| `Js.EmptyArrayPrintsEmpty` | lib/chat.ts:21-22 | `[]` and `[null]` are truthy yet print as the empty string |
| `Route.ParseOrWrap` | app/api/chat/route.ts:25-31 | `data` is the parsed value when the text parses, and otherwise an object whose only field is `raw`, holding the text |
| `Route.Detail` | app/api/chat/route.ts:34-35 | the detail is always truthy and comes from `detail`, `error`, `message`, `raw`, the raw text or the fixed fallback |
| `Route.DetailFirstTruthyWins` | app/api/chat/route.ts:34-35 | the chain selects the k-th of `detail`, `error`, `message`, `raw`, text when it is truthy and all earlier ones are falsy |
| `Route.DetailFallsBackToUnknown` | app/api/chat/route.ts:35 | when none of the five operands is truthy the detail is `"Unknown upstream error"` |
| `Route.DetailOfNonJsonBody` | app/api/chat/route.ts:27-35 | for a non-JSON body the detail is the raw text when non-empty, else `"Unknown upstream error"` |
| `Route.ErrorLine` | app/api/chat/route.ts:37 | the error line starts with `Upstream ` and ends with the printed detail |
| `Route.ErrorLineCarriesStatus` | app/api/chat/route.ts:37 | the error line is `Upstream `, three digits that read back as the upstream status, `: `, and the printed detail |
| `Route.ExceptionMessage` | app/api/chat/route.ts:44-48 | the message is never empty; an `AbortError` gives the fixed timeout text; otherwise it is the exception's message if non-empty, else `"Proxy failed"`; the timeout text appears exactly when the name is `AbortError` or the message already is that text |
| `Route.Caught` | app/api/chat/route.ts:44-49 | the catch block answers 500 with an object whose only field is `error`, holding the exception's message |
| `Route.Respond` | app/api/chat/route.ts:23-49 | an exception gives 500 with only `error`; any 2xx gives 200 with `data` unchanged; a failure keeps the upstream status with exactly `error` (the composed line) and `upstream` (`data`), unless the detail cannot be printed, which gives 500 with the conversion error; the client-visible ok flag matches the upstream's |
| `Route.Post` | app/api/chat/route.ts:7-21 | a malformed request body gives 500 with only `error`, holding the parse error's message or `"Proxy failed"`; a well-formed one is handed to the upstream call as parsed |
| `Route.PostForwardsBodyUnchanged` | app/api/chat/route.ts:9-18 | the handler consults the upstream only on the parsed request body, and not at all for a malformed one |
| `Route.UnprintableDetailBecomes500` | app/api/chat/route.ts:37 | a 400 whose `detail` has its own `toString` key is answered with 500 and the conversion error, not with 400 |
| `Chat.ErrorMessageOf` | lib/chat.ts:22 | `new Error(v)` carries the string form of `v`, or the thrown conversion error's message when `v` cannot be printed |
| `Chat.FailureMessage` | lib/chat.ts:21-22 | with neither `error` nor `detail` truthy the message is `"Chat request failed"` |
| `Chat.ContentOf` | lib/chat.ts:26 | `data?.message?.content ?? ""` is the content when present and not `null`, and `""` when it is missing or `null`; never `null` |
| `Chat.Receive` | lib/chat.ts:13-26 | it returns a reply exactly when the status is ok and the content can be printed; the failure message is the chosen field's for a failing status and the conversion error's for an ok one; `data` is `null` when the body did not parse |
| `Chat.SendChat` | lib/chat.ts:4-27 | a rejected fetch propagates its error; a received answer gives exactly `Receive`'s result for its status and body, so a failing status never yields a reply |
| `Chat.PayloadHoldsOneUserMessage` | lib/chat.ts:5 | the request is an object with only `messages`, a one-element array whose element has only `role` = `"user"` and `content` = the given text |
| `Chat.SendChatPostsOnlyThePayload` | lib/chat.ts:5-11 | the call's result depends on the relay only through its answer to that payload |
| `Chat.UnparsedBodyIsNull` | lib/chat.ts:13-18 | an unparsable body behaves as `null`: ok gives `""`, a failure gives `"Chat request failed"` |
| `Chat.FailureMessagePriority` | lib/chat.ts:20-22 | the failure message comes from `error` if truthy, else from `detail` if truthy, else it is `"Chat request failed"` |
| `Chat.FailureMessageNonEmpty` | lib/chat.ts:21-22 | the failure message is non-empty whenever neither `error` nor `detail` is an array |
| `Chat.EmptyArrayErrorGivesEmptyMessage` | lib/chat.ts:21-22 | a failing status with `{ error: [] }` throws with an empty message |
| `Chat.ReplyOfContent` | lib/chat.ts:26 | with an ok status the reply is the string form of `message.content` when present and not `null`, `""` otherwise, and a rejection when the content cannot be printed |
| `Chat.NullishKeepsFalsyContent` | lib/chat.ts:26 | `??` keeps falsy contents: `""` stays `""`, `0` gives `"0"`, `false` gives `"false"` |
| `Chat.UnprintableContentRejects` | lib/chat.ts:26 | an ok response whose content has its own `toString` key rejects with the conversion error |
| `Chat.FailureIgnoresContent` | lib/chat.ts:20-26 | on a failing status only `error` and `detail` matter; `message.content` is never consulted |
| `EndToEnd.RelayedSuccess` | app/api/chat/route.ts:43 | an upstream 2xx reaches the user as the printed content of the parsed or `raw`-wrapped body, or as the conversion error when it cannot be printed |
| `EndToEnd.RelayedFailure` | lib/chat.ts:20-22 | every other outcome reaches the user as a failure carrying the relay's non-empty `error` string |
| `EndToEnd.RelayedHi` | app/api/chat/route.ts:43 | a 200 with `{"message":{"role":"assistant","content":"hi"}}` is passed through unchanged and the reply is `"hi"` |
| `EndToEnd.RelayedPlainText` | app/api/chat/route.ts:27-31 | a 200 with body `plain text` becomes `{"raw":"plain text"}` with status 200 and the reply is `""` |
| `EndToEnd.RelayedRateLimited` | app/api/chat/route.ts:33-39 | a 429 with `{"detail":"rate limited"}` gives 429 with `{"error":"Upstream 429: rate limited","upstream":{"detail":"rate limited"}}` and the user sees `"Upstream 429: rate limited"` |
| `EndToEnd.RelayedTimeout` | app/api/chat/route.ts:44-49 | an abort gives 500 with `{"error":"Upstream timeout (60s). Try again."}` and the user sees that text |
| `ChatUi.TrimStart` | components/chat/ChatPanel.tsx:26 | the result is a suffix of the input, everything removed is white space, and it does not start with white space |
| `ChatUi.TrimEnd` | components/chat/ChatPanel.tsx:26 | the result is a prefix of the input, everything removed is white space, and it does not end with white space |
| `ChatUi.Trim` | components/chat/ChatPanel.tsx:26 | `input.trim()` is a slice of the input, everything before and after it is white space, and it neither starts nor ends with white space |
| `ChatUi.TrimEmptyIffAllSpace` | components/chat/ChatPanel.tsx:26-27 | the trimmed input is empty exactly when the input is all white space |
| `ChatUi.AssistantContent` | components/chat/ChatPanel.tsx:37-40 | a reply is logged as it is; a failure as the warning sign and a space, followed by the error message if non-empty, else `"Error contacting server"` |
| `ChatUi.ChatPanel.Valid` | components/chat/ChatPanel.tsx:27-43 | while a request is pending the last entry is the user message it answers; when none is, the last entry (if any) is an assistant message |
| `ChatUi.ChatPanel.SendDisabled` | components/chat/ChatPanel.tsx:109 | the submit button is disabled exactly when a request is pending or the input is all white space |
| `ChatUi.ChatPanel.constructor` | components/chat/ChatPanel.tsx:14-16 | the panel starts with an empty log, an empty input and no request pending |
| `ChatUi.ChatPanel.SetInput` | components/chat/ChatPanel.tsx:105 | typing changes only the input, also while a request is pending |
| `ChatUi.ChatPanel.BeginSend` | components/chat/ChatPanel.tsx:24-32 | a send is refused, with nothing changed, exactly when the submit button is disabled (line 109); an accepted send appends one user message with the trimmed text, clears the input, sets `loading`, and returns the trimmed text as what is sent; the log keeps alternating |
| `ChatUi.ChatPanel.Complete` | components/chat/ChatPanel.tsx:34-43 | a finished call appends exactly one assistant message, the reply or the warning text, keeps the earlier entries, leaves the input alone and lowers `loading` on both paths; afterwards the log has even length and alternates |
| `ChatUi.ChatPanel.HandleSend` | components/chat/ChatPanel.tsx:24-44 | a refused send changes nothing; an accepted one passes the trimmed text to `sendChat` and appends that text as a user message and the call's outcome as an assistant message, with the input cleared and `loading` lowered |

## Left out

- Network I/O and framework plumbing: `fetch`, `NextRequest`/`NextResponse`, the `Content-Type` header and `cache: "no-store"`. The upstream exchange is the parameter `call`, and the client's POST is the parameter `post`.
- The 60-second timer, `AbortController` and `clearTimeout`: timing and cancellation. A timeout appears only as an exception named `AbortError`.
- The text of the conversion `TypeError` is V8's wording ("Cannot convert object to primitive value"); another JavaScript engine words it differently.
- JSON parsing and serialisation: `JSON.parse`, `req.json()`, `res.json()` and `JSON.stringify` are parameters. The end-to-end lemmas assume the relay reads back the payload the client serialised, and that the client's `res.json()` gives back the value the relay sent. Key order and duplicate keys in objects are not represented, since objects are maps.
- Upstream statuses outside 200..599 (HTTP calls them invalid) are not modelled: `Http.Status` covers only that range, so the upstream's status is assumed to lie in it.
- JSON numbers are integers. Fractions, `NaN`, `-0` and the exponent notation JavaScript uses for magnitudes of 10^21 and more are not modelled.
- Route.Respond: a failing upstream status for which a response may carry no body (304) would make `NextResponse.json` throw and end in a 500. The model returns the 304 envelope, because that exception and its message come from the runtime, not from this code.
- Route.ExceptionMessage: a thrown value that is not an `Error` object (a string, `null`) is not modelled. Exceptions are a name and a string message.
- Property access: `Js.Get` reads only own properties of parsed objects. Inherited properties of built-in prototypes are never named by this code.
- The panel's rendering, animation, auto-scroll, the empty-log hint and `e.preventDefault()` (components/chat/ChatPanel.tsx:19-22, 46-115): presentation only.
- ChatUi.ChatPanel.Complete requires a pending request. A completion exists only for a send that `BeginSend` accepted. Two submits that both run before React re-renders would both see the stale `loading == false`; that interleaving is outside the model.
- ChatUi.ChatPanel.HandleSend: runs the handler with nothing else touching the panel while `sendChat` is awaited; typing during the wait is covered only by calling `BeginSend`, `SetInput` and `Complete` separately.
- Repeated identical requests giving identical envelopes is not stated, because it is a claim about the upstream service. Each modelled function is deterministic in its inputs.
