# Thumbtack webhook relay — verified model

The relay receives Thumbtack webhook events on `POST /thumbtack/webhook`,
renders them as a text message (event type, negotiation id, then the JSON
payload cut to a length budget) and forwards the text to one Telegram chat
through the Bot API's `sendMessage`. The result of that single delivery
attempt is returned to the caller as a debugging record, never raised.

This project models, as pure Dafny functions and lemmas, the three pieces of
logic in `app.py` that decide what is sent and what is reported:

- `payload.dfy` — `pretty_payload`: the serialised payload is kept whole up to
  3200 characters, otherwise cut to its first 3200 characters followed by
  `"\n…(truncated)"`.
- `webhook.dfy` — the handler body: the event type (`type`, else `eventType`,
  else `"unknown"`) and the negotiation id (first truthy of five sources) are
  extracted with Python's truthiness and short-circuit `or`; the header gets a
  `Negotiation:` line only when the id is truthy; the message is the header, a
  blank line and the truncated payload; the reply always says
  `received: true`. A lookup on a value that is not a dict raises
  `AttributeError` in Python and is an explicit `Failure` here.
- `notifier.dfy` — `send_telegram`: with the token or the chat id missing it
  reports which one without issuing any request; otherwise it issues one
  request and reports either the transport fault or the response (any status,
  body decoded or `{"raw": text}`).
- `json.dfy` — the decoded JSON value, Python truthiness, `dict.get` and `or`;
  `wrappers.dfy` — `Option` and `Result`.

Things outside the pure logic are parameters: the environment values are a
`Config` of two `Option<string>`; the HTTP call is an `Outcome` (a fault with
its description, or a status, raw text and decoded body); `json.dumps` of the
payload is the input string `serialised`; and the f-string rendering of a JSON
value (`str()`) is the function parameter `show`. The delivery function also
returns the request it issues (URL, chat id, text, 15-second timeout), so
"no request when configuration is missing" is a statement about its result.

The truncation budget is 3200 characters (app.py:54); any HTTP status is
passed through in `http_status`, not classified (app.py:41).

## Model

| member | source | states |
|---|---|---|
| Json.Truthy | app.py:90-100 | Python `bool()`: a value is falsy exactly when it is None, False, 0, 0.0, `""`, `[]` or `{}` |
| Json.Or | app.py:90-97 | Python `a or b`: the result is `a` when `a` is truthy and `b` otherwise, so it is truthy exactly when one of them is |
| Json.Get | app.py:90-96 | `dict.get`: the stored value for a present key, a falsy None for a missing one |
| Payload.PrettyPayload | app.py:53-56 | the result never exceeds 3200 + 13 characters; input of at most 3200 characters is returned unchanged; longer input gives exactly its first 3200 characters followed by the marker |
| Payload.MaxLengthValue | app.py:54-55 | the marker `"\n…(truncated)"` has 13 characters, so the bound is 3213 |
| Payload.PrettyPayloadKeepsPrefix | app.py:54-55 | for every input, the result starts with the part of the input that fits in the budget |
| Payload.PrettyPayloadIdempotent | app.py:53-56 | truncating a truncated payload again changes nothing |
| Notifier.Present | app.py:17-22 | `bool()` of an environment value: false exactly when it is unset or the empty string |
| Notifier.Configured | app.py:17 | the guard `not TELEGRAM_TOKEN or not CHAT_ID` holds exactly when either value is unset or empty |
| Notifier.SendMessageUrl | app.py:25 | the URL is `https://api.telegram.org/bot`, the token and `/sendMessage`, with the token recoverable from it |
| Notifier.SendMessageUrlInjective | app.py:25 | different tokens give different URLs |
| Notifier.ResponseBody | app.py:36-39 | the body is the decoded JSON when decoding succeeds, otherwise the dict `{"raw": text}` |
| Notifier.SendTelegram | app.py:17-41 | a request (to `.../bot<token>/sendMessage`, with the chat id, the exact text and a 15 s timeout) is issued iff both values are truthy; otherwise the missing-configuration error with the two truthiness flags; a fault gives `"Request failed: " + description`; any response passes its status and body through; exactly one of the three shapes |
| Notifier.MissingConfigIgnoresOutcome | app.py:17-23 | without configuration neither the HTTP outcome nor the text affects the result, and no request is issued |
| Notifier.DeliveryJson | app.py:18-41 | the returned dicts: `ok` (always false) appears only in the two error shapes; each shape has exactly its own keys; the error text, the `has_token`/`has_chat_id` flags, the status and the body are carried verbatim |
| Notifier.UnauthorizedIsResponse | app.py:36-41 | a 401 with a JSON error body is reported as `{http_status: 401, body}`, not as a failure |
| Webhook.DictGet | app.py:90-96 | `.get` succeeds exactly on a dict and raises `AttributeError` on anything else |
| Webhook.Lookup | app.py:90-96 | a literal is its own value; every other lookup raises on a non-dict payload; on a dict, `data.get(k)` is the stored value or None; a nested source `(data.get(p) or {}).get(k)` gives None when the parent is falsy or missing, and when the parent is truthy succeeds exactly if it is a dict, with the nested value |
| Webhook.OrChain | app.py:90-97 | the reference meaning of a Python `or` chain: a value is always that of one of the operands, and a falsy value can only be the last operand's |
| Webhook.OrChainSkipsFalsyPrefix | app.py:91-97 | in an `or` chain, operands that evaluate to falsy values are skipped |
| Webhook.OrChainFirstDecisive | app.py:91-97 | the first operand that is truthy or raises, after falsy ones, gives the chain's value |
| Webhook.OrChainAllFalsy | app.py:91-97 | when all operands are falsy the chain's value is the last operand, which is falsy |
| Webhook.EventType | app.py:90 | the event type is computed exactly when the payload is a dict, and it is always truthy |
| Webhook.EventTypeIsOrChain | app.py:90 | the event type is the `or` chain of `type`, `eventType`, `"unknown"` |
| Webhook.NegotiationId | app.py:91-97 | a non-dict payload raises |
| Webhook.NegotiationIdIsOrChain | app.py:91-97 | the negotiation id is the `or` chain of `negotiationID`, `negotiationId`, `negotiation.id`, `data.negotiationID`, `data.negotiationId` |
| Webhook.NegotiationIdPrecedence | app.py:91-97 | the first of the five sources that is truthy, after falsy ones, is the negotiation id |
| Webhook.NegotiationIdFalsyWhenNoSource | app.py:91-97 | when none of the five sources is truthy, the id is falsy |
| Webhook.NegotiationIdFailsOnlyOnNonDict | app.py:90-96 | the extraction raises only for a non-dict payload or a truthy non-dict `negotiation` or `data` |
| Webhook.Header | app.py:99-101 | the header starts with `"📩 Thumbtack webhook\nType: "` and the event type, and has the line `"\nNegotiation: " + id` appended exactly when the id is truthy |
| Webhook.Message | app.py:104 | the message is the header, a blank line and the payload text, each recoverable from it |
| Webhook.ReplyJson | app.py:107 | the reply dict has exactly `received` and `telegram`, the latter the delivery result's dict |
| Webhook.HandleWebhook | app.py:87-107 | the handler raises exactly when a field lookup raises; otherwise it replies `received: true` and its delivery is that of header + blank line + truncated payload |
| Webhook.WebhookAlwaysReceived | app.py:99-107 | for a dict payload with dict-or-falsy nested fields the handler always replies `received: true`, whatever the delivery outcome, and the sent text ends with the truncated payload |
| Webhook.LeadExample | app.py:90-101 | `{"type": "lead", "negotiationID": "abc123"}` gives the header with `Type: lead` and `Negotiation: abc123` |

## Left out

- Framework wiring: the FastAPI application, route decorators and the
  decoding of the request body (`req.json()`); a malformed body is the
  framework's error, and the model starts from the decoded value.
- The endpoints `/`, `/health`, `/test` and `/ping`: they return constants or
  call `send_telegram` with a fixed text, which `Notifier.SendTelegram`
  already covers.
- The network call itself (`requests.post`, its timeout behaviour and the
  exception classes): replaced by the `Outcome` parameter.
- `json.dumps` and its `str(data)` fallback, `repr` of the exception, and
  `response.json()`: foreign library code whose results are inputs
  (`serialised`, `Fault.desc`, `Received.parsed`).
- The f-string rendering `str()` of a JSON value: the parameter `show`.
- Reading `TELEGRAM_TOKEN` and `CHAT_ID` from the environment: the `Config`
  parameter.
- JSON numbers that are NaN or infinite (which Python's decoder accepts) are
  not representable in `Json.Json`; dict key order is not modelled, since only
  the foreign serialisation depends on it.
- Lengths are counted in Unicode code points, as Python's `len` does; byte
  lengths on the wire are not modelled.
- Strings holding a lone surrogate code point (which Python's JSON decoder
  produces from an escape such as `"\ud800"`, and which `len` counts and
  `json.dumps` copies) cannot be represented: a Dafny `char` is a Unicode
  scalar value, so such payloads are outside the model.
