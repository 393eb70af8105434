/**
 * `send_telegram`: deliver one text to the configured chat through the
 * Telegram Bot API and report what happened, without raising.
 *
 * The environment variables are an explicit `Config`, and the single HTTP
 * call is an abstract `Outcome` given as a parameter. The function also
 * returns the request it would issue, so that "no request when the
 * configuration is missing" is part of its result.
 */
module Notifier {
  import opened Wrappers
  import opened Json

  /** `TELEGRAM_TOKEN` and `CHAT_ID` as `os.getenv` returns them. */
  datatype Config = Config(token: Option<string>, chatId: Option<string>)

  /** Python's `bool(x)` for a `str | None`. */
  predicate Present(v: Option<string>)
    ensures !Present(v) <==> v in {None, Some("")}
  {
    v.Some? && v.value != ""
  }

  /** Both values are present, so a request is issued. */
  predicate Configured(config: Config)
    ensures !Configured(config) <==> config.token in {None, Some("")} || config.chatId in {None, Some("")}
  {
    Present(config.token) && Present(config.chatId)
  }

  /** The POST to `sendMessage`: its URL, its JSON body `{chat_id, text}` and its timeout. */
  datatype Request = Request(url: string, chatId: string, text: string, timeoutSeconds: nat)

  /**
   * What the HTTP call produced: a `requests.RequestException` (with its
   * `repr`), or a response with its status code, its raw text and the result
   * of `response.json()` (None when that raises).
   */
  datatype Outcome =
    | Fault(desc: string)
    | Received(status: int, text: string, parsed: Option<Json>)

  /** The three result shapes; exactly one describes each call. */
  datatype Delivery =
    | MissingConfig(error: string, hasToken: bool, hasChatId: bool)
    | RequestFailed(error: string)
    | Responded(httpStatus: int, body: Json)

  /** The request issued, if any, and the result returned. */
  datatype Attempt = Attempt(request: Option<Request>, result: Delivery)

  const MissingConfigText: string := "Missing TELEGRAM_TOKEN or CHAT_ID environment variables"
  const RequestFailedPrefix: string := "Request failed: "
  const TimeoutSeconds: nat := 15

  const ApiBase: string := "https://api.telegram.org/bot"
  const SendMessageMethod: string := "/sendMessage"

  /** The Bot API endpoint for `token`; the token can be read back from it. */
  function SendMessageUrl(token: string): (url: string)
    ensures |url| == |ApiBase| + |token| + |SendMessageMethod|
    ensures url[..|ApiBase|] == ApiBase
    ensures url[|ApiBase|..|ApiBase| + |token|] == token
    ensures url[|ApiBase| + |token|..] == SendMessageMethod
  {
    ApiBase + token + SendMessageMethod
  }

  /** Different tokens address different endpoints. */
  lemma SendMessageUrlInjective(t1: string, t2: string)
    requires SendMessageUrl(t1) == SendMessageUrl(t2)
    ensures t1 == t2
  {
  }

  /** The reported body: the decoded JSON, or `{"raw": text}` when decoding failed. */
  function ResponseBody(text: string, parsed: Option<Json>): (body: Json)
    ensures parsed.Some? ==> body == parsed.value
    ensures parsed.None? ==> body.JObj? && body.fields.Keys == {"raw"} && body.fields["raw"] == JStr(text)
  {
    match parsed
    case Some(j) => j
    case None => JObj(map["raw" := JStr(text)])
  }

  /** Attempt to send `text` under `config`, the HTTP call producing `outcome`. */
  function SendTelegram(config: Config, text: string, outcome: Outcome): (a: Attempt)
    // a request is issued exactly when both values are present, and carries the text
    ensures a.request.Some? <==> Configured(config)
    ensures a.request.Some? ==>
      a.request.value == Request(SendMessageUrl(config.token.value), config.chatId.value, text, TimeoutSeconds)
    // missing configuration: the fixed error and the truthiness of each value
    ensures a.result.MissingConfig? <==> !Configured(config)
    ensures a.result.MissingConfig? ==>
      a.result.error == MissingConfigText
      && a.result.hasToken == Present(config.token)
      && a.result.hasChatId == Present(config.chatId)
    // a transport fault is reported with its description, never retried
    ensures a.result.RequestFailed? <==> Configured(config) && outcome.Fault?
    ensures a.result.RequestFailed? ==> a.result.error == RequestFailedPrefix + outcome.desc
    // any response, whatever its status, is passed through
    ensures a.result.Responded? <==> Configured(config) && outcome.Received?
    ensures a.result.Responded? ==>
      a.result.httpStatus == outcome.status
      && a.result.body == ResponseBody(outcome.text, outcome.parsed)
  {
    if !Present(config.token) || !Present(config.chatId) then
      Attempt(None, MissingConfig(MissingConfigText, Present(config.token), Present(config.chatId)))
    else
      var request := Request(SendMessageUrl(config.token.value), config.chatId.value, text, TimeoutSeconds);
      match outcome
      case Fault(desc) => Attempt(Some(request), RequestFailed(RequestFailedPrefix + desc))
      case Received(status, raw, parsed) =>
        Attempt(Some(request), Responded(status, ResponseBody(raw, parsed)))
  }

  /**
   * Without configuration the outcome of the HTTP call is never consulted and
   * the text plays no part: every such call gives the same attempt.
   */
  lemma MissingConfigIgnoresOutcome(config: Config, text1: string, text2: string, o1: Outcome, o2: Outcome)
    requires !Configured(config)
    ensures SendTelegram(config, text1, o1) == SendTelegram(config, text2, o2)
    ensures SendTelegram(config, text1, o1).request == None
  {
  }

  /** The dict `send_telegram` returns for each result shape. */
  function DeliveryJson(d: Delivery): (j: Json)
    ensures j.JObj?
    // only the two error shapes carry `ok`, and it is always false there
    ensures "ok" in j.fields <==> !d.Responded?
    ensures "ok" in j.fields ==> j.fields["ok"] == JBool(false)
    ensures d.MissingConfig? ==> j.fields.Keys == {"ok", "error", "has_token", "has_chat_id"}
    ensures d.MissingConfig? ==>
      j.fields["error"] == JStr(d.error)
      && j.fields["has_token"] == JBool(d.hasToken)
      && j.fields["has_chat_id"] == JBool(d.hasChatId)
    ensures d.RequestFailed? ==> j.fields.Keys == {"ok", "error"}
    ensures d.RequestFailed? ==> j.fields["error"] == JStr(d.error)
    ensures d.Responded? ==> j.fields.Keys == {"http_status", "body"}
    ensures d.Responded? ==> j.fields["http_status"] == JInt(d.httpStatus) && j.fields["body"] == d.body
  {
    match d
    case MissingConfig(error, hasToken, hasChatId) =>
      JObj(map["ok" := JBool(false), "error" := JStr(error),
               "has_token" := JBool(hasToken), "has_chat_id" := JBool(hasChatId)])
    case RequestFailed(error) =>
      JObj(map["ok" := JBool(false), "error" := JStr(error)])
    case Responded(status, body) =>
      JObj(map["http_status" := JInt(status), "body" := body])
  }

  /** A 401 with a JSON error body is reported as a response, not as a failure. */
  lemma UnauthorizedIsResponse(config: Config, text: string, errorBody: Json)
    requires Configured(config)
    ensures var d := SendTelegram(config, text, Received(401, "", Some(errorBody))).result;
      d == Responded(401, errorBody) && "ok" !in DeliveryJson(d).fields
  {
  }
}
