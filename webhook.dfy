/**
 * The body of the `POST /thumbtack/webhook` handler: pick the event type and
 * the negotiation id out of the decoded payload, build the header, append the
 * truncated payload, forward the message and wrap the delivery result.
 *
 * A lookup on a value that is not a dict raises `AttributeError` in the
 * Python handler; here it is a `Failure`, and the `or` chains keep Python's
 * short-circuit order, so a lookup that is never reached never fails.
 */
module Webhook {
  import opened Wrappers
  import opened Json
  import Payload
  import Notifier

  /** `AttributeError`: `.get` was called on `receiver`, which is not a dict. */
  datatype PyError = NoGetAttribute(receiver: Json)

  /** `v.get(key)` on an arbitrary value. */
  function DictGet(v: Json, key: string): (r: Result<Json, PyError>)
    ensures r.Success? <==> v.JObj?
    ensures r.Success? ==> r.value == Get(v.fields, key)
    ensures r.Failure? ==> r.error == NoGetAttribute(v)
  {
    match v
    case JObj(fields) => Success(Get(fields, key))
    case _ => Failure(NoGetAttribute(v))
  }

  /** The value was evaluated without raising and is falsy. */
  predicate FalsyValue(r: Result<Json, PyError>)
  {
    r.Success? && !Truthy(r.value)
  }

  // ---------------------------------------------------------------------------
  // Reference definition: a Python `or` chain of lookups
  // ---------------------------------------------------------------------------

  /** One operand of an `or` chain over the payload `data`. */
  datatype Source =
    | Top(key: string)                    // data.get(key)
    | Nested(parent: string, key: string) // (data.get(parent) or {}).get(key)
    | Literal(v: Json)                    // a constant

  /** Evaluate one operand. */
  function Lookup(data: Json, src: Source): (r: Result<Json, PyError>)
    ensures src.Literal? ==> r == Success(src.v)
    ensures !src.Literal? && !data.JObj? ==> r == Failure(NoGetAttribute(data))
    ensures src.Top? && data.JObj? ==> r == Success(Get(data.fields, src.key))
    // a falsy or missing parent is read as `{}`, so the nested key is None
    ensures src.Nested? && data.JObj? && !Truthy(Get(data.fields, src.parent)) ==> r == Success(JNull)
    // a truthy parent is read as it is, and raises unless it is a dict
    ensures src.Nested? && data.JObj? && Truthy(Get(data.fields, src.parent)) ==>
      (r.Success? <==> Get(data.fields, src.parent).JObj?)
      && (r.Success? ==> r.value == Get(Get(data.fields, src.parent).fields, src.key))
  {
    match src
    case Top(key) => DictGet(data, key)
    case Nested(parent, key) =>
      (match DictGet(data, parent)
       case Failure(e) => Failure(e)
       case Success(v) => DictGet(Or(v, EmptyObject), key))
    case Literal(v) => Success(v)
  }

  /**
   * `s0 or s1 or ... or sn`: operands are evaluated left to right until one is
   * truthy; the last one is the value when none before it is; an exception
   * stops the chain.
   */
  function OrChain(data: Json, srcs: seq<Source>): (r: Result<Json, PyError>)
    requires |srcs| > 0
    // a value is always that of one of the operands
    ensures r.Success? ==> exists i :: 0 <= i < |srcs| && Lookup(data, srcs[i]) == r
    // a falsy value can only come from the last operand
    ensures FalsyValue(r) ==> r == Lookup(data, srcs[|srcs| - 1])
    decreases |srcs|
  {
    if |srcs| == 1 then Lookup(data, srcs[0])
    else
      match Lookup(data, srcs[0])
      case Failure(e) => Failure(e)
      case Success(v) => if Truthy(v) then Success(v) else OrChain(data, srcs[1..])
  }

  /** Operands that evaluate to falsy values are skipped. */
  lemma {:induction false} OrChainSkipsFalsyPrefix(data: Json, srcs: seq<Source>, i: nat)
    requires i < |srcs|
    requires forall j :: 0 <= j < i ==> FalsyValue(Lookup(data, srcs[j]))
    ensures OrChain(data, srcs) == OrChain(data, srcs[i..])
  {
    if i > 0 {
      assert FalsyValue(Lookup(data, srcs[0]));
      var rest := srcs[1..];
      forall j | 0 <= j < i - 1
        ensures FalsyValue(Lookup(data, rest[j]))
      {
        assert rest[j] == srcs[j + 1];
      }
      OrChainSkipsFalsyPrefix(data, rest, i - 1);
      assert rest[i - 1..] == srcs[i..];
    }
  }

  /**
   * The chain's value is that of its first operand that is truthy or raises,
   * provided every operand before it evaluated to a falsy value.
   */
  lemma OrChainFirstDecisive(data: Json, srcs: seq<Source>, i: nat)
    requires i < |srcs|
    requires forall j :: 0 <= j < i ==> FalsyValue(Lookup(data, srcs[j]))
    requires !FalsyValue(Lookup(data, srcs[i]))
    ensures OrChain(data, srcs) == Lookup(data, srcs[i])
  {
    OrChainSkipsFalsyPrefix(data, srcs, i);
    assert srcs[i..][0] == srcs[i];
  }

  /** When every operand is falsy, the chain evaluates to the last one, which is falsy. */
  lemma OrChainAllFalsy(data: Json, srcs: seq<Source>)
    requires |srcs| > 0
    requires forall j :: 0 <= j < |srcs| ==> FalsyValue(Lookup(data, srcs[j]))
    ensures OrChain(data, srcs) == Lookup(data, srcs[|srcs| - 1])
    ensures FalsyValue(OrChain(data, srcs))
  {
    OrChainSkipsFalsyPrefix(data, srcs, |srcs| - 1);
  }

  // ---------------------------------------------------------------------------
  // Field extraction
  // ---------------------------------------------------------------------------

  const EventTypeSources: seq<Source> := [Top("type"), Top("eventType"), Literal(JStr("unknown"))]

  const NegotiationSources: seq<Source> :=
    [Top("negotiationID"), Top("negotiationId"), Nested("negotiation", "id"),
     Nested("data", "negotiationID"), Nested("data", "negotiationId")]

  /** `data.get("type") or data.get("eventType") or "unknown"`. */
  function EventType(data: Json): (r: Result<Json, PyError>)
    ensures r.Success? <==> data.JObj?
    ensures r.Success? ==> Truthy(r.value)
  {
    match data
    case JObj(fields) => Success(Or(Or(Get(fields, "type"), Get(fields, "eventType")), JStr("unknown")))
    case _ => Failure(NoGetAttribute(data))
  }

  /** The event type is the `or` chain of its three sources. */
  lemma EventTypeIsOrChain(data: Json)
    ensures EventType(data) == OrChain(data, EventTypeSources)
  {
  }

  /**
   * The five-source chain for the negotiation id, written as the Python
   * handler writes it; `(x or {}).get(k)` raises when `x` is a truthy non-dict.
   */
  function NegotiationId(data: Json): (r: Result<Json, PyError>)
    ensures !data.JObj? ==> r == Failure(NoGetAttribute(data))
  {
    if !data.JObj? then Failure(NoGetAttribute(data)) else
      var fields := data.fields;
      var byId := Get(fields, "negotiationID");
      if Truthy(byId) then Success(byId) else
      var byIdLower := Get(fields, "negotiationId");
      if Truthy(byIdLower) then Success(byIdLower) else
      match DictGet(Or(Get(fields, "negotiation"), EmptyObject), "id")
      case Failure(e) => Failure(e)
      case Success(nested) =>
        if Truthy(nested) then Success(nested) else
        match DictGet(Or(Get(fields, "data"), EmptyObject), "negotiationID")
        case Failure(e) => Failure(e)
        case Success(inner) =>
          if Truthy(inner) then Success(inner) else
          DictGet(Or(Get(fields, "data"), EmptyObject), "negotiationId")
  }

  /** The negotiation id is the `or` chain of its five sources. */
  lemma NegotiationIdIsOrChain(data: Json)
    ensures NegotiationId(data) == OrChain(data, NegotiationSources)
  {
  }

  /**
   * Precedence: the first source that is truthy (or raises), after sources
   * that were all falsy, decides the negotiation id.
   */
  lemma NegotiationIdPrecedence(data: Json, i: nat)
    requires i < |NegotiationSources|
    requires forall j :: 0 <= j < i ==> FalsyValue(Lookup(data, NegotiationSources[j]))
    requires !FalsyValue(Lookup(data, NegotiationSources[i]))
    ensures NegotiationId(data) == Lookup(data, NegotiationSources[i])
  {
    NegotiationIdIsOrChain(data);
    OrChainFirstDecisive(data, NegotiationSources, i);
  }

  /** When no source is truthy, the negotiation id is falsy. */
  lemma NegotiationIdFalsyWhenNoSource(data: Json)
    requires forall j :: 0 <= j < |NegotiationSources| ==> FalsyValue(Lookup(data, NegotiationSources[j]))
    ensures FalsyValue(NegotiationId(data))
  {
    NegotiationIdIsOrChain(data);
    OrChainAllFalsy(data, NegotiationSources);
  }

  /** The lookups raise only on a non-dict payload or a truthy non-dict nested value. */
  lemma NegotiationIdFailsOnlyOnNonDict(data: Json)
    ensures NegotiationId(data).Failure? ==>
      !data.JObj?
      || (var n := Get(data.fields, "negotiation"); Truthy(n) && !n.JObj?)
      || (var d := Get(data.fields, "data"); Truthy(d) && !d.JObj?)
  {
  }

  // ---------------------------------------------------------------------------
  // Message composition
  // ---------------------------------------------------------------------------

  const Title: string := "📩 Thumbtack webhook\nType: "
  const NegotiationLabel: string := "\nNegotiation: "
  const Separator: string := "\n\n"

  /**
   * The header. `show` is the f-string's `str()` of a JSON value, a formatting
   * routine outside this model.
   */
  function Header(eventType: Json, negotiationId: Json, show: Json -> string): (h: string)
    ensures |Title + show(eventType)| <= |h|
    ensures h[..|Title + show(eventType)|] == Title + show(eventType)
    // the Negotiation line is present exactly when the id is truthy
    ensures |h| > |Title + show(eventType)| <==> Truthy(negotiationId)
    ensures Truthy(negotiationId) ==>
      h[|Title + show(eventType)|..] == NegotiationLabel + show(negotiationId)
  {
    var header := Title + show(eventType);
    if Truthy(negotiationId) then header + NegotiationLabel + show(negotiationId) else header
  }

  /** `f"{header}\n\n{payload_text}"`; the header and the payload can be read back. */
  function Message(header: string, payloadText: string): (m: string)
    ensures |m| == |header| + |Separator| + |payloadText|
    ensures m[..|header|] == header
    ensures m[|header|..|header| + |Separator|] == Separator
    ensures m[|header| + |Separator|..] == payloadText
  {
    header + Separator + payloadText
  }

  /** The handler's reply, `{"received": True, "telegram": tg_result}`. */
  datatype WebhookReply = WebhookReply(received: bool, telegram: Notifier.Delivery)

  function ReplyJson(reply: WebhookReply): (j: Json)
    ensures j.JObj? && j.fields.Keys == {"received", "telegram"}
    ensures j.fields["received"] == JBool(reply.received)
    ensures j.fields["telegram"] == Notifier.DeliveryJson(reply.telegram)
  {
    JObj(map["received" := JBool(reply.received), "telegram" := Notifier.DeliveryJson(reply.telegram)])
  }

  /** What one webhook call does: the request it issues, if any, and its reply. */
  datatype Handled = Handled(request: Option<Notifier.Request>, reply: WebhookReply)

  /**
   * The handler on the decoded body `data`. `serialised` is the text
   * `json.dumps` made of it, `show` the f-string formatting, `config` the
   * environment and `outcome` what the HTTP call to Telegram produced.
   */
  function HandleWebhook(data: Json, serialised: string, show: Json -> string,
                         config: Notifier.Config, outcome: Notifier.Outcome): (r: Result<Handled, PyError>)
    // the handler raises exactly when a field lookup raises
    ensures r.Failure? <==> EventType(data).Failure? || NegotiationId(data).Failure?
    ensures r.Success? ==> r.value.reply.received
    // the forwarded message is the header followed by the truncated payload
    ensures r.Success? ==>
      var msg := Message(Header(EventType(data).value, NegotiationId(data).value, show),
                         Payload.PrettyPayload(serialised));
      var attempt := Notifier.SendTelegram(config, msg, outcome);
      r.value.request == attempt.request && r.value.reply.telegram == attempt.result
  {
    match EventType(data)
    case Failure(e) => Failure(e)
    case Success(eventType) =>
      match NegotiationId(data)
      case Failure(e) => Failure(e)
      case Success(negotiationId) =>
        var header := Header(eventType, negotiationId, show);
        var msg := Message(header, Payload.PrettyPayload(serialised));
        var attempt := Notifier.SendTelegram(config, msg, outcome);
        Success(Handled(attempt.request, WebhookReply(true, attempt.result)))
  }

  /**
   * Whatever the delivery outcome, a payload that is a dict whose nested
   * `negotiation` and `data` are dicts or falsy is answered with
   * `received: true`; the text sent ends with the truncated payload.
   */
  lemma WebhookAlwaysReceived(data: Json, serialised: string, show: Json -> string,
                              config: Notifier.Config, outcome: Notifier.Outcome)
    requires data.JObj?
    requires var n := Get(data.fields, "negotiation"); !Truthy(n) || n.JObj?
    requires var d := Get(data.fields, "data"); !Truthy(d) || d.JObj?
    ensures var r := HandleWebhook(data, serialised, show, config, outcome);
      r.Success? && r.value.reply.received
      && (r.value.request.Some? ==>
            var text := r.value.request.value.text;
            var p := Payload.PrettyPayload(serialised);
            |p| <= |text| && text[|text| - |p|..] == p)
  {
    NegotiationIdFailsOnlyOnNonDict(data);
  }

  /** `{"type": "lead", "negotiationID": "abc123"}` gives `Type: lead` and `Negotiation: abc123`. */
  lemma LeadExample(show: Json -> string)
    requires forall s :: show(JStr(s)) == s
    ensures var data := JObj(map["type" := JStr("lead"), "negotiationID" := JStr("abc123")]);
      var h := Header(EventType(data).value, NegotiationId(data).value, show);
      h == "📩 Thumbtack webhook\nType: lead\nNegotiation: abc123"
  {
    var data := JObj(map["type" := JStr("lead"), "negotiationID" := JStr("abc123")]);
    assert EventType(data) == Success(JStr("lead"));
    assert NegotiationId(data) == Success(JStr("abc123"));
  }
}
