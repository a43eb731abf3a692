/**
  Properties of the `/api/transaction` handler that relate several calls of
  it, or a call of it to the request it answered.
 */
module TransactionProperties {
  import opened Wrappers
  import opened JsValues
  import opened Payload
  import opened Transaction

  /** The request body shapes used in the statements below. */
  function Body(amount: Json, temporary: Value): Json {
    JObj(Put(map["amount" := amount], "temporary_token", temporary))
  }

  /** What the client reads as the processor's body: the whole response body
      on 200, the `body` member of the error envelope otherwise. */
  function RelayedBody(r: Response): Value {
    if r.status == 200 then r.body
    else if r.body.Some? then Get(r.body.value, "body")
    else None
  }

  // ---------------------------------------------------------------------
  // Method dispatch

  /** An OPTIONS request gets 204 without a body and any other method but
      POST gets 405, whatever the body, the configuration and the network. */
  lemma MethodRulesComeFirst(verb: string, body: Json, cfg: Config,
                             network: OutboundRequest -> Exchange, parse: string -> Option<Json>)
    ensures verb == "OPTIONS" ==> Handle(verb, body, cfg, network, parse) == Response(204, None)
    ensures verb != "OPTIONS" && verb != "POST" ==>
              Handle(verb, body, cfg, network, parse) == ErrorResponse(405, MethodNotAllowed)
  {
  }

  /** A request that is not sent does not depend on the network at all: the
      processor is called only on the `Send` outcome. */
  lemma NoCallUnlessSent(verb: string, body: Json, cfg: Config,
                         n1: OutboundRequest -> Exchange, n2: OutboundRequest -> Exchange,
                         parse: string -> Option<Json>)
    requires !Prepare(verb, body, cfg).Send?
    ensures Handle(verb, body, cfg, n1, parse) == Handle(verb, body, cfg, n2, parse)
  {
  }

  /** On the `Send` outcome the client's answer is the normalised reply to
      exactly the prepared request. */
  lemma SentReplyIsFinished(verb: string, body: Json, cfg: Config,
                            network: OutboundRequest -> Exchange, parse: string -> Option<Json>)
    requires Prepare(verb, body, cfg).Send?
    requires network(Prepare(verb, body, cfg).request).Reply?
    ensures var reply := network(Prepare(verb, body, cfg).request);
            Handle(verb, body, cfg, network, parse) == Finish(reply.status, reply.text, parse)
  {
  }

  // ---------------------------------------------------------------------
  // Amount check

  /** The amount check rejects zero, strings, null and absence with 400 and
      accepts a negative number, which is forwarded unchanged. */
  lemma AmountExamples(cfg: Config, token: Json)
    requires Truthy(Some(token))
    ensures Prepare("POST", Body(JNum(0.0), Some(token)), cfg) == Early(ErrorResponse(400, AmountRequired))
    ensures Prepare("POST", Body(JStr("500"), Some(token)), cfg) == Early(ErrorResponse(400, AmountRequired))
    ensures Prepare("POST", Body(JNull, Some(token)), cfg) == Early(ErrorResponse(400, AmountRequired))
    ensures Prepare("POST", JObj(map["temporary_token" := token]), cfg) == Early(ErrorResponse(400, AmountRequired))
    ensures Prepare("POST", Body(JNum(-5.0), Some(token)), cfg).Send?
    ensures DecodePayload(Prepare("POST", Body(JNum(-5.0), Some(token)), cfg).request.payload).value.amount == -5.0
  {
    var body := Body(JNum(-5.0), Some(token));
    assert Get(body, "temporary_token") == Some(token);
    PayloadRoundTrip(Charge(ChargeType(body), -5.0, ChargeCurrency(body, cfg), TemporaryToken(token)));
  }

  // ---------------------------------------------------------------------
  // Top-level members

  /** Every sent payload is exactly the encoding of a charge, and carries the
      body's `type` (or "sale"), its amount and its `currency` (or the
      configured default), unchanged. */
  lemma TopLevelCopied(body: Json, cfg: Config)
    requires Prepare("POST", body, cfg).Send?
    ensures var charge := DecodePayload(Prepare("POST", body, cfg).request.payload);
            && charge.Some?
            && Prepare("POST", body, cfg).request.payload == EncodePayload(charge.value)
            && charge.value.kind == (if Get(body, "type").Some? then Get(body, "type").value else JStr("sale"))
            && Some(JNum(charge.value.amount)) == Get(body, "amount")
            && charge.value.currency ==
                 (if Get(body, "currency").Some? then Get(body, "currency").value else JStr(DefaultCurrency(cfg)))
  {
    var s := SelectPayment(body, cfg);
    var charge := Charge(ChargeType(body), Get(body, "amount").value.n, ChargeCurrency(body, cfg), s.payment);
    PayloadRoundTrip(charge);
  }

  /** For a body without `currency`, a sent payload's currency is CURRENCY,
      or "USD" when CURRENCY is unset or empty; the request goes to
      IQPRO_API_URL, or to the sandbox host when that is unset or empty. */
  lemma ConfigurationDefaults(body: Json, cfg: Config)
    requires Prepare("POST", body, cfg).Send?
    requires Get(body, "currency").None?
    ensures var request := Prepare("POST", body, cfg).request;
            && (!IsSet(cfg.currency) ==> request.payload.fields["currency"] == JStr("USD"))
            && (IsSet(cfg.currency) ==> request.payload.fields["currency"] == JStr(cfg.currency.value))
            && (!IsSet(cfg.apiUrl) ==> request.url == "https://sandbox.basysiqpro.com/api/transactions")
            && (IsSet(cfg.apiUrl) ==> request.url == cfg.apiUrl.value + "/api/transactions")
  {
    SentCurrency(body, cfg);
    assert Prepare("POST", body, cfg).request.url == ApiBase(cfg) + TransactionsPath;
    SandboxUrl();
  }

  /** The default API base followed by the transactions path, spelled out. */
  lemma SandboxUrl()
    ensures DefaultApiBase + TransactionsPath == "https://sandbox.basysiqpro.com/api/transactions"
  {
  }

  /** The currency member of a sent payload is the one `TopLevelCopied` reads back. */
  lemma SentCurrency(body: Json, cfg: Config)
    requires Prepare("POST", body, cfg).Send?
    requires Get(body, "currency").None?
    ensures Get(Prepare("POST", body, cfg).request.payload, "currency") == Some(JStr(DefaultCurrency(cfg)))
  {
    var payload := Prepare("POST", body, cfg).request.payload;
    TopLevelCopied(body, cfg);
    assert Get(payload, "currency") == Some(DecodePayload(payload).value.currency);
  }

  // ---------------------------------------------------------------------
  // Payment-method selection

  /** A truthy `temporary_token` is forwarded as the only payment-method
      member, for every configuration (APPLEPAY_KEY_ID unset included) and
      whatever Apple Pay token the body also carries. */
  lemma TemporaryTokenWins(body: Json, cfg: Config)
    requires AmountAccepted(Get(body, "amount"))
    requires Truthy(Get(body, "temporary_token"))
    ensures Prepare("POST", body, cfg).Send?
    ensures var payload := Prepare("POST", body, cfg).request.payload;
            payload.fields["payment_method"] == JObj(map["temporary_token" := Get(body, "temporary_token").value])
  {
  }

  /** Without a truthy temporary token, an unset or empty APPLEPAY_KEY_ID is a
      400, decided before any token is looked at. */
  lemma MissingKeyIdRejects(body: Json, cfg: Config)
    requires AmountAccepted(Get(body, "amount"))
    requires !Truthy(Get(body, "temporary_token"))
    requires !IsSet(cfg.applePayKeyId)
    ensures Prepare("POST", body, cfg) == Early(ErrorResponse(400, MissingApplePay))
  {
  }

  /** A truthy `appleToken` is used even when it lacks `paymentData`: there is
      no fallback to `authorizationEvent.payment.token`, and the request is a 400. */
  lemma AppleTokenHasNoFallback(body: Json, cfg: Config)
    requires AmountAccepted(Get(body, "amount"))
    requires !Truthy(Get(body, "temporary_token"))
    requires Truthy(Get(body, "appleToken")) && !Truthy(OptGet(Get(body, "appleToken"), "paymentData"))
    ensures Prepare("POST", body, cfg) == Early(ErrorResponse(400, MissingApplePay))
  {
  }

  /** Whichever token is chosen, `appleToken` or the legacy
      `authorizationEvent.payment.token`, one without `paymentData` gives the
      400 and nothing is sent. */
  lemma TokenWithoutPaymentDataRejects(body: Json, cfg: Config)
    requires AmountAccepted(Get(body, "amount"))
    requires !Truthy(Get(body, "temporary_token")) && IsSet(cfg.applePayKeyId)
    requires !Truthy(OptGet(AppleToken(body), "paymentData"))
    ensures Prepare("POST", body, cfg) == Early(ErrorResponse(400, MissingApplePay))
  {
  }

  /** Past the checks, with a `header` to read, the request is sent; its
      payload carries APPLEPAY_KEY_ID as `key_id` and the members read from
      the chosen token, and nothing else under `payment_method`: the members
      of `pkpaymenttoken` and of the objects inside it are those
      `EncodeToken` lists. */
  lemma ApplePayloadMapping(body: Json, cfg: Config)
    requires AmountAccepted(Get(body, "amount"))
    requires !Truthy(Get(body, "temporary_token")) && IsSet(cfg.applePayKeyId)
    requires Truthy(OptGet(AppleToken(body), "paymentData"))
    requires !Nullish(Chain(AppleToken(body), ["paymentData", "header"]))
    ensures Prepare("POST", body, cfg).Send?
    ensures ReadToken(AppleToken(body)).Success?
    ensures var charge := DecodePayload(Prepare("POST", body, cfg).request.payload);
            charge.Some? && charge.value.payment == ApplePayToken(cfg.applePayKeyId.value, ReadToken(AppleToken(body)).value)
    ensures var applePay := Prepare("POST", body, cfg).request.payload.fields["payment_method"];
            && applePay.fields.Keys == {"apple_pay_token"}
            && applePay.fields["apple_pay_token"].JObj?
            && applePay.fields["apple_pay_token"].fields.Keys == {"key_id", "pkpaymenttoken"}
            && applePay.fields["apple_pay_token"].fields["key_id"] == JStr(cfg.applePayKeyId.value)
            && applePay.fields["apple_pay_token"].fields["pkpaymenttoken"] == EncodeToken(ReadToken(AppleToken(body)).value)
  {
    var selection := SelectPayment(body, cfg);
    assert selection.Selected? && selection.payment.ApplePayToken?;
    assert ReadToken(AppleToken(body)) == Success(selection.payment.fields);
    var charge := Charge(ChargeType(body), Get(body, "amount").value.n, ChargeCurrency(body, cfg), selection.payment);
    assert Prepare("POST", body, cfg).request.payload == EncodePayload(charge);
    PayloadRoundTrip(charge);
  }

  /** A chosen token whose `paymentData` has no `header` makes the handler
      throw on reading `publicKeyHash`, before any request is built. */
  lemma HeaderlessTokenThrows(body: Json, cfg: Config)
    requires AmountAccepted(Get(body, "amount"))
    requires !Truthy(Get(body, "temporary_token")) && IsSet(cfg.applePayKeyId)
    requires Truthy(OptGet(AppleToken(body), "paymentData"))
    requires Nullish(Chain(AppleToken(body), ["paymentData", "header"]))
    ensures Prepare("POST", body, cfg)
            == Raise(CannotRead(Chain(AppleToken(body), ["paymentData", "header"]) == Some(JNull), "publicKeyHash"))
  {
    var header := Chain(AppleToken(body), ["paymentData", "header"]);
    assert ReadToken(AppleToken(body)) == Failure(CannotRead(header == Some(JNull), "publicKeyHash"));
  }

  /** For the same tokens the client gets a 500 carrying the TypeError's
      message, and the processor is not called. */
  lemma HeaderlessTokenIsInternalError(body: Json, cfg: Config,
                                       network: OutboundRequest -> Exchange, parse: string -> Option<Json>)
    requires AmountAccepted(Get(body, "amount"))
    requires !Truthy(Get(body, "temporary_token")) && IsSet(cfg.applePayKeyId)
    requires Truthy(OptGet(AppleToken(body), "paymentData"))
    requires Nullish(Chain(AppleToken(body), ["paymentData", "header"]))
    ensures Handle("POST", body, cfg, network, parse).status == 500
    ensures var wording := if Chain(AppleToken(body), ["paymentData", "header"]) == Some(JNull) then "null" else "undefined";
            Handle("POST", body, cfg, network, parse).body
            == Some(JObj(map["error" := JStr("Cannot read properties of " + wording + " (reading 'publicKeyHash')")]))
  {
    var header := Chain(AppleToken(body), ["paymentData", "header"]);
    var e := CannotRead(header == Some(JNull), "publicKeyHash");
    HeaderlessTokenThrows(body, cfg);
    assert Handle("POST", body, cfg, network, parse) == Caught(e);
    HeaderReadMessage(header == Some(JNull));
    assert Caught(e) == ErrorResponse(500, Message(e));
  }

  /** The V8 wording of the TypeError thrown by reading `publicKeyHash`. */
  lemma HeaderReadMessage(onNull: bool)
    ensures Message(CannotRead(onNull, "publicKeyHash"))
            == "Cannot read properties of " + (if onNull then "null" else "undefined") + " (reading 'publicKeyHash')"
  {
  }

  /** A rejected fetch reaches the client as a 500 carrying the rejection's
      message, or "Internal error" when that message is empty. */
  lemma UnreachableProcessorIsInternalError(body: Json, cfg: Config, message: string,
                                            network: OutboundRequest -> Exchange, parse: string -> Option<Json>)
    requires Prepare("POST", body, cfg).Send?
    requires network(Prepare("POST", body, cfg).request) == Unreachable(message)
    ensures Handle("POST", body, cfg, network, parse).status == 500
    ensures Handle("POST", body, cfg, network, parse).body
            == Some(JObj(map["error" := JStr(if message == "" then "Internal error" else message)]))
  {
  }

  // ---------------------------------------------------------------------
  // Configuration

  /** IQPRO_API_KEY never influences the decision: two configurations that
      differ only in it prepare the same outcome, up to the Authorization value. */
  lemma ApiKeyNeverChecked(verb: string, body: Json, c1: Config, c2: Config)
    requires c1.(apiKey := None) == c2.(apiKey := None)
    ensures Prepare(verb, body, c1).Send? <==> Prepare(verb, body, c2).Send?
    ensures !Prepare(verb, body, c1).Send? ==> Prepare(verb, body, c1) == Prepare(verb, body, c2)
    ensures Prepare(verb, body, c1).Send? ==>
              Prepare(verb, body, c1).request.(authorization := c2.apiKey) == Prepare(verb, body, c2).request
  {
    assert ApiBase(c1) == ApiBase(c2) && DefaultCurrency(c1) == DefaultCurrency(c2);
    assert SelectPayment(body, c1) == SelectPayment(body, c2);
  }

  // ---------------------------------------------------------------------
  // Body members

  /** The handler reads six members of the body and nothing else: two bodies
      that agree on them get the same outcome. */
  lemma OnlyReadMembersMatter(verb: string, b1: Json, b2: Json, cfg: Config)
    requires Get(b1, "amount") == Get(b2, "amount")
    requires Get(b1, "type") == Get(b2, "type")
    requires Get(b1, "currency") == Get(b2, "currency")
    requires Get(b1, "temporary_token") == Get(b2, "temporary_token")
    requires Get(b1, "appleToken") == Get(b2, "appleToken")
    requires Get(b1, "authorizationEvent") == Get(b2, "authorizationEvent")
    ensures Prepare(verb, b1, cfg) == Prepare(verb, b2, cfg)
  {
    assert AppleToken(b1) == AppleToken(b2);
    assert SelectPayment(b1, cfg) == SelectPayment(b2, cfg);
  }

  /** `apple_pay_temporary_token` is not one of the members the handler
      reads: adding it to a body changes nothing. */
  lemma ApplePayTemporaryTokenIgnored(verb: string, fields: map<string, Json>, token: Json, cfg: Config)
    ensures Prepare(verb, JObj(fields["apple_pay_temporary_token" := token]), cfg)
            == Prepare(verb, JObj(fields - {"apple_pay_temporary_token"}), cfg)
  {
    OnlyReadMembersMatter(verb, JObj(fields["apple_pay_temporary_token" := token]),
                          JObj(fields - {"apple_pay_temporary_token"}), cfg);
  }

  /** The body the browser widget posts after tokenizing:
      `{ type: "authorize", amount, apple_pay_temporary_token }`. */
  function WidgetBody(amount: Json, token: Json): Json {
    JObj(map["type" := JStr("authorize"), "amount" := amount, "apple_pay_temporary_token" := token])
  }

  /** The widget's temporary token is never forwarded: its request always ends
      in a 400 (bad amount, unset APPLEPAY_KEY_ID, or no Apple Pay token), for
      every amount, token, configuration and network. */
  lemma WidgetRequestRejected(amount: Json, token: Json, cfg: Config,
                              network: OutboundRequest -> Exchange, parse: string -> Option<Json>)
    ensures Prepare("POST", WidgetBody(amount, token), cfg).Early?
    ensures Handle("POST", WidgetBody(amount, token), cfg, network, parse).status == 400
  {
    var body := WidgetBody(amount, token);
    assert Get(body, "temporary_token") == None;
    assert Get(body, "appleToken") == None;
    assert Get(body, "authorizationEvent") == None;
    assert Chain(Some(body), LegacyTokenPath[..1]) == None;
    ChainShortCircuits(Some(body), LegacyTokenPath, 1);
  }

  // ---------------------------------------------------------------------
  // Response normalisation

  /** The client can always read the processor's body back, parsed or as
      `{ raw: text }`, and sees the processor's status unless it is 2xx. */
  lemma ProcessorReplyRecoverable(status: int, text: string, parse: string -> Option<Json>)
    ensures RelayedBody(Finish(status, text, parse)) == Some(ProcessorBody(text, parse))
    ensures parse(text).None? ==> ProcessorBody(text, parse) == JObj(map["raw" := JStr(text)])
    ensures parse(text).Some? ==> ProcessorBody(text, parse) == parse(text).value
    ensures Finish(status, text, parse).status == (if 200 <= status <= 299 then 200 else status)
  {
  }

  /** A 402 decline is mirrored with its parsed body inside the error envelope;
      a 201 is reported as 200 with the processor's body as is. */
  lemma StatusExamples(text: string, parse: string -> Option<Json>)
    requires parse(text) == Some(JObj(map["declined" := JBool(true)]))
    ensures Finish(402, text, parse).status == 402
    ensures Get(Finish(402, text, parse).body.value, "body") == Some(JObj(map["declined" := JBool(true)]))
    ensures Finish(201, text, parse) == Response(200, Some(JObj(map["declined" := JBool(true)])))
  {
  }
}
