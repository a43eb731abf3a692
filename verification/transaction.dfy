/**
  The `/api/transaction` handler: method dispatch, the amount check and the
  top-level defaults, the choice between a temporary token and an Apple Pay
  token, the payload for the IQPro transactions endpoint, and the mapping of
  the processor's reply back to the client.

  The handler is split at its one outbound call. `Prepare` decides, from the
  method, the decoded body and the configuration, whether to answer at once
  or what to send; `Finish` turns the processor's status and body text into
  the client's response; `Handle` runs both around a network function.
 */
module Transaction {
  import opened Wrappers
  import opened JsValues
  import opened Payload

  /** The process environment the handler reads; `None` is an unset variable. */
  datatype Config = Config(
    apiUrl: Option<string>,         // IQPRO_API_URL
    apiKey: Option<string>,         // IQPRO_API_KEY
    applePayKeyId: Option<string>,  // APPLEPAY_KEY_ID
    currency: Option<string>)       // CURRENCY

  const DefaultApiBase := "https://sandbox.basysiqpro.com"
  const TransactionsPath := "/api/transactions"
  const DefaultCurrencyCode := "USD"
  const DefaultType := "sale"

  const MethodNotAllowed := "Method not allowed"
  const AmountRequired := "amount (integer cents) is required"
  const MissingApplePay := "Missing Apple Pay token or APPLEPAY_KEY_ID"
  const GatewayError := "IQPro error"
  const InternalError := "Internal error"

  /** Where the handler looks for an Apple Pay token when `appleToken` is falsy. */
  const LegacyTokenPath := ["authorizationEvent", "payment", "token"]

  /** JavaScript truthiness of an environment variable: set and non-empty. */
  predicate IsSet(v: Option<string>) {
    v.Some? && v.value != ""
  }

  /** `process.env.IQPRO_API_URL || "https://sandbox.basysiqpro.com"` */
  function ApiBase(cfg: Config): string {
    if IsSet(cfg.apiUrl) then cfg.apiUrl.value else DefaultApiBase
  }

  /** `process.env.CURRENCY || "USD"` */
  function DefaultCurrency(cfg: Config): string {
    if IsSet(cfg.currency) then cfg.currency.value else DefaultCurrencyCode
  }

  /** A response to the client; `body == None` is a response without a body. */
  datatype Response = Response(status: int, body: Option<Json>)

  /** `{ error: message }` with the given status. */
  function ErrorResponse(status: int, message: string): (r: Response)
    ensures r.status == status
    ensures r.body.Some? && r.body.value.JObj? && r.body.value.fields.Keys == {"error"}
    ensures r.body.value.fields["error"] == JStr(message)
  {
    Response(status, Some(JObj(map["error" := JStr(message)])))
  }

  /** The single POST to the processor. `authorization` is the raw value of
      IQPRO_API_KEY, without any scheme prefix, and is `None` when it is unset. */
  datatype OutboundRequest = OutboundRequest(url: string, authorization: Option<string>, contentType: string, payload: Json)

  /** What the handler does before any network traffic. */
  datatype Step =
    | Early(response: Response)      // answered without calling the processor
    | Send(request: OutboundRequest)  // the request to send to the processor
    | Raise(error: Thrown)           // an exception thrown inside the `try` block

  /** How the payment method was settled on the POST path. */
  datatype Selection =
    | Selected(payment: PaymentMethod)
    | Refused          // no APPLEPAY_KEY_ID, or no usable Apple Pay token
    | Threw(error: Thrown)

  /** The amount check passes: `!(!amount || typeof amount !== "number")`. */
  predicate AmountAccepted(amount: Value)
    ensures AmountAccepted(amount) <==> amount.Some? && amount.value.JNum? && amount.value.n != 0.0
  {
    Truthy(amount) && TypeOf(amount) == "number"
  }

  /** The destructured `type`, defaulting to "sale" when undefined. */
  function ChargeType(body: Json): Json {
    Default(Get(body, "type"), JStr(DefaultType))
  }

  /** The destructured `currency`, defaulting to the configured currency when undefined. */
  function ChargeCurrency(body: Json, cfg: Config): Json {
    Default(Get(body, "currency"), JStr(DefaultCurrency(cfg)))
  }

  /** `body?.appleToken || body?.authorizationEvent?.payment?.token` */
  function AppleToken(body: Json): (token: Value)
    ensures Truthy(Get(body, "appleToken")) ==> token == Get(body, "appleToken")
    ensures !Truthy(Get(body, "appleToken")) ==> token == Chain(Get(body, "authorizationEvent"), ["payment", "token"])
    ensures !Truthy(Get(body, "appleToken")) && Nullish(OptGet(Get(body, "authorizationEvent"), "payment")) ==> token == None
  {
    Or(OptGet(Some(body), "appleToken"), Chain(Some(body), LegacyTokenPath))
  }

  /** The reads of the token when the payload is built. Each member is the
      one the optional chain of the same path would read; a null or undefined
      `header` throws on its first member. Of the plain reads in the source
      only the first on each receiver can throw, so the later ones are written
      as `?.` reads, which yield the same values. */
  function ReadToken(token: Value): (r: Result<TokenFields, Thrown>)
    ensures Truthy(OptGet(token, "paymentData")) ==>
              (r.Failure? <==> Nullish(Chain(token, ["paymentData", "header"])))
    ensures r.Failure? && Truthy(OptGet(token, "paymentData")) ==>
              r.error == CannotRead(Chain(token, ["paymentData", "header"]) == Some(JNull), "publicKeyHash")
    ensures r.Success? ==>
              && r.value.data == Chain(token, ["paymentData", "data"])
              && r.value.signature == Chain(token, ["paymentData", "signature"])
              && r.value.publicKeyHash == Chain(token, ["paymentData", "header", "publicKeyHash"])
              && r.value.ephemeralPublicKey == Chain(token, ["paymentData", "header", "ephemeralPublicKey"])
              && r.value.transactionId == Chain(token, ["paymentData", "header", "transactionId"])
              && r.value.version == Chain(token, ["paymentData", "version"])
              && r.value.displayName == Coalesce(Chain(token, ["paymentMethod", "displayName"]), JNull)
              && r.value.network == Coalesce(Chain(token, ["paymentMethod", "network"]), JNull)
              && r.value.cardType == Coalesce(Chain(token, ["paymentMethod", "type"]), JNull)
              && r.value.transactionIdentifier == Chain(token, ["transactionIdentifier"])
  {
    var paymentData :- Read(token, "paymentData");
    var data :- Read(paymentData, "data");
    var header := OptGet(paymentData, "header");
    var publicKeyHash :- Read(header, "publicKeyHash");
    var paymentMethod := OptGet(token, "paymentMethod");
    Success(TokenFields(
      data,
      OptGet(paymentData, "signature"),
      publicKeyHash,
      OptGet(header, "ephemeralPublicKey"),
      OptGet(header, "transactionId"),
      OptGet(paymentData, "version"),
      Coalesce(OptGet(paymentMethod, "displayName"), JNull),
      Coalesce(OptGet(paymentMethod, "network"), JNull),
      Coalesce(OptGet(paymentMethod, "type"), JNull),
      OptGet(token, "transactionIdentifier")))
  }

  /** The branch on `body?.temporary_token`, and on the Apple Pay side the key
      check, the token lookup, the `paymentData` check and the token reads. */
  function SelectPayment(body: Json, cfg: Config): (r: Selection)
    ensures Truthy(Get(body, "temporary_token")) ==> r == Selected(TemporaryToken(Get(body, "temporary_token").value))
    ensures r.Selected? && r.payment.ApplePayToken? ==>
              && !Truthy(Get(body, "temporary_token"))
              && IsSet(cfg.applePayKeyId) && r.payment.keyId == cfg.applePayKeyId.value
              && Truthy(OptGet(AppleToken(body), "paymentData"))
    ensures r.Refused? <==>
              !Truthy(Get(body, "temporary_token"))
              && (!IsSet(cfg.applePayKeyId) || !Truthy(OptGet(AppleToken(body), "paymentData")))
  {
    var temporary := OptGet(Some(body), "temporary_token");
    if Truthy(temporary) then
      Selected(TemporaryToken(temporary.value))
    else if !IsSet(cfg.applePayKeyId) then
      Refused
    else
      var token := AppleToken(body);
      if !Truthy(OptGet(token, "paymentData")) then
        Refused
      else
        match ReadToken(token)
        case Failure(e) => Threw(e)
        case Success(f) => Selected(ApplePayToken(cfg.applePayKeyId.value, f))
  }

  /** Everything the handler does before the outbound call. */
  function Prepare(verb: string, body: Json, cfg: Config): (s: Step)
    ensures verb == "OPTIONS" ==> s == Early(Response(204, None))
    ensures verb != "OPTIONS" && verb != "POST" ==> s == Early(ErrorResponse(405, MethodNotAllowed))
    ensures verb == "POST" ==>
              (s == Early(ErrorResponse(400, AmountRequired)) <==> !AmountAccepted(Get(body, "amount")))
    ensures verb == "POST" && s.Early? ==> s.response.status == 400
    ensures s.Send? ==>
              && verb == "POST" && AmountAccepted(Get(body, "amount"))
              && s.request.url == ApiBase(cfg) + TransactionsPath
              && s.request.authorization == cfg.apiKey
              && s.request.contentType == "application/json"
    ensures s.Raise? ==> verb == "POST" && s.error.CannotRead? && s.error.key == "publicKeyHash"
    ensures verb == "POST" && AmountAccepted(Get(body, "amount")) ==>
              && (SelectPayment(body, cfg).Refused? <==> s == Early(ErrorResponse(400, MissingApplePay)))
              && (SelectPayment(body, cfg).Threw? <==> s.Raise?)
              && (SelectPayment(body, cfg).Selected? <==> s.Send?)
    ensures s.Send? ==> s.request.payload.JObj? && s.request.payload.fields.Keys == {"type", "amount", "currency", "payment_method"}
  {
    if verb == "OPTIONS" then
      Early(Response(204, None))
    else if verb != "POST" then
      Early(ErrorResponse(405, MethodNotAllowed))
    else
      // `body || {}` changes nothing here: reads from null find no members either
      var amount := Get(body, "amount");
      if !AmountAccepted(amount) then
        Early(ErrorResponse(400, AmountRequired))
      else
        match SelectPayment(body, cfg)
        case Refused => Early(ErrorResponse(400, MissingApplePay))
        case Threw(e) => Raise(e)
        case Selected(payment) =>
          var charge := Charge(ChargeType(body), amount.value.n, ChargeCurrency(body, cfg), payment);
          Send(OutboundRequest(ApiBase(cfg) + TransactionsPath, cfg.apiKey, "application/json", EncodePayload(charge)))
  }

  /** `resp.ok`: a status in the 2xx range. */
  predicate IsOk(status: int) {
    200 <= status <= 299
  }

  /** The processor's reply as the handler reads it: the parsed JSON, or
      `{ raw: text }` when the text does not parse. */
  function ProcessorBody(text: string, parse: string -> Option<Json>): (r: Json)
    ensures parse(text).Some? ==> Some(r) == parse(text)
    ensures parse(text).None? ==> r.JObj? && r.fields.Keys == {"raw"} && r.fields["raw"] == JStr(text)
  {
    match parse(text)
    case Some(j) => j
    case None => JObj(map["raw" := JStr(text)])
  }

  /** The client response for the processor's status and body text. A 2xx
      reply becomes 200 with the processor's body; any other status is kept
      and the body wrapped with the status in an error envelope. */
  function Finish(status: int, text: string, parse: string -> Option<Json>): (r: Response)
    ensures r.status == 200 <==> IsOk(status)
    ensures !IsOk(status) ==> r.status == status
    ensures !IsOk(status) ==> r.body.Some? && r.body.value.JObj? && r.body.value.fields.Keys == {"error", "status", "body"}
    ensures IsOk(status) ==> r.body == Some(ProcessorBody(text, parse))
    ensures !IsOk(status) ==> r.body.value.fields["body"] == ProcessorBody(text, parse)
                              && r.body.value.fields["status"] == JNum(status as real)
                              && r.body.value.fields["error"] == JStr(GatewayError)
  {
    var json := ProcessorBody(text, parse);
    if !IsOk(status) then
      Response(status, Some(JObj(map["error" := JStr(GatewayError), "status" := JNum(status as real), "body" := json])))
    else
      Response(200, Some(json))
  }

  /** The `catch` block: status 500 with the error's message, or "Internal error" when it is empty. */
  function Caught(e: Thrown): (r: Response)
    ensures r.status == 500
    ensures r.body.Some? && r.body.value.JObj? && r.body.value.fields.Keys == {"error"}
    ensures Message(e) != "" ==> r.body.value.fields["error"] == JStr(Message(e))
    ensures Message(e) == "" ==> r.body.value.fields["error"] == JStr("Internal error")
  {
    var message := Message(e);
    ErrorResponse(500, if message != "" then message else InternalError)
  }

  /** The outcome of the outbound call: a reply, or a rejected `fetch` or body read. */
  datatype Exchange =
    | Reply(status: int, text: string)
    | Unreachable(message: string)

  /** The whole handler, with the network and `JSON.parse` of the reply as parameters. */
  function Handle(verb: string, body: Json, cfg: Config,
                  network: OutboundRequest -> Exchange, parse: string -> Option<Json>): (r: Response)
    ensures Prepare(verb, body, cfg).Early? ==> r == Prepare(verb, body, cfg).response
    ensures Prepare(verb, body, cfg).Raise? ==> r.status == 500
    ensures Prepare(verb, body, cfg).Send? && network(Prepare(verb, body, cfg).request).Unreachable? ==> r.status == 500
  {
    match Prepare(verb, body, cfg)
    case Early(response) => response
    case Raise(e) => Caught(e)
    case Send(request) =>
      match network(request)
      case Unreachable(message) => Caught(Failed(message))
      case Reply(status, text) => Finish(status, text, parse)
  }
}
