/**
  The body of the POST to the IQPro transactions endpoint, as it reaches the
  wire: `EncodePayload` builds the serialised JSON from the charge the handler
  decided on, and `DecodePayload` reads that charge back out of it.
 */
module Payload {
  import opened Wrappers
  import opened JsValues

  /** The members of an Apple Pay token that are forwarded. A `Value` member
      is undefined when the token lacks it, and is then left out of the
      serialised payload. The three `paymentMethod` members have already been
      defaulted to null. */
  datatype TokenFields = TokenFields(
    data: Value,
    signature: Value,
    publicKeyHash: Value,
    ephemeralPublicKey: Value,
    transactionId: Value,
    version: Value,
    displayName: Json,
    network: Json,
    cardType: Json,
    transactionIdentifier: Value)

  /** The two payment-method shapes the processor accepts from this handler. */
  datatype PaymentMethod =
    | TemporaryToken(token: Json)
    | ApplePayToken(keyId: string, fields: TokenFields)

  /** Everything the outbound payload says: the transaction type, the amount
      in minor units, the currency and the payment method. */
  datatype Charge = Charge(kind: Json, amount: real, currency: Json, payment: PaymentMethod)

  /** Adds member `key` to an object under construction; an undefined value
      adds nothing, because `JSON.stringify` omits undefined members. */
  function Put(m: map<string, Json>, key: string, v: Value): (r: map<string, Json>)
    ensures r.Keys == m.Keys + Present(key, v)
    ensures key !in m ==> Field(r, key) == v
    ensures forall k :: k != key ==> Field(r, k) == Field(m, k)
  {
    if v.Some? then m[key := v.value] else m
  }

  /** `{key}` when `v` is defined, else no key: the members `Put` adds. */
  function Present(key: string, v: Value): set<string> {
    if v.Some? then {key} else {}
  }

  /** The `header` object: whichever of its three members are defined. */
  function EncodeHeader(f: TokenFields): (r: map<string, Json>)
    ensures r.Keys == Present("publicKeyHash", f.publicKeyHash) + Present("ephemeralPublicKey", f.ephemeralPublicKey)
                      + Present("transactionId", f.transactionId)
    ensures Field(r, "publicKeyHash") == f.publicKeyHash
    ensures Field(r, "ephemeralPublicKey") == f.ephemeralPublicKey
    ensures Field(r, "transactionId") == f.transactionId
  {
    Put(Put(Put(map[], "publicKeyHash", f.publicKeyHash), "ephemeralPublicKey", f.ephemeralPublicKey),
        "transactionId", f.transactionId)
  }

  /** The `paymentData` object: `header`, and whichever of `data`, `signature`
      and `version` are defined. */
  function EncodePaymentData(f: TokenFields): (r: map<string, Json>)
    ensures r.Keys == {"header"} + Present("data", f.data) + Present("signature", f.signature) + Present("version", f.version)
    ensures r["header"] == JObj(EncodeHeader(f))
    ensures Field(r, "data") == f.data && Field(r, "signature") == f.signature && Field(r, "version") == f.version
  {
    var withHeader := map["header" := JObj(EncodeHeader(f))];
    assert withHeader.Keys == {"header"} && Field(withHeader, "header") == Some(JObj(EncodeHeader(f)));
    var withData := Put(withHeader, "data", f.data);
    var withSignature := Put(withData, "signature", f.signature);
    Put(withSignature, "version", f.version)
  }

  /** The `paymentMethod` object: its three members, null when the token lacks them. */
  function EncodePaymentMethod(f: TokenFields): (r: map<string, Json>)
    ensures r.Keys == {"displayName", "network", "type"}
    ensures Field(r, "displayName") == Some(f.displayName)
    ensures Field(r, "network") == Some(f.network)
    ensures Field(r, "type") == Some(f.cardType)
  {
    map["displayName" := f.displayName, "network" := f.network, "type" := f.cardType]
  }

  /** The `pkpaymenttoken` object: `paymentData`, `paymentMethod` with its
      three members, and `transactionIdentifier` when it is defined. */
  function EncodeToken(f: TokenFields): (r: Json)
    ensures r.JObj?
    ensures r.fields.Keys == {"paymentData", "paymentMethod"} + Present("transactionIdentifier", f.transactionIdentifier)
    ensures r.fields["paymentData"] == JObj(EncodePaymentData(f))
    ensures r.fields["paymentMethod"] == JObj(EncodePaymentMethod(f))
    ensures r.fields["paymentMethod"].fields.Keys == {"displayName", "network", "type"}
    ensures Field(r.fields["paymentMethod"].fields, "displayName") == Some(f.displayName)
    ensures Field(r.fields["paymentMethod"].fields, "network") == Some(f.network)
    ensures Field(r.fields["paymentMethod"].fields, "type") == Some(f.cardType)
    ensures Field(r.fields, "transactionIdentifier") == f.transactionIdentifier
  {
    var members := map["paymentData" := JObj(EncodePaymentData(f)), "paymentMethod" := JObj(EncodePaymentMethod(f))];
    assert members.Keys == {"paymentData", "paymentMethod"};
    assert Field(members, "paymentData") == Some(JObj(EncodePaymentData(f)));
    assert Field(members, "paymentMethod") == Some(JObj(EncodePaymentMethod(f)));
    var r := Put(members, "transactionIdentifier", f.transactionIdentifier);
    assert Field(r, "paymentData") == Some(JObj(EncodePaymentData(f)));
    assert Field(r, "paymentMethod") == Some(JObj(EncodePaymentMethod(f)));
    JObj(r)
  }

  /** The members of a JSON object value, if it is one. */
  function AsObject(v: Value): Option<map<string, Json>> {
    if v.Some? && v.value.JObj? then Some(v.value.fields) else None
  }

  /** Reads the forwarded token members back out of a `pkpaymenttoken` object. */
  function DecodeToken(j: Json): Option<TokenFields> {
    var paymentData :- AsObject(Get(j, "paymentData"));
    var header :- AsObject(Field(paymentData, "header"));
    var paymentMethod :- AsObject(Get(j, "paymentMethod"));
    var displayName :- Field(paymentMethod, "displayName");
    var network :- Field(paymentMethod, "network");
    var cardType :- Field(paymentMethod, "type");
    Some(TokenFields(
      Field(paymentData, "data"), Field(paymentData, "signature"),
      Field(header, "publicKeyHash"), Field(header, "ephemeralPublicKey"), Field(header, "transactionId"),
      Field(paymentData, "version"),
      displayName, network, cardType,
      Get(j, "transactionIdentifier")))
  }

  /** The `payment_method` object: exactly one member, named after the shape. */
  function EncodeMethod(m: PaymentMethod): (r: Json)
    ensures r.JObj?
    ensures m.TemporaryToken? ==> r.fields == map["temporary_token" := m.token]
    ensures m.ApplePayToken? ==> r.fields.Keys == {"apple_pay_token"}
    ensures m.ApplePayToken? ==>
              && r.fields["apple_pay_token"].JObj?
              && r.fields["apple_pay_token"].fields.Keys == {"key_id", "pkpaymenttoken"}
              && r.fields["apple_pay_token"].fields["key_id"] == JStr(m.keyId)
              && r.fields["apple_pay_token"].fields["pkpaymenttoken"] == EncodeToken(m.fields)
  {
    match m
    case TemporaryToken(t) => JObj(map["temporary_token" := t])
    case ApplePayToken(keyId, f) =>
      var applePay := map["key_id" := JStr(keyId), "pkpaymenttoken" := EncodeToken(f)];
      assert applePay.Keys == {"key_id", "pkpaymenttoken"};
      var members := map["apple_pay_token" := JObj(applePay)];
      assert members.Keys == {"apple_pay_token"} && members["apple_pay_token"] == JObj(applePay);
      JObj(members)
  }

  function DecodeMethod(j: Json): Option<PaymentMethod> {
    match Get(j, "temporary_token")
    case Some(t) => Some(TemporaryToken(t))
    case None =>
      var applePay :- AsObject(Get(j, "apple_pay_token"));
      var keyId :- Field(applePay, "key_id");
      var f :- (if "pkpaymenttoken" in applePay then DecodeToken(applePay["pkpaymenttoken"]) else None);
      if keyId.JStr? then Some(ApplePayToken(keyId.s, f)) else None
  }

  /** The whole payload: four top-level members and nothing else. */
  function EncodePayload(c: Charge): (r: Json)
    ensures r.JObj? && r.fields.Keys == {"type", "amount", "currency", "payment_method"}
    ensures r.fields["amount"].JNum? && r.fields["amount"].n == c.amount
  {
    JObj(map["type" := c.kind, "amount" := JNum(c.amount), "currency" := c.currency,
             "payment_method" := EncodeMethod(c.payment)])
  }

  function DecodePayload(j: Json): Option<Charge> {
    var kind :- Get(j, "type");
    var amount :- Get(j, "amount");
    var currency :- Get(j, "currency");
    var paymentMethod :- Get(j, "payment_method");
    var payment :- DecodeMethod(paymentMethod);
    if amount.JNum? then Some(Charge(kind, amount.n, currency, payment)) else None
  }

  /** No forwarded token member is lost or altered by serialisation. */
  lemma TokenRoundTrip(f: TokenFields)
    ensures DecodeToken(EncodeToken(f)) == Some(f)
  {
    var j := EncodeToken(f);
    assert AsObject(Get(j, "paymentData")) == Some(EncodePaymentData(f));
    assert AsObject(Field(EncodePaymentData(f), "header")) == Some(EncodeHeader(f));
    assert AsObject(Get(j, "paymentMethod")) == Some(EncodePaymentMethod(f));
  }

  /** The payment method, too, survives serialisation. */
  lemma MethodRoundTrip(m: PaymentMethod)
    ensures DecodeMethod(EncodeMethod(m)) == Some(m)
  {
    if m.ApplePayToken? {
      var applePay := EncodeMethod(m).fields["apple_pay_token"].fields;
      assert AsObject(Get(EncodeMethod(m), "apple_pay_token")) == Some(applePay);
      TokenRoundTrip(m.fields);
    }
  }

  /** The processor can read back every field of the charge from the payload. */
  lemma PayloadRoundTrip(c: Charge)
    ensures DecodePayload(EncodePayload(c)) == Some(c)
  {
    var j := EncodePayload(c);
    assert Get(j, "type") == Some(c.kind) && Get(j, "currency") == Some(c.currency);
    assert Get(j, "amount") == Some(JNum(c.amount));
    assert Get(j, "payment_method") == Some(EncodeMethod(c.payment));
    MethodRoundTrip(c.payment);
  }
}
