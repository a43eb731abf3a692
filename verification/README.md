# Apple Pay transaction proxy: the `/api/transaction` handler in Dafny

This project models the decision logic of the proxy's transaction endpoint,
`api/transaction.ts`. The endpoint takes a payment request from the browser,
checks it, and builds the JSON payload for the IQPro transactions API. It
then sends that payload with the raw API key as `Authorization` and relays the
processor's answer to the client.

Once the network is abstracted, the handler is a pure function:

- `JsValues` models decoded JSON (`Json`) and the JavaScript operations the
  handler applies to it. `undefined` is `Option.None`. The module covers
  truthiness, `typeof`, plain reads that throw on null or undefined, `?.`
  chains, `||`, `??` and destructuring defaults.
- `Payload` models the processor's payload schema. `EncodePayload` builds the
  serialised body from a `Charge` (type, amount, currency, and either a
  temporary token or an Apple Pay token). `DecodePayload` reads the charge
  back, so the two form a round trip.
- `Transaction` models the handler itself:
  - `Prepare(verb, body, cfg)` runs everything before the outbound call. It
    returns `Early(response)`, `Send(request)`, or `Raise(error)` for an
    exception thrown inside the `try` block.
  - `Finish(status, text, parse)` maps the processor's reply to the client
    response. `parse` stands for `JSON.parse`.
  - `Handle` joins the two around a network function, `OutboundRequest -> Exchange`.
- `TransactionProperties` states the properties that relate several calls or
  whole requests.

Behaviour worth knowing:

- a negative (or fractional) amount is accepted;
- an unset `APPLEPAY_KEY_ID` gives 400, not 500;
- `IQPRO_API_KEY` is never checked;
- only `temporary_token`, `appleToken` and `authorizationEvent.payment.token`
  are looked up, not `payment_method.apple_pay_token` or
  `apple_pay_temporary_token`;
- a non-2xx reply is wrapped in `{error: "IQPro error", status, body}`
  rather than passed through unchanged;
- every 2xx is answered with 200.

## Model

| member | source | states |
|---|---|---|
| JsValues.Read | api/transaction.ts:76-81 | A plain property read throws exactly when its receiver is null or undefined. The TypeError names the key. Otherwise it reads the same value as `?.`. |
| JsValues.ChainOfUndefined | api/transaction.ts:65 | Reading any further path from undefined gives undefined. |
| JsValues.ChainAppend | api/transaction.ts:65 | `v?.p?.q` reads `q` from the value of `v?.p`: optional chains compose. |
| JsValues.ChainShortCircuits | api/transaction.ts:65 | Once a link before the last is null or undefined, the whole `?.` chain is undefined. |
| JsValues.Truthy | api/transaction.ts:41-67 | A value is falsy exactly when it is undefined, null, false, 0 or the empty string. Every truthy value is neither null nor undefined. |
| Payload.Put | api/transaction.ts:104 | A member whose value is undefined does not appear in the serialised object. A defined one is added with its value. No other member is disturbed. |
| Payload.EncodeMethod | api/transaction.ts:54-93 | `payment_method` has exactly one member. It is either `{temporary_token: t}`, or `apple_pay_token` holding exactly `key_id` (the key as a string) and `pkpaymenttoken` (the encoded token). |
| Payload.EncodeToken | api/transaction.ts:74-91 | `pkpaymenttoken` holds exactly `paymentData` and `paymentMethod`, plus `transactionIdentifier` when defined. `paymentMethod` holds exactly `displayName`, `network` and `type`, each the token's value. |
| Payload.EncodePaymentData | api/transaction.ts:75-84 | `paymentData` holds `header` and exactly those of `data`, `signature` and `version` that are defined, each unchanged. |
| Payload.EncodePaymentMethod | api/transaction.ts:85-89 | `paymentMethod` holds exactly `displayName`, `network` and `type`, each the token's (already defaulted) value. |
| Payload.EncodeHeader | api/transaction.ts:78-82 | `header` holds exactly those of `publicKeyHash`, `ephemeralPublicKey` and `transactionId` that are defined, each unchanged. |
| Payload.EncodePayload | api/transaction.ts:47-52 | The payload has exactly the top-level members type, amount, currency and payment_method, and carries the amount unchanged. |
| Payload.TokenRoundTrip | api/transaction.ts:71-93 | Every forwarded token member can be read back from the `pkpaymenttoken` object, unaltered. |
| Payload.MethodRoundTrip | api/transaction.ts:54-93 | Decoding `payment_method` gives back the payment method: the temporary token, or the key id and every token member. |
| Payload.PayloadRoundTrip | api/transaction.ts:47-93 | Decoding the payload gives back the whole charge: type, amount, currency and payment method. |
| Transaction.AmountAccepted | api/transaction.ts:41-45 | The amount check (reject a falsy amount or one whose typeof is not "number") passes exactly for a non-zero number, negative numbers included. |
| Transaction.AppleToken | api/transaction.ts:64-65 | A truthy `appleToken` is chosen. Otherwise the token is `authorizationEvent?.payment?.token`, which is undefined when `payment` is missing. |
| Transaction.ReadToken | api/transaction.ts:71-93 | Each forwarded member equals the read of the same path in the token. The `paymentMethod` members become null when absent. A token with truthy `paymentData` throws exactly when `header` is null or undefined, on reading `publicKeyHash`. |
| Transaction.SelectPayment | api/transaction.ts:54-69 | A truthy `temporary_token` is selected unconditionally. An Apple Pay token is selected only with APPLEPAY_KEY_ID set, carrying that key. The request is refused exactly when there is no temporary token and either the key is unset or the chosen token has no `paymentData`. |
| Transaction.Prepare | api/transaction.ts:26-105 | OPTIONS gives 204 with no body and any other non-POST gives 405. On POST, the amount 400 happens exactly when the amount check fails, and every other early answer is a 400. Past the amount check, the handler answers the `MissingApplePay` 400 exactly when payment selection refuses, throws exactly when selection throws, and sends exactly when a payment method is selected. A send goes to `API_BASE + "/api/transactions"` with the raw API key, for an accepted amount only, and its payload has exactly the members type, amount, currency and payment_method. The only exception is the header read. |
| Transaction.ProcessorBody | api/transaction.ts:107-113 | The reply body is the parsed text when the text parses, and otherwise exactly `{raw: text}`. |
| Transaction.Finish | api/transaction.ts:107-122 | The client gets 200 exactly when the processor's status is 2xx, with the processor's body. Any other status is kept, with `{error: "IQPro error", status, body}` as the body. The body is the parsed text, or `{raw: text}`. |
| Transaction.Caught | api/transaction.ts:123-126 | A thrown error becomes a 500 whose body holds only `error`: the error's message, or "Internal error" when the message is empty. |
| Transaction.Handle | api/transaction.ts:24-127 | An early answer is returned as prepared. A thrown exception or a failed fetch is a 500. |
| TransactionProperties.MethodRulesComeFirst | api/transaction.ts:26-31 | OPTIONS always yields 204 without a body, and any other non-POST yields 405, whatever the body, configuration and network. |
| TransactionProperties.NoCallUnlessSent | api/transaction.ts:26-69 | When the handler does not send, its answer does not depend on the network, so the processor is not called. |
| TransactionProperties.SentReplyIsFinished | api/transaction.ts:98-122 | When it sends, the client's answer is the normalised reply to exactly the prepared request. |
| TransactionProperties.AmountExamples | api/transaction.ts:39-45 | Amount 0, a string, null and an absent amount each give the 400 amount error. An amount of -5 is sent and arrives as -5. |
| TransactionProperties.TopLevelCopied | api/transaction.ts:39-52 | A sent payload is exactly the encoding of the charge it decodes to, so it has no members beyond those the encoder writes. It carries the body's type (or "sale" when absent), its amount, and its currency (or the configured default when absent), unchanged. |
| TransactionProperties.ConfigurationDefaults | api/transaction.ts:12-15 | For a sent request whose body has no currency, the payload's currency is `"USD"` when CURRENCY is unset or empty, and CURRENCY otherwise. The request goes to `https://sandbox.basysiqpro.com/api/transactions` when IQPRO_API_URL is unset or empty, and to IQPRO_API_URL + `/api/transactions` otherwise. |
| TransactionProperties.TemporaryTokenWins | api/transaction.ts:54-56 | With an accepted amount and a truthy `temporary_token`, the request is sent with `payment_method == {temporary_token: t}`. This holds for every configuration, whatever Apple Pay token is present. |
| TransactionProperties.MissingKeyIdRejects | api/transaction.ts:59-62 | Without a temporary token, an unset or empty APPLEPAY_KEY_ID gives the 400 before any token is inspected. |
| TransactionProperties.AppleTokenHasNoFallback | api/transaction.ts:64-69 | A truthy `appleToken` without `paymentData` gives the 400. The legacy path is not tried. |
| TransactionProperties.TokenWithoutPaymentDataRejects | api/transaction.ts:64-68 | With APPLEPAY_KEY_ID set and no temporary token, a chosen token without truthy `paymentData` gives the 400 and nothing is sent. This holds whether the token came from `appleToken` or from `authorizationEvent.payment.token`, or is missing. |
| TransactionProperties.ApplePayloadMapping | api/transaction.ts:54-93 | The request is sent when: the amount is accepted, there is no temporary token, APPLEPAY_KEY_ID is set, and the chosen token has `paymentData` with a `header`. Its `payment_method` then has only `apple_pay_token`, which holds exactly `key_id` (equal to APPLEPAY_KEY_ID) and `pkpaymenttoken`, the token's members as `Payload.EncodeToken` lays them out. |
| TransactionProperties.HeaderlessTokenThrows | api/transaction.ts:67-79 | With an accepted amount, no temporary token, APPLEPAY_KEY_ID set and a chosen token whose truthy `paymentData` has a null or undefined `header`, the handler throws the TypeError of reading `publicKeyHash`, on null exactly when `header` is null. |
| TransactionProperties.HeaderlessTokenIsInternalError | api/transaction.ts:79-125 | A chosen token whose `paymentData` lacks `header` makes the handler throw, and the client gets 500. The body is `{error: "Cannot read properties of undefined (reading 'publicKeyHash')"}`, or `of null` when `header` is null. |
| TransactionProperties.UnreachableProcessorIsInternalError | api/transaction.ts:98-125 | When the fetch or the reply's body read fails, the client gets 500 with `{error: message}`, or `{error: "Internal error"}` when the message is empty. |
| TransactionProperties.ApiKeyNeverChecked | api/transaction.ts:98-103 | Two configurations that differ only in IQPRO_API_KEY prepare the same outcome, up to the Authorization value. An unset key is sent too. |
| TransactionProperties.OnlyReadMembersMatter | api/transaction.ts:39-65 | The outcome depends only on the body members amount, type, currency, temporary_token, appleToken and authorizationEvent. |
| TransactionProperties.ApplePayTemporaryTokenIgnored | api/transaction.ts:54 | Adding `apple_pay_temporary_token` to any body changes nothing. |
| TransactionProperties.WidgetRequestRejected | public/tokenizer-example.js:32-36 | The widget's `{type, amount, apple_pay_temporary_token}` body always ends in a 400, never in a temporary-token payload. This holds for every amount, token, configuration and network. |
| TransactionProperties.ProcessorReplyRecoverable | api/transaction.ts:107-122 | The client can always read back the processor's body, parsed or as `{raw: text}`. It sees the processor's status unless that status is 2xx, which reads as 200. |
| TransactionProperties.StatusExamples | api/transaction.ts:115-122 | A 402 `{declined: true}` reply is mirrored as 402 with that body inside the envelope. A 201 reply becomes 200 with the body as is. |

## Left out

- CORS headers (`addCors`) and `console` logging: no effect on the status or body.
- Reading environment variables: the `Config` value is given. Each field is `None` when the variable is unset.
- A request body arriving as a string and parsed at line 34: the body is taken already decoded. An absent body behaves like `null` here, since both are falsy and nullish under `?.`.
- The `fetch` itself: the network is a function parameter. A rejected fetch or body read is `Exchange.Unreachable(message)`. The outbound method is always POST.
- `JSON.parse` of the reply: an abstract `parse` parameter. `JSON.stringify` is modelled only in that it drops undefined members. Member order is not modelled, because objects are maps.
- JavaScript numbers: JSON numbers are reals, so NaN and the infinities cannot occur. Statuses are integers.
- Rounding of JSON numbers to doubles: an amount of `1e400` becomes Infinity in the handler, is accepted and is serialised as `null`, while the model sends it unchanged; an amount of `1e-400` becomes 0 and is rejected, while the model accepts and sends it.
- The runtime turning an unset Authorization value into the text "undefined": the model carries `None`.
- Properties inherited from prototypes (an array's `length`, say): none of the keys the handler reads is such a property.
- The wording of thrown messages follows the V8 engine's TypeError text. Other engines word it differently.
- `public/tokenizer-example.js`, apart from the body shape it posts: browser configuration, DOM access and floating-point amount rounding.
- `api/checkout.ts`, `api/echo-verify.ts` and `api/public/applepay/validatemerchant.ts`: a fixed success stub, configuration echoing, and a logging stub whose forwarding code is commented out.
- Transaction.Handle: its contract states only the early, thrown and unreachable cases. The reply case is stated by TransactionProperties.SentReplyIsFinished.
