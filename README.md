# Payout WooCommerce gateway: a Dafny model

This project models the core of the Payout payment gateway for WooCommerce
and proves properties of that model:

- the signature codec of the Payout PHP client: fields are joined with `|`
  and hashed, and verification appends the client secret;
- the request builders: `Checkout::create` and `Refund::create`;
- the API client and its HTTP connection: what the connection sends and
  stores, the lazy one-time authentication, checkout signing, and the check
  of each response's signature;
- the current gateway (`includes/class-wc-gateway-payout.php`):
  - the webhook that reconciles orders with checkout notifications;
  - `process_payment`, which creates or reuses a checkout and builds the
    redirect URL;
  - `process_refund`;
- the legacy gateway (`payout-gateway.php`): the same three handlers and its
  status query;
- the polling rule of the thank-you page script.

PHP values are one datatype, `Php.Value`. A number is an exact count of
hundredths, so amounts are never floating point.

Imperative code is modelled as classes:

- `Http.Connection` is a class with PHP's fields (headers, token, response).
- `ApiClient.Client` is a class with the lazily opened connection.
- `Orders.OrderStore` holds the WooCommerce orders and their post meta.
- `ThankYou.Poller` holds the counter and the phase of the polling script.

Each state-changing method is proved equal to a specification function of
the old state, such as `Gateway.WebhookSpec` or `LegacyGateway.PaymentSpec`.
The properties are proved about those functions.

Some things are parameters:

- SHA-256 and `urlencode` are function-typed parameters (`Php.Foreign`).
- Every cURL or `wp_remote_*` result is a parameter (`Http.Exchange`,
  `Gateway.Remote`).
- Every random nonce is a parameter.

Three places in the model follow the code, not the documentation:

- `getCheckout` cannot succeed. `Connection::get` drops the transfer's body
  (see Findings).
- The gateway's refund body lacks `payout_id` and `iban`, which the
  library's own `Refund::create` demands (`Gateway.RefundBodyFailsRefundValidator`).
- The legacy callback writes meta for an order id before it checks that the
  order exists, and then crashes on the missing order.

## Model

| member | source | states |
|---|---|---|
| Php.FirstMissing | Payout/Checkout.php:61-65 | None exactly when every key is present; otherwise the first key in list order that is missing |
| Checkout.AmountInCents | Payout/Checkout.php:80 | amount×100 as a whole-number string: a number gives its hundredths, a decimal numeral string the hundredths it spells, null gives "0"; it fails exactly on an array or a string that is not such a numeral |
| Checkout.AmountIsMinorUnits | Payout/Checkout.php:80 | the minor-units amount is digits only and reads back as the amount in hundredths |
| Checkout.NumericStringAmount | Payout/Checkout.php:80 | an amount given as PHP's string form of a number gives the same minor-units amount as the number |
| Php.NumStringRoundTrip | Payout/Checkout.php:80 | PHP's string form of a non-negative number reads back, as a numeric string, as that number |
| Checkout.Payload | Payout/Checkout.php:79-97 | the output keys are exactly the fixed seven, plus `metadata` when it is an array; amount in cents; `external_id` as a string; empty nonce and signature; customer with exactly first_name, last_name, email |
| Checkout.Create | Payout/Checkout.php:47-98 | a non-array is rejected first, then the first missing top-level key, then a non-array customer, then the first missing customer key; success exactly when `Admissible`, with the value `Payload` |
| Checkout.DropsUnlistedKeys | Payout/Checkout.php:79-97 | no key outside the payload keys reaches the output, and no customer key other than the three |
| Refund.Create | lib/Payout/Refund.php:9-29 | a non-array is rejected; the first missing required key in list order is named; success exactly when all four are present, and the result is the input unchanged |
| Refund.CreateIdempotent | lib/Payout/Refund.php:28 | corollary of `Refund.Create`: validating an accepted request again gives the same request |
| Signature.CheckSignature | lib/Payout/Client.php:128-137 | an object among the decoded fields is the Error `implode` throws; otherwise it fails exactly when the signature is an array or object; otherwise true exactly when the signature equals the digest of the fields followed by the secret |
| Signature.VerifyAcceptsExactlyOwnSignature | lib/Payout/Client.php:128-137 | the digest of fields plus secret verifies, and it is the only string that does |
| Signature.VerifiedText | lib/Payout/Client.php:130 | the verified text is the message text, one `|`, then the secret |
| Signature.MessageDeterminesFields | lib/Payout/Client.php:117 | for non-empty field lists whose string forms are free of `|`, two messages sign the same text exactly when their fields have the same string forms |
| Signature.SplitImplode | lib/Payout/Client.php:117 | splitting the joined text on `|` gives back the fields when none contains `|` |
| Signature.ImplodeInjective | lib/Payout/Client.php:117 | two `|`-free field lists with the same joined text are equal |
| Signature.DelimiterCollision | lib/Payout/Client.php:117 | fields that contain `|` can collide: ["a\|b","c"] and ["a","b\|c"] get the same signature |
| ApiClient.MergeConfig | lib/Payout/Client.php:70-77 | keys are the defaults' and the caller's; a supplied key wins, the defaults fill the rest |
| ApiClient.SandboxSelectsBaseUrl | lib/Payout/Client.php:101 | the production URL is the default; the sandbox URL is chosen exactly when `sandbox` is truthy |
| ApiClient.SignedPayload | lib/Payout/Client.php:167-172 | the payload gains exactly `nonce` and `signature`; the signature is over amount, currency, external_id, nonce, secret |
| ApiClient.Verified | lib/Payout/Client.php:178-182 | a failure passes through; a response is returned unchanged only when its signature is the digest of amount, currency, external_id, nonce and the secret; an object among the signed fields is the Error `implode` throws; otherwise the invalid-signature exception |
| ApiClient.EchoVerifies | lib/Payout/Client.php:170-182 | a response that echoes the request's signed fields, none an object, and its signature passes verification |
| ApiClient.AcceptsGenuineResponse | lib/Payout/Client.php:197-201 | a body without `errors`, with scalar signed fields and a genuine signature is returned as received |
| ApiClient.NullResponseText | lib/Payout/Client.php:197 | verifying a null response hashes `"||||"` and the secret |
| ApiClient.NullResponseRejected | lib/Payout/Client.php:195-199 | the null response is rejected whenever that digest is not empty |
| ApiClient.Client.Connect | lib/Payout/Client.php:98-107 | the first call opens the connection on the configured base URL and posts the credentials to `authorize` once; the connection is kept even when authentication fails, and the token is the body only on success; later calls reuse it and send nothing |
| ApiClient.Client.SendCheckout | lib/Payout/Client.php:167-182 | posts the signed payload to `checkouts` with the bearer token current at call time, keeps the token the reply hands back as `TokenAfter` says, and returns the verified reply |
| ApiClient.Client.CreateCheckout | lib/Payout/Client.php:161-183 | validation failure sends nothing; on a fresh client the result is `FreshCreateCheckout`; otherwise it is the verified reply to the signed post, with the token then as `TokenAfter` of the reply |
| ApiClient.Client.GetCheckout | lib/Payout/Client.php:192-202 | requests `checkouts/<id>`; as written, succeeds only if the digest of `"||||"` and the secret is empty |
| ApiClient.Client.GetCheckoutCorrected | lib/Payout/Client.php:192-202 | with the reply stored, returns the received checkout when its signature is genuine |
| Http.Handled | Payout/Connection.php:183-200 | a transport error throws first; then `errors` throws, as an Error when it is an object that cannot become a string; otherwise the decoded body is returned |
| Http.TokenAfter | Payout/Connection.php:195-199 | the token is replaced by a `token` in a body that passes the handler; it is unchanged otherwise |
| Http.ErrorsNeverRefreshToken | Payout/Connection.php:185-193 | a body with `errors` never changes the token; a transport error hides the body entirely |
| Http.WithJsonHeaders | Payout/Connection.php:88-89 | adds Content-Type and Accept as application/json and keeps the other headers |
| Http.AuthorizedHeaders | Payout/Connection.php:133-134 | the sent headers hold `Authorization: Bearer <token>` with the token at call time and both JSON headers; every other header is kept |
| Http.Connection.AddHeader | Payout/Connection.php:76-79 | `headers[h] = "h: v"`, replacing an earlier entry, with the rest unchanged |
| Http.Connection.InitializeRequest | Payout/Connection.php:85-92 | resets the response and sends the JSON headers |
| Http.Connection.HandleResponse | Payout/Connection.php:183-200 | returns `Handled` and leaves the token as `TokenAfter` |
| Http.Connection.Authenticate | Payout/Connection.php:105-120 | posts the credentials to base URL + url; the result and the token follow the handler |
| Http.Connection.Post | Payout/Connection.php:131-146 | sends the bearer and JSON headers and the body to base URL + url; the stored response is the reply body |
| Http.Connection.PrepareGet | Payout/Connection.php:159-167 | the URL gains `?` and the encoded query only when a query array is given |
| Http.Connection.Get | Payout/Connection.php:157-175 | as written: the reply body is not stored, so the handler sees null; the result is `Ok(null)` without a transport error, and the token never changes |
| Http.Connection.GetCorrected | Payout/Connection.php:157-175 | with the body stored, behaves as `post` does |
| Orders.WithMeta | includes/class-wc-gateway-payout.php:85-87 | writes one meta entry and leaves every other entry and every order unchanged |
| Orders.WithMetaSame | payout-gateway.php:505 | writing back the value an entry already has changes nothing |
| Orders.PaymentComplete | includes/class-wc-gateway-payout.php:101 | a payable order becomes processing (or completed) and paid; any other order is unchanged; the result is never payable |
| Orders.PaymentCompleteIdempotent | includes/class-wc-gateway-payout.php:101 | completing a payment twice is the same as once |
| Orders.OrderIdOf | includes/class-wc-gateway-payout.php:79 | a decimal string names the order it spells |
| Orders.ExternalIdRoundTrip | Payout/Checkout.php:87 | the string form of order n's id, as the checkout sends it, names order n again |
| Orders.OrderStore.UpdateMeta | includes/class-wc-gateway-payout.php:85-87 | the store becomes `WithMeta` of the old one |
| Orders.OrderStore.UpdateStatus | includes/class-wc-gateway-payout.php:103 | only the status of that order changes |
| Orders.OrderStore.PaymentComplete | includes/class-wc-gateway-payout.php:101 | the store becomes `WithPaymentComplete` of the old one |
| Gateway.ClientSecretIsSetting | includes/class-wc-gateway-payout.php:64-69 | the client the gateway builds verifies with the gateway's secret and picks the sandbox URL exactly when the option is truthy |
| Gateway.Transition | includes/class-wc-gateway-payout.php:95-107 | `succeeded` completes the payment; `expired` fails an order outside the completed set; anything else changes nothing; no other order changes |
| Gateway.Reconciled | includes/class-wc-gateway-payout.php:85-107 | status and checkout id are stored, then the status step |
| Gateway.Delivered | includes/class-wc-gateway-payout.php:79-107 | applied exactly when the external id names an existing order; otherwise ignored with nothing written |
| Gateway.WebhookOutcomes | includes/class-wc-gateway-payout.php:45-108 | a malformed notification is ignored; a bad signature gives 401 with nothing written; only a verified notification for a known order writes, and then it stores status and id and touches no other order |
| Gateway.Webhook | includes/class-wc-gateway-payout.php:45-108 | outcome and new store are `WebhookSpec` of the old store |
| Gateway.VerifyNotification | includes/class-wc-gateway-payout.php:64-71 | the signature check over external_id, type and nonce with the configured secret |
| Gateway.WebhookReplay | includes/class-wc-gateway-payout.php:85-107 | delivering the same notification twice gives the state and outcome of one delivery |
| Gateway.FinishedOrdersKeepStatus | includes/class-wc-gateway-payout.php:95-107 | an order in the completed set that is not payable keeps its status whatever arrives |
| Gateway.RoundDiv | includes/class-wc-gateway-payout.php:334-338 | fails exactly on a zero quantity |
| Gateway.RoundDivNearest | includes/class-wc-gateway-payout.php:326-328 | the unit price is the nearest whole number of cents, ties rounded up |
| Gateway.RoundDivExact | includes/class-wc-gateway-payout.php:334 | a line total that is a multiple of the quantity gives the exact unit price |
| Gateway.Product | includes/class-wc-gateway-payout.php:326-339 | a product exists exactly when the quantity is not zero; it has exactly name, quantity and unit_price, with the item name, the quantity, and the unit price `RoundDiv(total, quantity)` in cents |
| Gateway.ProductExactUnitPrice | includes/class-wc-gateway-payout.php:326-339 | an item whose line total is a whole number of cents per unit is sent with exactly that unit price |
| Gateway.ProductsArray | includes/class-wc-gateway-payout.php:330-343 | succeeds exactly when every item has a quantity, with one product per item in order |
| Gateway.ProductsErrorPersists | includes/class-wc-gateway-payout.php:332-341 | the first failing item's error is the error of the whole list |
| Gateway.GetProductsArray | includes/class-wc-gateway-payout.php:330-343 | the loop computes `ProductsArray` |
| Gateway.Customer | includes/class-wc-gateway-payout.php:353-358 | the customer carries exactly first_name, last_name, email and phone |
| Gateway.CustomerFromBilling | includes/class-wc-gateway-payout.php:346-358 | those four are the billing first and last name and the order's billing email and phone |
| Gateway.BaseData | includes/class-wc-gateway-payout.php:350-362 | the six entries always sent, with the total, the id and the customer |
| Gateway.CheckoutData | includes/class-wc-gateway-payout.php:345-391 | billing address always; shipping address exactly when shipping line 1 is non-empty; idempotency key exactly when the option is `yes`; nothing else |
| Gateway.CheckoutDataAdmissible | includes/class-wc-gateway-payout.php:345-391 | the data always passes `Checkout::create`; the payload carries the total in cents and the order id as a string that names the order again, and none of products, addresses or idempotency key |
| Gateway.BuiltDataPasses | Payout/Checkout.php:47-98 | any data with the required keys and no metadata passes, with the amount in cents and the id as a string |
| Gateway.QueryData | includes/class-wc-gateway-payout.php:438-448 | `payment_method` is present, with its string value, exactly when that option is not empty, and `locale` likewise for the language; no other key appears; with both, `payment_method` comes first; none exactly when both are empty |
| Gateway.FreshRedirect | includes/class-wc-gateway-payout.php:436-452 | the checkout URL unchanged without options; otherwise joined with `&` when it already has a query, else `?` |
| Gateway.RedirectWithBothOptions | includes/class-wc-gateway-payout.php:440-452 | with both options set, `payment_method` comes before `locale`, both URL-encoded |
| Gateway.TwoPairQuery | includes/class-wc-gateway-payout.php:451 | a two-pair query is `k1=v1&k2=v2`, encoded |
| Gateway.NoQueryInPlainUrl | includes/class-wc-gateway-payout.php:451 | a URL without `?` has no query |
| Gateway.AfterCheckout | includes/class-wc-gateway-payout.php:432-456 | a `processing` checkout makes the order pending; the redirect URL is returned and stored |
| Gateway.BuildRedirect | includes/class-wc-gateway-payout.php:436-452 | builds `FreshRedirect` step by step |
| Gateway.FinishCheckout | includes/class-wc-gateway-payout.php:432-456 | the store becomes `AfterCheckout` of the old one |
| Gateway.ProcessPayment | includes/class-wc-gateway-payout.php:396-470 | result and new store are `ProcessPaymentSpec` of the old store |
| Gateway.PaymentGuards | includes/class-wc-gateway-payout.php:403-420 | a zero total returns false, and a stored redirect URL is returned again; neither creates a checkout or writes anything |
| Gateway.PaymentReplayReuses | includes/class-wc-gateway-payout.php:410-420 | paying again after a redirect was stored returns the same URL and writes nothing |
| Gateway.RefundRequestFor | includes/class-wc-gateway-payout.php:215-306 | the body has exactly amount, checkout_id, statement_descriptor, nonce, signature; the amount is the refund in cents, "0" when none is given; the checkout id is the stored one; the statement descriptor is ''; the nonce sent is the nonce signed; the signature is over that amount, currency, order id, '', nonce and the secret; the credentials go to `authorize` and the refund to `refunds` of the base URL the sandbox option picks, with the bearer of the token the authorisation returned |
| Gateway.MissingAmountRefundsZero | includes/class-wc-gateway-payout.php:236-247 | a refund without an amount is still sent, for amount "0" and signed over "0" |
| Gateway.ProcessRefund | includes/class-wc-gateway-payout.php:215-324 | refunded exactly when the order exists, both requests answered, the message is loosely "OK" and the code loosely 200, whatever the amount; a refund error carries the reply body; it crashes exactly on an unknown order or a WP_Error |
| Gateway.RefundSignatureVerifies | includes/class-wc-gateway-payout.php:236-247 | corollary of `RefundRequestFor` and `CheckSignature`: the refund signature verifies under the client's convention |
| Gateway.RefundBodyFailsRefundValidator | includes/class-wc-gateway-payout.php:280-286 | the library's own refund validator rejects the body, naming `payout_id` |
| LegacyGateway.LooseTransition | payout-gateway.php:149-155 | the status step with loose `==`: succeeded completes, expired fails an order outside the completed set, else nothing |
| LegacyGateway.Written | payout-gateway.php:140-141 | status and checkout id are stored under the notified id |
| LegacyGateway.CallbackOutcomes | payout-gateway.php:101-157 | ignored unless object is loosely "checkout" and external_id and status are set; a bad signature gives 401 with nothing written; anything written needs a verified signature and a numeric id; applied exactly when that id is a known order |
| LegacyGateway.UnknownOrderWrittenThenCrashes | payout-gateway.php:138-143 | for an unknown order the meta is written and then the request dies; the current webhook writes nothing |
| LegacyGateway.AgreesWithCurrent | payout-gateway.php:119-155 | on a notification both accept, with a string status and a known order, both versions reach the same state |
| LegacyGateway.TrueStatusCompletesPayment | payout-gateway.php:151-152 | a status of `true` completes the payment in the legacy version; the current one leaves the order alone |
| LegacyGateway.Callback | payout-gateway.php:101-157 | outcome and new store are `CallbackSpec` of the old store |
| LegacyGateway.Check | payout-gateway.php:129-155 | the store becomes `Checked` of the old one |
| LegacyGateway.Deliver | payout-gateway.php:138-155 | the store becomes `Delivered` of the old one |
| LegacyGateway.LooseApplyStatus | payout-gateway.php:143-155 | the store becomes `LooseTransition` of the old one |
| LegacyGateway.CheckOrderStatus | payout-gateway.php:592-596 | echoes the stored `payout_order_status` for the posted id, '' when there is none |
| LegacyGateway.StatusQueryReportsNotification | payout-gateway.php:140-141 | after a verified notification, the status query for its id reports its status, whether or not the order exists |
| LegacyGateway.Product | payout-gateway.php:403-412 | keys are exactly name, quantity and unit_price, with the item name and quantity; unit price is `bcmul(price, 100)`, the price in cents as a string |
| LegacyGateway.Products | payout-gateway.php:403-412 | one product per item, in order |
| LegacyGateway.BuildProducts | payout-gateway.php:403-412 | the loop computes `Products` |
| LegacyGateway.CheckoutData | payout-gateway.php:414-455 | billing address exactly when line 1, city and postcode are non-empty; shipping address exactly when shipping line 1 is non-empty, named with the billing name; idempotency key exactly when the option is `yes` |
| LegacyGateway.CheckoutDataAdmissible | payout-gateway.php:414-455 | the legacy data passes `Checkout::create`, with the total in cents and an id that names the order |
| LegacyGateway.Redirect | payout-gateway.php:491-502 | `checkout_url?locale=…` when the language is set; else `checkout_url?payment_method=…` when the payment method is set; else the checkout URL; nothing encoded |
| LegacyGateway.BuildRedirect | payout-gateway.php:491-502 | the reassignments compute `Redirect` |
| LegacyGateway.LanguageOverridesPaymentMethod | payout-gateway.php:496-502 | with both options set, only the locale is kept |
| LegacyGateway.AfterCheckout | payout-gateway.php:487-505 | a loosely `processing` checkout makes the order pending; the redirect URL is returned and stored |
| LegacyGateway.ProcessPayment | payout-gateway.php:382-515 | result and new store are `PaymentSpec` of the old store |
| LegacyGateway.FinishCheckout | payout-gateway.php:487-505 | the store becomes `AfterCheckout` of the old one |
| LegacyGateway.PaymentGuards | payout-gateway.php:394-467 | an unknown order is fatal and a zero total returns false; in these cases, and when a redirect URL is stored, the result does not depend on the remote side and the store is unchanged |
| LegacyGateway.RedirectAlwaysStored | payout-gateway.php:464-505 | whenever a redirect is returned, `payout_redirect_url` holds it afterwards, on both paths |
| ThankYou.Step | assets/js/payout-thank-you.js:30-56 | stopped polling never changes; a non-OK reply changes nothing; succeeded or processing stops as done without counting; any other answer counts and redirects once the count exceeds 8 |
| ThankYou.StepKeepsReachable | assets/js/payout-thank-you.js:51-55 | the counter stays within 8 until the redirect, which happens at 9 |
| ThankYou.StoppedIsFinal | assets/js/payout-thank-you.js:44-54 | after either stop, no reply changes anything |
| ThankYou.RedirectAfterMaxChecks | assets/js/payout-thank-you.js:22-55 | without a conclusive answer, the counter counts the OK answers, and the redirect comes exactly on the ninth |
| ThankYou.DoneNeedsConclusive | assets/js/payout-thank-you.js:43-49 | polling ends as done only on succeeded or processing, without counting |
| ThankYou.Poller.Tick | assets/js/payout-thank-you.js:30-56 | the state becomes `Step` of the old one; the location becomes the payment URL exactly on the redirect |

`process_refund` in payout-gateway.php:266-377 reads the same options and
builds the same request as the current version. `Gateway.RefundRequestFor`,
`Gateway.ProcessRefund` and `Gateway.RefundSignatureVerifies` model both.

## Left out

- SHA-256 and `pack('A*', …)` are an uninterpreted function parameter. Nothing is proved about the digest's length or collisions.
- `openssl_random_pseudo_bytes`/`base64_encode` and `random_bytes`/`bin2hex` are not modelled. Each nonce is a parameter.
- cURL, `wp_remote_request`, `wp_remote_post`, `json_encode`, `json_decode` and the internals of `http_build_query` are not modelled.
  - A reply is its transport error text plus its decoded body.
  - An undecodable body is null.
  - Request bodies are recorded as values, not as JSON text.
  - `urlencode` is a parameter.
- Floating-point arithmetic is not modelled. Amounts are exact hundredths, so `amount * 100`, `number_format`, `round` and `bcmul` are exact.
- Checkout.AmountInCents: only decimal numerals with at most two decimals are read as numbers. PHP also reads signs, leading whitespace, exponents, more decimals and leading-numeric strings such as "12abc" (1200, with a warning); the model rejects those as non-numeric.
- Php.LooseEqualsInt: a string equals an integer when it is such a decimal numeral of that value. Other numeric string forms ("200.0e0", " 200") compare as false in the model.
- Php.StrVal: an `Arr` that `json_decode` produced is a `stdClass` object, whose conversion to a string is an Error. The model raises that Error in `implode` during signature checks and in the `errors` message of the response handler. Elsewhere a decoded object becomes "Array": in the bearer token, in the status that the legacy status query echoes, and in the redirect URLs (see `Gateway.FreshRedirect` and `LegacyGateway.Redirect` below).
- Gateway.FreshRedirect: a `checkout_url` that is not a string is joined as "Array" when an option is set, and that URL is stored. PHP's `parse_url` raises a TypeError for an object or an array there. `catch (Exception $e)` does not catch it, so `process_payment` stops after the `pending` update and writes no redirect meta.
- LegacyGateway.Redirect: a `checkout_url` that `json_decode` made an object is joined as "Array" when an option is set, and that URL is stored. PHP's `.` raises an Error ("Object of class stdClass could not be converted to string") that nothing catches. For a list PHP does give "Array", with a warning, as the model does.
- Gateway.RoundDiv: `(int) round($a / $b * 100)` is modelled as rounding the exact quotient half away from zero. Float error in the division is not modelled.
- LegacyGateway.Product: the price is always a number. An empty price string, which `bcmul` reads as 0, is price 0 here. A deleted product, for which `get_product()` is false and `get_price()` is fatal, is not modelled.
- Gateway.RefundCents: a missing amount is null, which `bcmul` reads as the empty numeral 0. The deprecation notice for null is not modelled.
- Orders.OrderIdOf: `wc_get_order` and `update_post_meta` accept a whole number or a decimal string. `absint` on other values (`true`, `"12abc"`, `12.5`) is not modelled; such ids name no order here and get no meta.
- WooCommerce itself is an abstract store: orders keyed by id, and post meta per id.
  - `payment_complete` follows WooCommerce's rule: payable statuses become processing or completed and are marked paid.
  - Hooks, filters (`payout_webhook_callback_completed_statuses`), notes and `save()` are not modelled.
  - Meta values are stored as given, without serialisation.
- Orders.OrderStore.UpdateMeta: writes never fail in the model, including for an id without a post.
- `wc_add_notice`, the loggers, the debug options, settings forms, instructions, emails and status-change logging are not modelled: they are presentation, with no effect on the state.
- The `new Client` checks for the cURL and JSON extensions are not modelled. Both are assumed present.
- Header emission, the JSON error body and `exit()` in the webhook are the outcome `Rejected401`.
- Gateway.QueryOf: `parse_url(..., PHP_URL_QUERY)` is modelled as the text after the first `?` up to any `#`. Malformed URLs, for which `parse_url` returns false, are not distinguished.
- The `order_payout_status` handler that the thank-you script polls is not part of this model. The script's replies are parameters.
- ThankYou.Poller.Tick: each callback is assumed to finish before the next interval fires. Overlapping `fetch` calls, which can still run after `clearInterval`, are not modelled.
- DOM blocking, unblocking and timers are not modelled beyond the counter rule.
- The inline jQuery poller of payout-gateway.php:548-579 is not modelled. It is presentation that the script in assets/js replaces. Unlike that script, it counts even the answer that stops it.
- The block-editor registration (includes/blocks/class-wc-gateway-payout-blocks.php) and resources/js/blocks/index.js are not part of this model. They only register UI.

## Findings

| source | as written | input that shows it | evidently intended | confidence | as-written member | corrected member |
|---|---|---|---|---|---|---|
| Payout/Connection.php:172 | `get` calls `curl_exec` without storing its result, so `handleResponse` decodes the `''` left by `initializeRequest`, and `getCheckout` verifies a null response | any `getCheckout` call: the API's reply is dropped, and the request fails with "Invalid signature in API response" unless SHA-256 of `"||||" . client_secret` is empty | `$this->response = curl_exec($this->curl);`, as `post` and `authenticate` do, so the received checkout is returned when its signature is genuine | high (not executed) | Http.Connection.Get, ApiClient.NullResponseRejected, ApiClient.Client.GetCheckout | Http.Connection.GetCorrected, ApiClient.AcceptsGenuineResponse, ApiClient.Client.GetCheckoutCorrected |
