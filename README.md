# PaynetEasy payment plugin for Shop-Script: callback and reconciliation model

This project models the core of the PaynetEasy payment plugin for the Webasyst
Shop-Script platform. The core is the part that handles the gateway's
callbacks and keeps the shop's transactions in step with the gateway:

- **Request signing**. The `control` checksum of sale and status requests is
  `sha1` of a fixed-order concatenation of fields followed by the merchant
  control key (module `Signing`).
- **Status reconciliation**. The gateway status is trimmed and mapped to a
  canonical (state, operation, callback) triple. A transaction is saved and a
  platform callback is dispatched only when BOTH the state and the operation
  differ from the recorded transaction. The data is returned either way
  (modules `Status` and `Payment`).
- **Callback routing**. `callbackInit` and `setOrderId` read `app_id`,
  `merchant_id`, `type` and the correlation id. For a return the id comes from
  the query; for a webhook it comes from the JSON body's `object.order_id`.
  `callbackHandler` answers a return with a redirect carrying the message
  `return`, a webhook with the body `OK`, and any other type with a plain
  redirect (modules `Routing` and `Payment`).
- **Order-link table**. This is `payneteasy_payments`: shop order id to
  gateway order id. A row is upserted after a sale and read by the status
  query (module `OrderLinks`).
- **Error boundary**. `executeErrorScenario` logs one error entry, using the
  exception's own context when it has one, and rethrows the same exception
  (modules `Exceptions` and `Payment`).
- **Country code**. This is the last case-insensitive name match in the
  country table, defaulting to `RU` (module `Countries`).

The plugin object is the class `Payment.PayneteasyPayment`. Its fields are
the per-request state the PHP object keeps: `appId`, `merchantId`,
`requestType` and `orderId`. What the platform observes is also held in
fields:

- `ledger`: saved transactions.
- `dispatched`: `execAppCallback` calls.
- `errorLog`: the error channel.

The gateway is a function from the signed request to its response.
`sha1` is a function on strings supplied with the settings.
The platform order arrives as a value carrying its id and the transaction
recorded for it before.

Two details of the code deserve a note:

- `callbackHandler` (lines 667 and 680) sends a callback to FAIL only for
  DECLINED or CANCELED, so AUTH, CAPTURED and REFUNDED all go to SUCCESS.
  `getFinalRedirectUrl` (lines 776-788), which nothing calls, sends only
  CAPTURED and AUTH to SUCCESS. Both rules are modelled, and
  `Routing.RedirectRulesDivergeOnRefund` states that they differ on REFUNDED
  alone.
- A sale response writes a link row only when it carries both
  `paynet-order-id` and `merchant-order-id`. The code has no notion of a
  "successful" sale beyond that.

## Model

| member | source | states |
|---|---|---|
| `Exceptions.NewPaynetEasyException` | lib/src/Classes/Exception/PaynetEasyException.php:9-17 | the constructed exception has `getContext`, which returns exactly the given context; message, code and previous are forwarded unchanged |
| `Exceptions.ConstructorDefaults` | lib/src/Classes/Exception/PaynetEasyException.php:9-13 | with only a message, the context is the empty array, the code 0 and previous null |
| `Exceptions.ContextFixedAtConstruction` | lib/src/Classes/Exception/PaynetEasyException.php:7-22 | the context reported is the one given at construction, whatever message, code or previous accompany it |
| `Signing.SignString` | lib/payneteasyPayment.class.php:971-974 | no contract of its own: the digest of the base string with the control key appended; both signers below state the full digest input |
| `Signing.SignStatusRequest` | lib/payneteasyPayment.class.php:948-956 | status control = sha1(login + client_orderid + orderid + control key), in that order, with a missing gateway id contributing nothing |
| `Signing.MissingGatewayIdSignsAsEmpty` | lib/payneteasyPayment.class.php:950-955 | a missing gateway order id contributes nothing at its position: it signs exactly like an empty one |
| `Signing.StatusControlDeterministic` | lib/payneteasyPayment.class.php:971-974 | identical login, ids and key give an identical status control |
| `Signing.StatusBaseSeparatesGatewayIds` | lib/payneteasyPayment.class.php:950-953 | with login and client order id fixed, two different gateway ids give different signed strings |
| `Signing.StatusBaseSeparatesLogins` | lib/payneteasyPayment.class.php:950-951 | with the request fixed, two different logins give different signed strings |
| `Signing.StatusBaseSeparatesClientOrderIds` | lib/payneteasyPayment.class.php:950-953 | with login and gateway id fixed, two different client order ids give different signed strings |
| `Signing.StatusFieldsNotDelimited` | lib/payneteasyPayment.class.php:950-955 | the fields are not delimited: client order id "12" with gateway id "3" signs like "1" with "23" |
| `Signing.SignPaymentRequest` | lib/payneteasyPayment.class.php:959-968 | sale control = sha1(endpoint id + client_orderid + amount in minor units + email + control key), in that order |
| `Signing.PaymentControlIgnoresOtherFields` | lib/payneteasyPayment.class.php:496-520 | requests agreeing on client order id, amount and email get the same control; card, address, name and URL fields do not enter it |
| `Signing.PaymentBaseSeparatesEndpoints` | lib/payneteasyPayment.class.php:961-962 | with the request fixed, two different endpoint ids give different signed strings |
| `Signing.PaymentBaseSeparatesClientOrderIds` | lib/payneteasyPayment.class.php:961-966 | with endpoint id, amount and email fixed, two different client order ids give different signed strings |
| `Signing.PaymentBaseSeparatesEmails` | lib/payneteasyPayment.class.php:961-966 | with endpoint id, client order id and amount fixed, two different emails give different signed strings |
| `Signing.SignStringSeparatesKeys` | lib/payneteasyPayment.class.php:971-974 | the key is appended last, so with the base string fixed two different control keys give different digest inputs |
| `Signing.PaymentBaseSeparatesAmounts` | lib/payneteasyPayment.class.php:961-967 | with the other signed fields fixed, two different amounts give different signed strings (the minor-unit numeral is injective) |
| `Php.Trim` | lib/payneteasyPayment.class.php:739 | `trim` leaves no space, tab, LF, CR, NUL or vertical tab at either end |
| `Php.TrimRemovesPadding` | lib/payneteasyPayment.class.php:739 | `trim` of padding + s + padding is s when s has no padding of its own |
| `Status.AvailableStatus` | lib/payneteasyPayment.class.php:716-737 | an entry exists exactly for approved, processing, refunded and declined, and no entry is the cancel row |
| `Status.MappingFor` | lib/payneteasyPayment.class.php:739-750 | the mapping is the table entry for the trimmed status (a missing status trims to ""), and the cancel row exactly when the table has no entry |
| `Status.Reconciled` | lib/payneteasyPayment.class.php:713-750 | no contract of its own: amount, currency and native id as `formalizeData` sets them (lines 883-886), the order's id (line 714), and the mapped state and type (lines 745-750); `Payment.PayneteasyPayment.ChangeStatus` returns exactly this value |
| `Status.ShouldRecord` | lib/payneteasyPayment.class.php:757-760 | no contract of its own: state AND type both differ from the recorded ones; the guard lemmas below pin it |
| `Status.MappingTable` | lib/payneteasyPayment.class.php:716-737 | approved -> (PAYMENT, CAPTURED, AUTH_CAPTURE); processing -> (AUTH, AUTH, AUTH_ONLY); refunded -> (REFUND, REFUNDED, REFUND); declined -> (DECLINE, DECLINED, CANCEL); no entry exactly for every other status |
| `Status.StateDeterminesMapping` | lib/payneteasyPayment.class.php:716-750 | across the table and the cancel branch the state determines the operation and the callback |
| `Status.PaddedStatusMapsLikeBare` | lib/payneteasyPayment.class.php:739-740 | in any status response, whatever other fields it carries, a listed status surrounded by whitespace maps like the bare status |
| `Status.UnknownStatusCancels` | lib/payneteasyPayment.class.php:743-750 | a missing or unlisted status maps to (CANCEL, CANCELED, CANCEL) |
| `Status.FirstReconciliationRecords` | lib/payneteasyPayment.class.php:757-760 | with no recorded transaction, or one without state and type, the guard always passes |
| `Status.RedeliveryIsNoOp` | lib/payneteasyPayment.class.php:757-763 | once a reconciled transaction is recorded, the same status delivered again passes the guard no more |
| `Status.SingleFieldChangeIsDropped` | lib/payneteasyPayment.class.php:757-760 | if only the state or only the type changed, nothing is saved or dispatched (logical AND) |
| `Status.GuardBetweenRows` | lib/payneteasyPayment.class.php:716-763 | between table rows the guard passes iff the rows differ and are not the declined and cancel rows, which share CANCEL: declined <-> canceled is never recorded |
| `Routing.AsNullableString` | lib/payneteasyPayment.class.php:15 | storing into the `?string $order_id` property: a string is kept, null stays null, an integer becomes its decimal numeral, `true` "1" and `false` "", an array throws a TypeError |
| `Routing.WebhookOrderId` | lib/payneteasyPayment.class.php:629-630 | the body's `object.order_id` when present, "" when it is missing or the body is empty; never null |
| `Routing.StatusKey` | lib/payneteasyPayment.class.php:663 | the stored id when there is one, the query's `order_id` otherwise; null only when both are missing |
| `Routing.HandlerUrlKind` | lib/payneteasyPayment.class.php:667-671 | no contract of its own: FAIL for DECLINED or CANCELED, SUCCESS otherwise (the same test at lines 680-684); `Routing.CallbackResponse` states it |
| `Routing.CorrelationId` | lib/payneteasyPayment.class.php:624-632 | return: the query's `order_id` (null if missing); webhook: a non-null id or an error; other types: the id unchanged |
| `Routing.WebhookWithoutIdDoesNotFallBack` | lib/payneteasyPayment.class.php:628-630 | a webhook without `object.order_id` sets the id to "", so the `??` at line 663 keys the status query by "" and never by the query's `order_id` |
| `Routing.WebhookIdComesFromBody` | lib/payneteasyPayment.class.php:628-630 | a webhook's id is the body's `object.order_id` string, whatever the query holds |
| `Routing.WebhookNumericIdIsDecimal` | lib/payneteasyPayment.class.php:628-630 | a webhook whose `object.order_id` is a JSON number is keyed by its decimal numeral, which is never "" |
| `Routing.OtherTypeFallsBackToQuery` | lib/payneteasyPayment.class.php:624-632 | for a type other than return or webhook the id stays null and the status query falls back to the query's `order_id` |
| `Routing.CallbackResponse` | lib/payneteasyPayment.class.php:666-687 | webhook iff the body is `OK`; every other type gets a redirect built from the transaction data, to FAIL iff the state is DECLINED or CANCELED, with message `return` iff the type is return |
| `Routing.GetFinalRedirectUrl` | lib/payneteasyPayment.class.php:776-788 | SUCCESS iff the state is CAPTURED or AUTH, FAIL otherwise |
| `Routing.RedirectRulesDivergeOnRefund` | lib/payneteasyPayment.class.php:776-788 | the two redirect rules (this one and lines 667 and 680) disagree exactly on REFUNDED: SUCCESS in `callbackHandler`, FAIL in `getFinalRedirectUrl` |
| `OrderLinks.OrderLinkStore.Upsert` | lib/payneteasyPayment.class.php:567-571 | replace-on-conflict: the row for the shop order now holds the new gateway id, other rows are unchanged, and the row count grows only for a new order |
| `OrderLinks.OrderLinkStore.RecordSaleResponse` | lib/payneteasyPayment.class.php:562-571 | a row is written iff the sale response carries the gateway's and the shop's order ids |
| `OrderLinks.OrderLinkStore.Lookup` | lib/payneteasyPayment.class.php:800-802 | the gateway id linked to the shop order, or null when no row exists |
| `OrderLinks.UpsertTwiceKeepsLatest` | lib/payneteasyPayment.class.php:569 | two upserts of one order on a store leave one row for it, holding the latest gateway id, with every other row unchanged |
| `Countries.LastMatch` | lib/payneteasyPayment.class.php:487-491 | no contract of its own: the code of the last matching entry, or null; `Countries.LastMatchIsLast` characterises it |
| `Countries.CountryIso` | lib/payneteasyPayment.class.php:504 | no contract of its own: `$country_iso ?? 'RU'`; `Countries.NoMatchGivesDefault` and `Countries.FindCountryIso` state it |
| `Countries.FindCountryIso` | lib/payneteasyPayment.class.php:487-491 | the loop's result is the code of the last matching entry, or `RU` |
| `Countries.LastMatchIsLast` | lib/payneteasyPayment.class.php:487-491 | the code found belongs to a matching entry with no matching entry after it; none is found iff no entry matches |
| `Countries.NoMatchGivesDefault` | lib/payneteasyPayment.class.php:504 | without a country name, or with one that matches nothing, the code is `RU` |
| `Payment.LoggedOrderId` | lib/payneteasyPayment.class.php:864 | the logged order id is "" exactly when the id is null, "" or "0", and the id itself otherwise |
| `Payment.ErrorMessage` | lib/payneteasyPayment.class.php:861-865 | no contract of its own: caller, " > executeErrorScenario > PaynetEasy exception : ", the message, "; Order id: ", the logged id and ";" |
| `Payment.SaleFields` | lib/payneteasyPayment.class.php:496-519 | no contract of its own: the sale request fields in the source's order, with description "Order # " + id and the resolved country code; `Payment.PayneteasyPayment.GetPayUrl` sends exactly this request |
| `Payment.ErrorContext` | lib/payneteasyPayment.class.php:859 | the logged context is the exception's own when it has `getContext`, the caller's otherwise |
| `Payment.OwnContextWins` | lib/payneteasyPayment.class.php:859 | a PaynetEasyException's context replaces any caller context; a waPaymentException's does not |
| `Payment.PayneteasyPayment.constructor` | lib/payneteasyPayment.class.php:15-16 | a fresh plugin object has no correlation id and empty ledger, dispatch list and error log |
| `Payment.PayneteasyPayment.ExecuteErrorScenario` | lib/payneteasyPayment.class.php:852-868 | exactly one error entry (caller, message, order id or "", chosen context) is appended and the same exception is rethrown |
| `Payment.PayneteasyPayment.CallbackInit` | lib/payneteasyPayment.class.php:589-614 | an absent or empty request throws "Invalid invoice number." with one log entry carrying the request; otherwise `app_id`, `merchant_id`, `type` default to "" and the id is set as `setOrderId` does; a TypeError escapes the catch without a log entry |
| `Payment.PayneteasyPayment.SetOrderId` | lib/payneteasyPayment.class.php:624-632 | the stored id becomes the correlation id for the request type, and stays unchanged when storing it throws |
| `Payment.PayneteasyPayment.StatusQuery` | lib/payneteasyPayment.class.php:813-818 | the status query carries login, the shop order id ("" for null) and the linked gateway id, signed in that order |
| `Payment.PayneteasyPayment.GetPaymentStatusData` | lib/payneteasyPayment.class.php:796-839 | the query sent is the linked, signed status query and its response is what the gateway answers |
| `Payment.PayneteasyPayment.ChangeStatus` | lib/payneteasyPayment.class.php:708-766 | the returned data carries the order id, amount, currency, the stored id as native id (line 886) and the mapped state and type; ledger and dispatch list grow by this transaction and its mapped callback iff both state and type differ from the recorded ones, and are unchanged otherwise |
| `Payment.PayneteasyPayment.CallbackHandler` | lib/payneteasyPayment.class.php:645-698 | the status query is keyed by `order_id ?? $request['order_id']`; a gateway failure is logged once with that id and the request, then rethrown, with nothing saved; otherwise the reconciled data is saved and dispatched as `changeStatus` does and the response follows `CallbackResponse` |
| `Payment.PayneteasyPayment.GetPayUrl` | lib/payneteasyPayment.class.php:435-574 | the sale request carries the last-matching country code and is signed over endpoint id, order id, amount and email; a failing sale call propagates with the link table unchanged; a response links the two order ids exactly when it names both |

## Left out

- Gateway HTTP calls (`PaynetApi::saleForm`, `saleDirect`, `status`) belong to the vendor SDK, so the gateway is a function parameter whose answer is either a response or a thrown exception, for the sale call as for the status query. The choice between the form and direct payment methods only changes which SDK call is made, so both are one gateway call here. A payment method that is neither leaves `$response` undefined in the source; that case is not modelled.
- `sha1` is a library hash, so it is a parameter. Properties that need distinct digests are stated on the signed string.
- Signing.PaymentBaseSeparatesAmounts: this and the other `Signing.*Separates*` lemmas (every field of both signed strings, and the control key) say that changing one input changes the string fed to `sha1`, not the digest. An arbitrary hash parameter may collide.
- Float arithmetic is not modelled. This covers `$data['amount'] * 100`, PHP's float-to-string rendering of it, and the tax/total sum. Amounts are integer minor units rendered in decimal.
- SQL through `waModel` is replaced by an in-memory map. The source interpolates ids unquoted, so a null, empty or non-numeric id makes the statement fail. Examples are the "" key of a webhook without an id, and a sale response without `merchant-order-id`.
- The schema of `payneteasy_payments` is not part of this model. The table is assumed to be keyed by `merchant_order_id`, so an upsert replaces the shop order's row. With a unique key on `paynet_order_id` instead, the statement at line 569 could leave several rows for one shop order, and which row the status query reads first (lines 800-802) would matter.
- OrderLinks.OrderLinkStore.RecordSaleResponse: when `paynet-order-id` is present but `merchant-order-id` is missing, the source's statement is malformed and throws. The model writes nothing and reports `false`.
- Logger wiring (`setPayneteasyLogger`), the debug channel and the `rand` log prefixes are I/O. Only the error channel is modelled, as `errorLog`.
- Platform code that is not visible is not modelled:
  - The order comes in as a value, replacing `waOrder::factory` and `shopOrderModel::getById`. The source looks the order up by `$request['order_id']` (line 656), while the status query is keyed by the correlation id (line 663). For a webhook the two can differ, and the model does not tie the `order` argument to either key.
  - The previously recorded transaction comes with it, replacing `getTransaction`.
  - `saveTransaction` is modelled as appending the data unchanged.
  - `execAppCallback` is recorded in `dispatched`.
  - `getBackUrl` becomes a `BackUrl` value.
  - `parent::callbackInit` and `parent::formalizeData` are not modelled; only the fields this plugin sets are.
  - `_w` translation is not modelled.
  - Exceptions those platform calls might throw are not modelled.
- Host globals are not modelled. `$_SERVER['REMOTE_ADDR']` becomes an input field. `php://input` becomes an already decoded body: `json_decode` is a library decoder, and JSON floats are not modelled. `die('OK')` becomes the response `Body("OK")`.
- Request parameters are strings. Array-valued query parameters are not modelled.
- `$request_type` is an uninitialised typed property in the source; the model starts it at "".
- Assembling the sale input from the order is data preparation, so the name split, contact lookups, card parameters and the base64/JSON return-URL blob are inputs.
- The country table (`getCountries`) is static data and `mb_strtolower` is a library function; both are parameters.
- Not modelled:
  - `payment()`, its view and the 3-D Secure branch.
  - `customFields`.
  - `allowedCurrency`, whose only use is commented out.
  - The configuration files `lib/config/settings.php` and `lib/config/plugin.php`.
- Concurrency is not modelled: each call runs alone. The recorded transaction (`order.prior`) is an input and is not tied to `ledger`. So the model neither rules out nor describes how two callbacks that read the same stale record interleave their saves in the source.
