# mercadopago-next, modelled in Dafny

A model of the server side of `mercadopago-next`, a small library that lets
a Next.js application create Mercado Pago checkouts (payment preferences) and
subscriptions (pre-approvals) and receive normalised webhook events. The
model covers the library's own decisions: how a webhook's resource status
is mapped onto the closed `MPEventType` taxonomy and how the event record is
normalised; how checkout items, item ids and back URLs are chosen; how a
subscription plan is resolved; and how the route handler dispatches on the
last path segment and the HTTP method.

The SDK calls (`Payment.get`, `PreApproval.get`, `PreApproval.create`,
`Preference.create`) are inputs: functions from what the library hands the
SDK to what the SDK answers. A missing resource is `None`. The `onEvent`
callback is opaque. The model records whether it is configured and which
events it is called with.

JavaScript's `||` is modelled exactly: an absent string and `""` are falsy,
and an absent number and `0` are falsy. So a quantity of `0` becomes `1`, a
custom `transactionAmount` of `0` is rejected, and a `transaction_amount` of
`0` is dropped from event data. JavaScript numbers are `real`, except ids, which are `int`. Thrown errors
are `Err` values of one `Error` datatype, and `Message` gives their texts.

Files, one module each:

- `Js.dfy`: `Option`, truthiness, `||`.
- `Types.dfy`: the records of `types.ts` and the SDK response fields read.
- `Webhook.dfy`: `webhook.ts`.
- `Checkout.dfy`: `checkout.ts`.
- `Subscription.dfy`: `subscription.ts`.
- `Handler.dfy`: `handler.ts`.

`type` is a reserved word in Dafny, so the `type` fields of `WebhookBody`
and `MPEvent` are named `kind`, and a request's method is `httpMethod`.

In `checkout.ts` the preference body is built as a literal and then extended
in place (lines 29-56). `Checkout.BuildPreferenceBody` does the same, step by
step, and proves the result equal to `Checkout.PreferenceBodyFor`.
`Checkout.CreateCheckout` and the handler use that function.

## Model

| member | source | states |
|---|---|---|
| Types.FrequencyTypeName | packages/mercadopago-next/src/server/types.ts:51 | the name sent as `frequency_type` is `"days"` exactly for `Days` and `"months"` exactly for `Months` |
| Types.EventTaxonomy | packages/mercadopago-next/src/server/types.ts:132-144 | exactly 12 event types, listed without repetition; the first 8 are payment events named `payment.*`, the last 4 subscription events named `subscription.*`; every value is listed |
| Types.EventTypeNameInjective | packages/mercadopago-next/src/server/types.ts:132-144 | distinct event types have distinct string names |
| Types.Message | packages/mercadopago-next/src/server/checkout.ts:20-22 | every thrown error's message starts with the `[mercadopago-next] ` tag and says more than the tag (texts of checkout.ts:20-22, 88-90, 64 and subscription.ts:18, 63-65, 73-75, 45) |
| Webhook.NormalizePaymentEventType | packages/mercadopago-next/src/server/webhook.ts:113-138 | each of the 7 known statuses yields the event named `"payment." + status`; any other or absent status yields `payment.created` iff the id is truthy (non-zero), else no event; only payment events come out |
| Webhook.PaymentEventTypeInjective | packages/mercadopago-next/src/server/webhook.ts:116-130 | two known payment statuses with the same event type are the same status |
| Webhook.NormalizeSubscriptionEventType | packages/mercadopago-next/src/server/webhook.ts:140-157 | an event exists iff the status is one of the 4 known ones; it is named `"subscription." + status` and is never a payment event |
| Webhook.SubscriptionEventTypeInjective | packages/mercadopago-next/src/server/webhook.ts:145-156 | two subscription statuses with the same event type are the same status |
| Webhook.NormalizePaymentData | packages/mercadopago-next/src/server/webhook.ts:159-170 | status is the truthy status or `"unknown"`, never empty; each optional field holds the source value when it is truthy; each falsy one (amount 0 included) is absent; payer email is present iff the payer has a truthy email; no subscription fields |
| Webhook.NormalizeSubscriptionData | packages/mercadopago-next/src/server/webhook.ts:172-187 | status the truthy status or `"unknown"`; `reason` and `external_reference` are copied when truthy and absent when falsy; `autoRecurring` is absent exactly when `auto_recurring` is; its numbers default to 0 and its strings to `""`; no payment fields |
| Webhook.ProcessPaymentWebhook | packages/mercadopago-next/src/server/webhook.ts:37-73 | the payment named by the id is fetched; an event exists iff the payment exists and has an event type; the event carries that type, the webhook's id, the normalised data, the raw payment and the webhook; `onEvent` gets exactly that event, once, iff set |
| Webhook.ProcessSubscriptionWebhook | packages/mercadopago-next/src/server/webhook.ts:75-111 | as for payments, with the pre-approval fetched and an event iff the subscription exists with a known status |
| Webhook.ProcessWebhook | packages/mercadopago-next/src/server/webhook.ts:16-35 | an unhandled type fetches nothing, yields nothing and calls nothing; a handled type fetches `data.id` from the matching API, and its outcome is that of the matching processor (`payment` to the payment processor, `subscription_preapproval` to the subscription one); the event's id is `data.id`; `onEvent` is called at most once, only with the returned event, and exactly when there is an event and a callback |
| Webhook.ApprovedPaymentYieldsEvent | packages/mercadopago-next/src/server/webhook.ts:24-26 | a payment webhook whose fetched payment is `approved` yields the `payment.approved` event carrying the normalised payment, status `"approved"` |
| Webhook.MissingResourceIsSilent | packages/mercadopago-next/src/server/webhook.ts:46-49 | a missing resource yields no event and no callback |
| Checkout.LowerCase | packages/mercadopago-next/src/server/checkout.ts:31 | the length is kept; no ASCII or Latin-1 capital is left; each capital moves to its small letter and every other character is kept; whitespace stays whitespace, so lower-casing does not change the runs the replacement sees |
| Checkout.ReplaceWhitespaceRuns | packages/mercadopago-next/src/server/checkout.ts:31 | the result holds no whitespace, is no longer than the input, and is empty iff the input is |
| Checkout.ReplaceWithoutWhitespace | packages/mercadopago-next/src/server/checkout.ts:31 | a string without whitespace is unchanged |
| Checkout.ReplaceRun | packages/mercadopago-next/src/server/checkout.ts:31 | a whitespace-free head, one maximal whitespace run, then the rest become head + one `_` + the rest replaced |
| Checkout.ReplaceIdempotent | packages/mercadopago-next/src/server/checkout.ts:31 | replacing twice equals replacing once |
| Checkout.MapItem | packages/mercadopago-next/src/server/checkout.ts:30-38 | a truthy id is kept, else the id is the lower-cased title with whitespace runs replaced (no whitespace left); currency is the truthy one or `"ARS"`, never empty; the other fields are copied |
| Checkout.MapItems | packages/mercadopago-next/src/server/checkout.ts:30 | the item count and order are preserved, each item mapped |
| Checkout.BuildItems | packages/mercadopago-next/src/server/checkout.ts:74-107 | non-empty items are returned unchanged; otherwise a truthy unknown product id is `ProductNotFound`, and a known one yields exactly one item with `id = productId`, the product's fields and the quantity (the truthy one, else 1; never 0); with neither, no items; the only error is `ProductNotFound` |
| Checkout.BuildBackUrls | packages/mercadopago-next/src/server/checkout.ts:109-123 | per slot, the request URL beats the config URL, which beats `(baseUrl or "")` + `/payment/success`, `/payment/failure` or `/payment/pending`; no slot is empty |
| Checkout.DefaultBackUrlsDistinct | packages/mercadopago-next/src/server/checkout.ts:116-121 | with no URL set anywhere, the three default URLs differ pairwise |
| Checkout.BuildPreferenceBody | packages/mercadopago-next/src/server/checkout.ts:29-56 | items are the mapped items; `auto_return` is `"approved"`; metadata is set iff given; `external_reference` and `payer.email` are set iff the request field is truthy, and then copied; the result equals `PreferenceBodyFor` |
| Checkout.MapPreferenceResponse | packages/mercadopago-next/src/server/checkout.ts:63-71 | success iff `init_point` and `id` are truthy, else `PreferenceFailed`; url and id copied; sandbox URL is the truthy sandbox point, else `init_point`; no field empty |
| Checkout.CreateCheckout | packages/mercadopago-next/src/server/checkout.ts:11-72 | a body is sent iff item selection succeeds with at least one item; a selection error is returned unchanged; an empty selection is `NoItems`; the body sent has at least one item, and the result maps the created preference |
| Checkout.CustomItemsWin | packages/mercadopago-next/src/server/checkout.ts:79-81 | non-empty custom items are sent, mapped, and `productId` does not change the outcome |
| Checkout.NoItemsRaised | packages/mercadopago-next/src/server/checkout.ts:19-23 | with neither items nor a product id, nothing is sent and `NoItems` is raised |
| Subscription.GetPlanConfig | packages/mercadopago-next/src/server/subscription.ts:54-85 | a truthy plan id returns the configured plan unchanged or `PlanNotFound`; without one, success iff reason, amount, frequency and frequency type are all truthy (0 is not), else `CustomPlanIncomplete`; the plan copies the five fields |
| Subscription.PlanIdIgnoresCustomFields | packages/mercadopago-next/src/server/subscription.ts:59-69 | with a plan id, changing the custom fields changes nothing |
| Subscription.SubscriptionBackUrl | packages/mercadopago-next/src/server/subscription.ts:25 | `backUrl`, else `baseUrl`, else `""` |
| Subscription.MapPreApprovalResponse | packages/mercadopago-next/src/server/subscription.ts:44-51 | success iff `init_point` and `id` are truthy, else `SubscriptionFailed`; url and id copied |
| Subscription.CreateSubscription | packages/mercadopago-next/src/server/subscription.ts:11-52 | a falsy payer email is `PayerEmailRequired`, and nothing is sent; a plan error is returned; a body is sent iff email and plan are fine: status `"pending"`, the payer email, the back URL, the plan's terms with the frequency type as its string name, currency the truthy one or `"ARS"`, the external reference; the result maps the SDK's answer |
| Subscription.EmailCheckedFirst | packages/mercadopago-next/src/server/subscription.ts:17-19 | without a payer email the outcome depends on neither the plan id, the config nor the SDK |
| Handler.Split | packages/mercadopago-next/src/server/handler.ts:18 | at least one piece, none holding a slash |
| Handler.JoinSplit | packages/mercadopago-next/src/server/handler.ts:18 | joining the pieces with `/` gives back the path |
| Handler.FilterNonEmpty | packages/mercadopago-next/src/server/handler.ts:18 | keeps only non-empty pieces, drawn from the input; every non-empty piece of the input is kept; a list without empty pieces is returned unchanged |
| Handler.FilterAppend | packages/mercadopago-next/src/server/handler.ts:18 | filtering a concatenation is the concatenation of the filtered parts, so the kept pieces stay in input order |
| Handler.JsonResponse | packages/mercadopago-next/src/server/handler.ts:102-109 | the response has the given status (200 by default), the JSON content-type header and the serialised payload |
| Handler.Segments | packages/mercadopago-next/src/server/handler.ts:18 | every segment is non-empty and slash-free |
| Handler.Action | packages/mercadopago-next/src/server/handler.ts:19 | an action exists iff there is a segment; it is non-empty and slash-free |
| Handler.TrailingSlashKeepsAction | packages/mercadopago-next/src/server/handler.ts:17-19 | a trailing slash does not change the action |
| Handler.LastSegmentIsAction | packages/mercadopago-next/src/server/handler.ts:19 | for any prefix, `prefix + "/" + s` with `s` non-empty and slash-free has action `s` |
| Handler.NoActionIffAllSlashes | packages/mercadopago-next/src/server/handler.ts:18-19 | there is no action exactly when the path is only slashes, the empty path included |
| Handler.HandleCheckout | packages/mercadopago-next/src/server/handler.ts:47-60 | any method but POST is 405 and sends nothing; a POST answers 200 with `createCheckout`'s response or rejects with its error |
| Handler.HandleSubscribe | packages/mercadopago-next/src/server/handler.ts:62-75 | any method but POST is 405 and sends nothing; a POST answers 200 with `createSubscription`'s response or rejects with its error |
| Handler.HandleWebhook | packages/mercadopago-next/src/server/handler.ts:77-94 | any method but POST is 405 and processes nothing; a POST is processed and answered 200 with an empty body, whatever the processing returned |
| Handler.HandleConfig | packages/mercadopago-next/src/server/handler.ts:96-100 | 200 with JSON headers; the public key is present iff truthy and then copied, else null |
| Handler.Handle | packages/mercadopago-next/src/server/handler.ts:12-45 | an unknown or missing action is 404 with no effect; a mutating action with a non-POST method is 405 with no effect; `config` answers any method; a POSTed webhook is 200; JSON responses carry `Content-Type: application/json`; statuses are 200, 404 or 405, and 200 exactly when not an error payload; only POSTed checkout and subscribe reject |
| Handler.EmptyPathNotFound | packages/mercadopago-next/src/server/handler.ts:32-33 | a path of only slashes (or empty) is 404 |
| Handler.TrailingSlashSameResult | packages/mercadopago-next/src/server/handler.ts:17-19 | appending a slash to the path does not change the handler's result |
| Handler.CheckoutErrorEscapesCatch | packages/mercadopago-next/src/server/handler.ts:21-43 | as written, a POST to any path ending in `/checkout` (for example `/api/mp/checkout`) with neither items nor a product id rejects with `NoItems` instead of reaching the `catch` |
| Handler.HandleCaught | packages/mercadopago-next/src/server/handler.ts:35-43 | the handler with the `catch` effective: it always responds; a rejection becomes 500 with the error message; everything else is `Handle`'s; 500 exactly when `Handle` rejects |
| Handler.CaughtCheckoutErrorIs500 | packages/mercadopago-next/src/server/handler.ts:35-43 | with the `catch` effective, the same request is answered 500 with the "No items provided" message |

## Left out

- SDK calls are inputs, not behaviour. Network failures and SDK exceptions (for example `Payment.get` throwing for an unknown id) are not modelled; a missing resource is `None`.
- `onEvent` is opaque. The model records its calls, but not its effects, its own failures, or the awaiting of its promise.
- `createMercadoPago` (server/core.ts) is wiring. Its only check, at lines 13-15, rejects a falsy `accessToken`; it is not modelled.
- The client helper (client/core.ts), the example app and the re-export files are not part of this model.
- Webhook signature verification: `webhookSecret` is declared but never checked, so there is nothing to model.
- URL parsing (`new URL`), `req.json()` and `JSON.stringify` are abstracted. A request is a method, a pathname and the parsed body read through the three casts. A response carries the value that would be serialised. Invalid JSON and its rejection are not modelled.
- The handler's `catch` (handler.ts:35-43) does not catch the sub-handlers' rejections, because they are returned without `await`. `Handler.Handle` models that: the outcome is `Rejected`. What the framework then does with a rejected handler is not modelled.
- Checkout.LowerCase: `toLowerCase` is modelled for ASCII and Latin-1 letters only. Other scripts' case mappings, including those that change length, are not modelled.
- Checkout.IsWhitespace: the `\s` class is a fixed list of the ECMAScript WhiteSpace and LineTerminator code points (the Unicode `Zs` set as of recent Unicode versions). It does not follow later Unicode revisions.
- Product and plan lookups see only the configured keys. In JavaScript, `config.products["toString"]` and similar keys would find inherited `Object.prototype` members; those are not modelled.
- JavaScript numbers are `real`, except ids, which are `int`. NaN (also falsy), infinities and floating-point rounding are not modelled.
- `Record<string, unknown>` metadata is `map<string, string>`. An object is always truthy, so presence is all the code tests.
- The TypeScript types are trusted. A `title` that is not a string, a `frequencyType` other than `"days"` or `"months"`, and a webhook without `data` (each would throw or pass through) are not modelled. A missing `payerEmail` is modelled, because the code checks it at run time.
- `console.warn`/`console.error` logging is not modelled.

## Findings

| source | as written | input that shows it | evidently intended | confidence | as-written member | corrected member |
|---|---|---|---|---|---|---|
| packages/mercadopago-next/src/server/handler.ts:21-43 | `return handleCheckout(...)` (also subscribe and webhook) inside `try` without `await`, so a rejection escapes the `catch` | POST `/api/mp/checkout` with body `{}`: `createCheckout` throws "No items provided" and the handler's promise rejects | the `catch` turns the error into a 500 JSON response carrying the message | high (not executed) | Handler.CheckoutErrorEscapesCatch | Handler.HandleCaught |
