/**
 * Webhook processing (packages/mercadopago-next/src/server/webhook.ts):
 * dispatch on the webhook type, fetch the resource, map its status onto the
 * event taxonomy, normalise its fields and hand the event to `onEvent`.
 *
 * The fetch is an input: `getPayment` and `getPreApproval` stand for the
 * SDK's `Payment.get` and `PreApproval.get`, `None` for a missing resource.
 * The outcome records which fetch was made and every event `onEvent` was
 * called with.
 */
module Webhook {
  import opened Js
  import opened Types

  /** A resource fetch the webhook triggered. */
  datatype Fetch = PaymentGet(id: string) | PreApprovalGet(id: string)

  datatype WebhookOutcome = WebhookOutcome(
    fetched: Option<Fetch>,
    event: Option<MPEvent>,
    onEventCalls: seq<MPEvent>)

  // ============ EVENT TYPES ============

  predicate IsKnownPaymentStatus(s: string) {
    s in {"approved", "pending", "in_process", "rejected", "cancelled", "refunded", "charged_back"}
  }

  predicate IsKnownSubscriptionStatus(s: string) {
    s in {"authorized", "pending", "paused", "cancelled"}
  }

  predicate HasKnownPaymentStatus(payment: PaymentResponse) {
    payment.status.Some? && IsKnownPaymentStatus(payment.status.value)
  }

  predicate HasKnownSubscriptionStatus(subscription: PreApprovalResponse) {
    subscription.status.Some? && IsKnownSubscriptionStatus(subscription.status.value)
  }

  /** A payment id is truthy unless it is absent or 0. */
  predicate PaymentIdTruthy(id: Option<int>) {
    id.Some? && id.value != 0
  }

  /**
   * The seven known payment statuses map to "payment." + status; any other
   * status (absent included) maps to "payment.created" when the payment has
   * a truthy id, and to no event otherwise.
   */
  function NormalizePaymentEventType(payment: PaymentResponse): (r: Option<MPEventType>)
    ensures HasKnownPaymentStatus(payment) ==>
              r.Some? && EventTypeName(r.value) == PaymentPrefix + payment.status.value
    ensures !HasKnownPaymentStatus(payment) ==>
              r == (if PaymentIdTruthy(payment.id) then Some(PaymentCreated) else None)
    ensures r.Some? ==> IsPaymentEvent(r.value)
  {
    var s := if payment.status.Some? then payment.status.value else "";
    if payment.status.Some? && s == "approved" then Some(PaymentApproved)
    else if payment.status.Some? && s == "pending" then Some(PaymentPending)
    else if payment.status.Some? && s == "in_process" then Some(PaymentInProcess)
    else if payment.status.Some? && s == "rejected" then Some(PaymentRejected)
    else if payment.status.Some? && s == "cancelled" then Some(PaymentCancelled)
    else if payment.status.Some? && s == "refunded" then Some(PaymentRefunded)
    else if payment.status.Some? && s == "charged_back" then Some(PaymentChargedBack)
    else if PaymentIdTruthy(payment.id) then Some(PaymentCreated)
    else None
  }

  /**
   * The four known subscription statuses map to "subscription." + status;
   * every other status maps to no event.
   */
  function NormalizeSubscriptionEventType(subscription: PreApprovalResponse): (r: Option<MPEventType>)
    ensures HasKnownSubscriptionStatus(subscription) ==>
              r.Some? && EventTypeName(r.value) == SubscriptionPrefix + subscription.status.value
    ensures r.Some? <==> HasKnownSubscriptionStatus(subscription)
    ensures r.Some? ==> !IsPaymentEvent(r.value)
  {
    var s := if subscription.status.Some? then subscription.status.value else "";
    if subscription.status.Some? && s == "authorized" then Some(SubscriptionAuthorized)
    else if subscription.status.Some? && s == "pending" then Some(SubscriptionPending)
    else if subscription.status.Some? && s == "paused" then Some(SubscriptionPaused)
    else if subscription.status.Some? && s == "cancelled" then Some(SubscriptionCancelled)
    else None
  }

  /** `prefix + a == prefix + b` only when `a == b`. */
  lemma PrefixCancels(prefix: string, a: string, b: string)
    requires prefix + a == prefix + b
    ensures a == b
  {
    assert a == (prefix + a)[|prefix|..];
    assert b == (prefix + b)[|prefix|..];
  }

  /** Distinct known payment statuses give distinct event types. */
  lemma PaymentEventTypeInjective(p: PaymentResponse, q: PaymentResponse)
    requires HasKnownPaymentStatus(p) && HasKnownPaymentStatus(q)
    requires NormalizePaymentEventType(p) == NormalizePaymentEventType(q)
    ensures p.status == q.status
  {
    PrefixCancels(PaymentPrefix, p.status.value, q.status.value);
  }

  /** Distinct known subscription statuses give distinct event types. */
  lemma SubscriptionEventTypeInjective(s: PreApprovalResponse, t: PreApprovalResponse)
    requires NormalizeSubscriptionEventType(s).Some?
    requires NormalizeSubscriptionEventType(s) == NormalizeSubscriptionEventType(t)
    ensures s.status == t.status
  {
    PrefixCancels(SubscriptionPrefix, s.status.value, t.status.value);
  }

  // ============ EVENT DATA ============

  /**
   * Payment data: the status is "unknown" when absent or empty, and every
   * falsy optional field (a transaction amount of 0 included) is absent.
   */
  function NormalizePaymentData(payment: PaymentResponse): (d: MPEventData)
    ensures d.status == (if Truthy(payment.status) then payment.status.value else "unknown")
    ensures d.status != ""
    ensures d.id == (if payment.id.Some? then Some(NumberId(payment.id.value)) else None)
    ensures Truthy(payment.externalReference) ==> d.externalReference == payment.externalReference
    ensures Truthy(payment.currencyId) ==> d.currencyId == payment.currencyId
    ensures Truthy(payment.paymentMethodId) ==> d.paymentMethodId == payment.paymentMethodId
    ensures NumTruthy(payment.transactionAmount) ==> d.transactionAmount == payment.transactionAmount
    ensures !Truthy(payment.externalReference) ==> d.externalReference.None?
    ensures !Truthy(payment.currencyId) ==> d.currencyId.None?
    ensures !Truthy(payment.paymentMethodId) ==> d.paymentMethodId.None?
    ensures !NumTruthy(payment.transactionAmount) ==> d.transactionAmount.None?
    ensures d.payerEmail.Some? <==> payment.payer.Some? && Truthy(payment.payer.value.email)
    ensures d.payerEmail.Some? ==> d.payerEmail == payment.payer.value.email
    ensures d.metadata == payment.metadata
    ensures d.reason.None? && d.autoRecurring.None?
  {
    MPEventData(
      id := if payment.id.Some? then Some(NumberId(payment.id.value)) else None,
      status := Or(payment.status, "unknown"),
      externalReference := OrUndefined(payment.externalReference),
      metadata := payment.metadata,
      transactionAmount := NumOrUndefined(payment.transactionAmount),
      currencyId := OrUndefined(payment.currencyId),
      payerEmail := if payment.payer.Some? then OrUndefined(payment.payer.value.email) else None,
      paymentMethodId := OrUndefined(payment.paymentMethodId),
      reason := None,
      autoRecurring := None)
  }

  /**
   * Subscription data: `autoRecurring` is absent exactly when the resource
   * has no `auto_recurring`; otherwise its falsy numbers become 0 and its
   * falsy strings become "".
   */
  function NormalizeSubscriptionData(subscription: PreApprovalResponse): (d: MPEventData)
    ensures d.status == (if Truthy(subscription.status) then subscription.status.value else "unknown")
    ensures d.status != ""
    ensures d.id == (if subscription.id.Some? then Some(StringId(subscription.id.value)) else None)
    ensures Truthy(subscription.externalReference) ==> d.externalReference == subscription.externalReference
    ensures Truthy(subscription.reason) ==> d.reason == subscription.reason
    ensures !Truthy(subscription.externalReference) ==> d.externalReference.None?
    ensures !Truthy(subscription.reason) ==> d.reason.None?
    ensures d.autoRecurring.None? <==> subscription.autoRecurring.None?
    ensures d.autoRecurring.Some? ==>
              var a, ar := subscription.autoRecurring.value, d.autoRecurring.value;
              && ar.frequency == (if NumTruthy(a.frequency) then a.frequency.value else 0.0)
              && ar.transactionAmount == (if NumTruthy(a.transactionAmount) then a.transactionAmount.value else 0.0)
              && ar.frequencyType == (if Truthy(a.frequencyType) then a.frequencyType.value else "")
              && ar.currencyId == (if Truthy(a.currencyId) then a.currencyId.value else "")
    ensures d.metadata.None? && d.transactionAmount.None? && d.currencyId.None?
    ensures d.payerEmail.None? && d.paymentMethodId.None?
  {
    MPEventData(
      id := if subscription.id.Some? then Some(StringId(subscription.id.value)) else None,
      status := Or(subscription.status, "unknown"),
      externalReference := OrUndefined(subscription.externalReference),
      metadata := None,
      transactionAmount := None,
      currencyId := None,
      payerEmail := None,
      paymentMethodId := None,
      reason := OrUndefined(subscription.reason),
      autoRecurring :=
        if subscription.autoRecurring.Some? then
          var a := subscription.autoRecurring.value;
          Some(AutoRecurring(
            frequency := NumOr(a.frequency, 0.0),
            frequencyType := Or(a.frequencyType, ""),
            transactionAmount := NumOr(a.transactionAmount, 0.0),
            currencyId := Or(a.currencyId, "")))
        else None)
  }

  // ============ PROCESSING ============

  /** What `onEvent` is called with once `event` has been built. */
  function Notify(config: MercadoPagoConfig, event: MPEvent): seq<MPEvent> {
    if config.hasOnEvent then [event] else []
  }

  /**
   * A payment webhook, given the fetched payment: no event and no callback
   * when the payment is missing or yields no event type; otherwise one event
   * carrying the webhook's id, passed to `onEvent` once when it is set.
   */
  function ProcessPaymentWebhook(webhook: WebhookBody, paymentId: string, payment: Option<PaymentResponse>,
                                 config: MercadoPagoConfig): (r: WebhookOutcome)
    ensures r.fetched == Some(PaymentGet(paymentId))
    ensures r.event.Some? <==> payment.Some? && NormalizePaymentEventType(payment.value).Some?
    ensures r.event.Some? ==>
              && r.event.value.kind == NormalizePaymentEventType(payment.value).value
              && r.event.value.id == paymentId
              && r.event.value.data == NormalizePaymentData(payment.value)
              && r.event.value.raw == RawPayment(payment.value)
              && r.event.value.webhook == webhook
    ensures r.onEventCalls == (if r.event.Some? && config.hasOnEvent then [r.event.value] else [])
  {
    if payment.None? then WebhookOutcome(Some(PaymentGet(paymentId)), None, [])
    else
      var eventType := NormalizePaymentEventType(payment.value);
      if eventType.None? then WebhookOutcome(Some(PaymentGet(paymentId)), None, [])
      else
        var event := MPEvent(eventType.value, paymentId, NormalizePaymentData(payment.value),
                             RawPayment(payment.value), webhook);
        WebhookOutcome(Some(PaymentGet(paymentId)), Some(event), Notify(config, event))
  }

  /** A subscription webhook, given the fetched subscription; as for payments. */
  function ProcessSubscriptionWebhook(webhook: WebhookBody, subscriptionId: string,
                                      subscription: Option<PreApprovalResponse>,
                                      config: MercadoPagoConfig): (r: WebhookOutcome)
    ensures r.fetched == Some(PreApprovalGet(subscriptionId))
    ensures r.event.Some? <==> subscription.Some? && HasKnownSubscriptionStatus(subscription.value)
    ensures r.event.Some? ==>
              && r.event.value.kind == NormalizeSubscriptionEventType(subscription.value).value
              && r.event.value.id == subscriptionId
              && r.event.value.data == NormalizeSubscriptionData(subscription.value)
              && r.event.value.raw == RawPreApproval(subscription.value)
              && r.event.value.webhook == webhook
    ensures r.onEventCalls == (if r.event.Some? && config.hasOnEvent then [r.event.value] else [])
  {
    if subscription.None? then WebhookOutcome(Some(PreApprovalGet(subscriptionId)), None, [])
    else
      var eventType := NormalizeSubscriptionEventType(subscription.value);
      if eventType.None? then WebhookOutcome(Some(PreApprovalGet(subscriptionId)), None, [])
      else
        var event := MPEvent(eventType.value, subscriptionId, NormalizeSubscriptionData(subscription.value),
                             RawPreApproval(subscription.value), webhook);
        WebhookOutcome(Some(PreApprovalGet(subscriptionId)), Some(event), Notify(config, event))
  }

  predicate IsHandledWebhookType(kind: string) {
    kind == "payment" || kind == "subscription_preapproval"
  }

  /**
   * Dispatch on the webhook type. An unhandled type fetches nothing, yields
   * no event and calls nothing. A handled type fetches the resource named by
   * `data.id` and has the outcome of the matching processor; `onEvent` is
   * called at most once, only with the returned event, whose id is `data.id`.
   */
  function ProcessWebhook(body: WebhookBody, config: MercadoPagoConfig,
                          getPayment: string -> Option<PaymentResponse>,
                          getPreApproval: string -> Option<PreApprovalResponse>): (r: WebhookOutcome)
    ensures !IsHandledWebhookType(body.kind) ==> r == WebhookOutcome(None, None, [])
    ensures body.kind == "payment" ==> r.fetched == Some(PaymentGet(body.data.id))
    ensures body.kind == "subscription_preapproval" ==> r.fetched == Some(PreApprovalGet(body.data.id))
    ensures body.kind == "payment" ==> r == ProcessPaymentWebhook(body, body.data.id, getPayment(body.data.id), config)
    ensures body.kind == "subscription_preapproval" ==>
              r == ProcessSubscriptionWebhook(body, body.data.id, getPreApproval(body.data.id), config)
    ensures r.event.Some? ==> r.event.value.id == body.data.id && r.event.value.webhook == body
    ensures r.event.Some? ==> (IsPaymentEvent(r.event.value.kind) <==> body.kind == "payment")
    ensures |r.onEventCalls| <= 1
    ensures r.onEventCalls != [] <==> r.event.Some? && config.hasOnEvent
    ensures r.onEventCalls != [] ==> r.onEventCalls[0] == r.event.value
  {
    if body.kind == "payment" then
      ProcessPaymentWebhook(body, body.data.id, getPayment(body.data.id), config)
    else if body.kind == "subscription_preapproval" then
      ProcessSubscriptionWebhook(body, body.data.id, getPreApproval(body.data.id), config)
    else
      WebhookOutcome(None, None, [])
  }

  /** An approved payment's webhook yields the `payment.approved` event, with the normalised payment. */
  lemma ApprovedPaymentYieldsEvent(body: WebhookBody, config: MercadoPagoConfig,
                                   getPayment: string -> Option<PaymentResponse>,
                                   getPreApproval: string -> Option<PreApprovalResponse>)
    requires body.kind == "payment"
    requires getPayment(body.data.id).Some? && getPayment(body.data.id).value.status == Some("approved")
    ensures var r := ProcessWebhook(body, config, getPayment, getPreApproval);
            && r.event.Some? && EventTypeName(r.event.value.kind) == "payment.approved"
            && r.event.value.data == NormalizePaymentData(getPayment(body.data.id).value)
            && r.event.value.data.status == "approved"
  {
  }

  /** A missing resource never produces an event or a callback. */
  lemma MissingResourceIsSilent(body: WebhookBody, config: MercadoPagoConfig,
                                getPayment: string -> Option<PaymentResponse>,
                                getPreApproval: string -> Option<PreApprovalResponse>)
    requires body.kind == "payment" ==> getPayment(body.data.id).None?
    requires body.kind == "subscription_preapproval" ==> getPreApproval(body.data.id).None?
    ensures ProcessWebhook(body, config, getPayment, getPreApproval).event.None?
    ensures ProcessWebhook(body, config, getPayment, getPreApproval).onEventCalls == []
  {
  }
}
