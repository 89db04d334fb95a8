/**
 * The library's records (packages/mercadopago-next/src/server/types.ts) and
 * the fields of the payment SDK's responses that the server code reads.
 * SDK calls themselves are not modelled: their results are inputs.
 */
module Types {
  import opened Js

  /** `Record<string, unknown>`; the values are abstracted to strings. */
  type Metadata = map<string, string>

  // ============ CONFIG ============

  /** `"days" | "months"` */
  datatype FrequencyType = Days | Months

  /** The string the SDK expects as `frequency_type`. */
  function FrequencyTypeName(f: FrequencyType): (r: string)
    ensures r == "days" <==> f == Days
    ensures r == "months" <==> f == Months
  {
    match f
    case Days => "days"
    case Months => "months"
  }

  datatype ProductConfig = ProductConfig(
    title: string,
    unitPrice: real,
    currencyId: Option<string>,
    description: Option<string>,
    pictureUrl: Option<string>,
    categoryId: Option<string>)

  datatype PlanConfig = PlanConfig(
    reason: string,
    transactionAmount: real,
    currencyId: Option<string>,
    frequency: real,
    frequencyType: FrequencyType)

  /**
   * The library configuration. The `onEvent` callback is opaque: the model
   * only records whether one was given and which events it was called with.
   */
  datatype MercadoPagoConfig = MercadoPagoConfig(
    accessToken: string,
    publicKey: Option<string>,
    webhookSecret: Option<string>,
    baseUrl: Option<string>,
    successUrl: Option<string>,
    failureUrl: Option<string>,
    pendingUrl: Option<string>,
    products: Option<map<string, ProductConfig>>,
    plans: Option<map<string, PlanConfig>>,
    hasOnEvent: bool)

  // ============ CHECKOUT REQUEST/RESPONSE ============

  datatype CheckoutItem = CheckoutItem(
    id: Option<string>,
    title: string,
    unitPrice: real,
    quantity: real,
    currencyId: Option<string>,
    description: Option<string>,
    pictureUrl: Option<string>)

  datatype CheckoutRequest = CheckoutRequest(
    productId: Option<string>,
    items: Option<seq<CheckoutItem>>,
    quantity: Option<real>,
    metadata: Option<Metadata>,
    payerEmail: Option<string>,
    externalReference: Option<string>,
    successUrl: Option<string>,
    failureUrl: Option<string>,
    pendingUrl: Option<string>)

  datatype CheckoutResponse = CheckoutResponse(url: string, preferenceId: string, sandboxUrl: string)

  // ============ SUBSCRIPTION REQUEST/RESPONSE ============

  /**
   * `payerEmail` is declared required, but a parsed request body may lack
   * it, and the server checks it at run time; so it is optional here.
   */
  datatype SubscribeRequest = SubscribeRequest(
    planId: Option<string>,
    reason: Option<string>,
    transactionAmount: Option<real>,
    frequency: Option<real>,
    frequencyType: Option<FrequencyType>,
    currencyId: Option<string>,
    payerEmail: Option<string>,
    metadata: Option<Metadata>,
    externalReference: Option<string>,
    backUrl: Option<string>)

  datatype SubscribeResponse = SubscribeResponse(url: string, subscriptionId: string)

  // ============ SDK RESPONSES (the fields the server reads) ============

  datatype Payer = Payer(email: Option<string>)

  datatype PaymentResponse = PaymentResponse(
    id: Option<int>,
    status: Option<string>,
    externalReference: Option<string>,
    metadata: Option<Metadata>,
    transactionAmount: Option<real>,
    currencyId: Option<string>,
    payer: Option<Payer>,
    paymentMethodId: Option<string>)

  datatype AutoRecurringResponse = AutoRecurringResponse(
    frequency: Option<real>,
    frequencyType: Option<string>,
    transactionAmount: Option<real>,
    currencyId: Option<string>)

  /** Returned both by `PreApproval.get` and by `PreApproval.create`. */
  datatype PreApprovalResponse = PreApprovalResponse(
    id: Option<string>,
    status: Option<string>,
    externalReference: Option<string>,
    reason: Option<string>,
    autoRecurring: Option<AutoRecurringResponse>,
    initPoint: Option<string>)

  datatype PreferenceResponse = PreferenceResponse(
    id: Option<string>,
    initPoint: Option<string>,
    sandboxInitPoint: Option<string>)

  // ============ WEBHOOK EVENTS ============

  /** The closed taxonomy of normalised events. */
  datatype MPEventType =
    | PaymentCreated
    | PaymentApproved
    | PaymentPending
    | PaymentInProcess
    | PaymentRejected
    | PaymentCancelled
    | PaymentRefunded
    | PaymentChargedBack
    | SubscriptionAuthorized
    | SubscriptionPending
    | SubscriptionPaused
    | SubscriptionCancelled

  /** The string literal each event type stands for. */
  function EventTypeName(t: MPEventType): string {
    match t
    case PaymentCreated => "payment.created"
    case PaymentApproved => "payment.approved"
    case PaymentPending => "payment.pending"
    case PaymentInProcess => "payment.in_process"
    case PaymentRejected => "payment.rejected"
    case PaymentCancelled => "payment.cancelled"
    case PaymentRefunded => "payment.refunded"
    case PaymentChargedBack => "payment.charged_back"
    case SubscriptionAuthorized => "subscription.authorized"
    case SubscriptionPending => "subscription.pending"
    case SubscriptionPaused => "subscription.paused"
    case SubscriptionCancelled => "subscription.cancelled"
  }

  predicate IsPaymentEvent(t: MPEventType) {
    t.PaymentCreated? || t.PaymentApproved? || t.PaymentPending? || t.PaymentInProcess?
    || t.PaymentRejected? || t.PaymentCancelled? || t.PaymentRefunded? || t.PaymentChargedBack?
  }

  const PaymentPrefix: string := "payment."
  const SubscriptionPrefix: string := "subscription."

  const AllEventTypes: seq<MPEventType> := [
    PaymentCreated, PaymentApproved, PaymentPending, PaymentInProcess,
    PaymentRejected, PaymentCancelled, PaymentRefunded, PaymentChargedBack,
    SubscriptionAuthorized, SubscriptionPending, SubscriptionPaused, SubscriptionCancelled
  ]

  /**
   * The taxonomy has exactly twelve values: eight payment events, whose
   * names start with "payment.", followed by four subscription events,
   * whose names start with "subscription.".
   */
  lemma EventTaxonomy(t: MPEventType)
    ensures |AllEventTypes| == 12 && t in AllEventTypes
    ensures forall i, j :: 0 <= i < j < |AllEventTypes| ==> AllEventTypes[i] != AllEventTypes[j]
    ensures forall i :: 0 <= i < 8 ==> IsPaymentEvent(AllEventTypes[i])
    ensures forall i :: 8 <= i < 12 ==> !IsPaymentEvent(AllEventTypes[i])
    ensures IsPaymentEvent(t) ==> PaymentPrefix <= EventTypeName(t)
    ensures !IsPaymentEvent(t) ==> SubscriptionPrefix <= EventTypeName(t)
  {
    forall i | 0 <= i < |AllEventTypes| ensures EventTypeIndex(AllEventTypes[i]) == i {
    }
  }

  /** The position of an event type in `AllEventTypes`. */
  function EventTypeIndex(t: MPEventType): nat {
    match t
    case PaymentCreated => 0
    case PaymentApproved => 1
    case PaymentPending => 2
    case PaymentInProcess => 3
    case PaymentRejected => 4
    case PaymentCancelled => 5
    case PaymentRefunded => 6
    case PaymentChargedBack => 7
    case SubscriptionAuthorized => 8
    case SubscriptionPending => 9
    case SubscriptionPaused => 10
    case SubscriptionCancelled => 11
  }

  /** Distinct event types have distinct names. */
  lemma EventTypeNameInjective(a: MPEventType, b: MPEventType)
    ensures EventTypeName(a) == EventTypeName(b) ==> a == b
  {
  }

  // ============ NORMALISED EVENT ============

  /** A payment id is a number, a subscription id a string. */
  datatype ResourceId = NumberId(n: int) | StringId(s: string)

  datatype AutoRecurring = AutoRecurring(
    frequency: real,
    frequencyType: string,
    transactionAmount: real,
    currencyId: string)

  datatype MPEventData = MPEventData(
    id: Option<ResourceId>,
    status: string,
    externalReference: Option<string>,
    metadata: Option<Metadata>,
    transactionAmount: Option<real>,
    currencyId: Option<string>,
    payerEmail: Option<string>,
    paymentMethodId: Option<string>,
    reason: Option<string>,
    autoRecurring: Option<AutoRecurring>)

  datatype WebhookData = WebhookData(id: string)

  /** The webhook body; its `type` field is named `kind` here. */
  datatype WebhookBody = WebhookBody(
    id: int,
    liveMode: bool,
    kind: string,
    dateCreated: string,
    userId: int,
    apiVersion: string,
    action: string,
    data: WebhookData)

  datatype RawResource = RawPayment(payment: PaymentResponse) | RawPreApproval(preApproval: PreApprovalResponse)

  /** A normalised event; its `type` field is named `kind` here. */
  datatype MPEvent = MPEvent(
    kind: MPEventType,
    id: string,
    data: MPEventData,
    raw: RawResource,
    webhook: WebhookBody)

  // ============ ERRORS ============

  /** The errors the server code throws. */
  datatype Error =
    | NoItems
    | ProductNotFound(productId: string)
    | PreferenceFailed
    | PayerEmailRequired
    | PlanNotFound(planId: string)
    | CustomPlanIncomplete
    | SubscriptionFailed

  datatype Result<+T> = Ok(value: T) | Err(error: Error)

  const LibraryTag: string := "[mercadopago-next] "

  /** The message of each thrown error; every one carries the library tag. */
  function Message(e: Error): (m: string)
    ensures LibraryTag <= m && |m| > |LibraryTag|
  {
    LibraryTag +
    match e
    case NoItems => "No items provided. Use productId or items array."
    case ProductNotFound(id) => "Product \"" + id + "\" not found in config.products"
    case PreferenceFailed => "Failed to create preference"
    case PayerEmailRequired => "payerEmail is required for subscriptions"
    case PlanNotFound(id) => "Plan \"" + id + "\" not found in config.plans"
    case CustomPlanIncomplete =>
      "When not using planId, you must provide: reason, transactionAmount, frequency, frequencyType"
    case SubscriptionFailed => "Failed to create subscription"
  }
}
