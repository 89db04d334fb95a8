/**
 * Subscription creation (packages/mercadopago-next/src/server/subscription.ts):
 * the payer-email check, plan resolution (a configured plan or the custom
 * fields of the request), the back URL, the body handed to the SDK and the
 * mapping of its answer. `PreApproval.create` is an input: `create` maps the
 * body that would be sent to the SDK's answer.
 */
module Subscription {
  import opened Js
  import opened Types

  const DefaultCurrency: string := "ARS"

  function LookupPlan(config: MercadoPagoConfig, planId: string): Option<PlanConfig> {
    if config.plans.Some? && planId in config.plans.value then Some(config.plans.value[planId]) else None
  }

  /** All four custom fields are truthy; an amount or a frequency of 0 is not. */
  predicate CustomPlanComplete(data: SubscribeRequest) {
    Truthy(data.reason) && NumTruthy(data.transactionAmount) && NumTruthy(data.frequency)
    && data.frequencyType.Some?
  }

  /**
   * Plan resolution. A truthy `planId` returns the configured plan unchanged,
   * or fails when it is unknown. Without one, the four custom fields must all
   * be truthy, and the plan copies the five request fields verbatim.
   */
  function GetPlanConfig(config: MercadoPagoConfig, data: SubscribeRequest): (r: Result<PlanConfig>)
    ensures Truthy(data.planId) ==>
              r == (if LookupPlan(config, data.planId.value).Some? then Ok(LookupPlan(config, data.planId.value).value)
                    else Err(PlanNotFound(data.planId.value)))
    ensures !Truthy(data.planId) ==> (r.Ok? <==> CustomPlanComplete(data))
    ensures !Truthy(data.planId) && r.Err? ==> r.error == CustomPlanIncomplete
    ensures !Truthy(data.planId) && r.Ok? ==>
              && r.value.reason == data.reason.value
              && r.value.transactionAmount == data.transactionAmount.value
              && r.value.frequency == data.frequency.value
              && r.value.frequencyType == data.frequencyType.value
              && r.value.currencyId == data.currencyId
    ensures !Truthy(data.planId) && r.Ok? ==>
              r.value.reason != "" && r.value.transactionAmount != 0.0 && r.value.frequency != 0.0
  {
    if Truthy(data.planId) then
      var plan := LookupPlan(config, data.planId.value);
      if plan.None? then Err(PlanNotFound(data.planId.value)) else Ok(plan.value)
    else if !CustomPlanComplete(data) then Err(CustomPlanIncomplete)
    else Ok(PlanConfig(
      reason := data.reason.value,
      transactionAmount := data.transactionAmount.value,
      currencyId := data.currencyId,
      frequency := data.frequency.value,
      frequencyType := data.frequencyType.value))
  }

  /** With a plan id, the custom fields of the request play no part. */
  lemma PlanIdIgnoresCustomFields(config: MercadoPagoConfig, data: SubscribeRequest,
                                  reason: Option<string>, amount: Option<real>, frequency: Option<real>,
                                  frequencyType: Option<FrequencyType>, currencyId: Option<string>)
    requires Truthy(data.planId)
    ensures GetPlanConfig(config, data) ==
            GetPlanConfig(config, data.(reason := reason, transactionAmount := amount, frequency := frequency,
                                        frequencyType := frequencyType, currencyId := currencyId))
  {
  }

  datatype AutoRecurringBody = AutoRecurringBody(
    frequency: real,
    frequencyType: string,
    transactionAmount: real,
    currencyId: string)

  /** The body handed to `PreApproval.create`. */
  datatype PreApprovalBody = PreApprovalBody(
    backUrl: string,
    reason: string,
    autoRecurring: AutoRecurringBody,
    payerEmail: string,
    status: string,
    externalReference: Option<string>)

  /** `data.backUrl || config.baseUrl || ""` */
  function SubscriptionBackUrl(config: MercadoPagoConfig, data: SubscribeRequest): (r: string)
    ensures Truthy(data.backUrl) ==> r == data.backUrl.value
    ensures !Truthy(data.backUrl) && Truthy(config.baseUrl) ==> r == config.baseUrl.value
    ensures !Truthy(data.backUrl) && !Truthy(config.baseUrl) ==> r == ""
  {
    Or(data.backUrl, Or(config.baseUrl, ""))
  }

  function PreApprovalBodyFor(config: MercadoPagoConfig, data: SubscribeRequest, plan: PlanConfig, payerEmail: string)
    : PreApprovalBody
  {
    PreApprovalBody(
      backUrl := SubscriptionBackUrl(config, data),
      reason := plan.reason,
      autoRecurring := AutoRecurringBody(
        frequency := plan.frequency,
        frequencyType := FrequencyTypeName(plan.frequencyType),
        transactionAmount := plan.transactionAmount,
        currencyId := Or(plan.currencyId, DefaultCurrency)),
      payerEmail := payerEmail,
      status := "pending",
      externalReference := data.externalReference)
  }

  /** The created subscription as a response: it needs a truthy `init_point` and `id`. */
  function MapPreApprovalResponse(s: PreApprovalResponse): (r: Result<SubscribeResponse>)
    ensures r.Ok? <==> Truthy(s.initPoint) && Truthy(s.id)
    ensures r.Err? ==> r.error == SubscriptionFailed
    ensures r.Ok? ==> r.value.url == s.initPoint.value && r.value.subscriptionId == s.id.value
  {
    if !Truthy(s.initPoint) || !Truthy(s.id) then Err(SubscriptionFailed)
    else Ok(SubscribeResponse(s.initPoint.value, s.id.value))
  }

  /** The result of `createSubscription` and the body sent to the SDK, if any. */
  datatype SubscribeOutcome = SubscribeOutcome(result: Result<SubscribeResponse>, sent: Option<PreApprovalBody>)

  /**
   * `createSubscription`: a falsy payer email fails before anything else; a
   * body is sent exactly when the email is present and the plan resolves;
   * the body is always "pending", carries the payer's email, the plan's
   * terms and a currency defaulting to "ARS".
   */
  function CreateSubscription(config: MercadoPagoConfig, data: SubscribeRequest,
                              create: PreApprovalBody -> PreApprovalResponse): (r: SubscribeOutcome)
    ensures !Truthy(data.payerEmail) ==> r == SubscribeOutcome(Err(PayerEmailRequired), None)
    ensures Truthy(data.payerEmail) && GetPlanConfig(config, data).Err? ==>
              r == SubscribeOutcome(Err(GetPlanConfig(config, data).error), None)
    ensures r.sent.Some? <==> Truthy(data.payerEmail) && GetPlanConfig(config, data).Ok?
    ensures r.sent.Some? ==>
              var body, plan := r.sent.value, GetPlanConfig(config, data).value;
              && body.status == "pending"
              && body.payerEmail == data.payerEmail.value
              && body.backUrl == SubscriptionBackUrl(config, data)
              && body.reason == plan.reason
              && body.autoRecurring.frequency == plan.frequency
              && body.autoRecurring.frequencyType == FrequencyTypeName(plan.frequencyType)
              && body.autoRecurring.transactionAmount == plan.transactionAmount
              && body.autoRecurring.currencyId == (if Truthy(plan.currencyId) then plan.currencyId.value else DefaultCurrency)
              && body.autoRecurring.currencyId != ""
              && body.externalReference == data.externalReference
    ensures r.sent.Some? ==> r.result == MapPreApprovalResponse(create(r.sent.value))
    ensures r.result.Ok? ==> r.sent.Some?
  {
    if !Truthy(data.payerEmail) then SubscribeOutcome(Err(PayerEmailRequired), None)
    else
      match GetPlanConfig(config, data)
      case Err(e) => SubscribeOutcome(Err(e), None)
      case Ok(plan) =>
        var body := PreApprovalBodyFor(config, data, plan, data.payerEmail.value);
        SubscribeOutcome(MapPreApprovalResponse(create(body)), Some(body))
  }

  /** The email check comes first: without an email, plans and config do not matter. */
  lemma EmailCheckedFirst(config: MercadoPagoConfig, config': MercadoPagoConfig, data: SubscribeRequest,
                          planId: Option<string>, create: PreApprovalBody -> PreApprovalResponse,
                          create': PreApprovalBody -> PreApprovalResponse)
    requires !Truthy(data.payerEmail)
    ensures CreateSubscription(config, data, create) == CreateSubscription(config', data.(planId := planId), create')
  {
  }
}
