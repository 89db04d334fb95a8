/**
 * The route handler (packages/mercadopago-next/src/server/handler.ts): the
 * last non-empty path segment selects one of four actions; the three
 * mutating actions accept POST only; a webhook is always acknowledged.
 *
 * A request is its method, its URL's pathname and its parsed JSON body (read
 * through each of the three casts the sub-handlers apply). URL parsing, body
 * parsing and JSON serialisation are not modelled: a response carries the
 * value that would be serialised. A sub-handler's rejected promise is not
 * caught by the handler: it is the outcome `Rejected`.
 */
module Handler {
  import opened Js
  import opened Types
  import Webhook
  import Checkout
  import Subscription

  // ============ PATH SEGMENTS ============

  /** `s.split("/")`. */
  function Split(s: string): (r: seq<string>)
    ensures |r| >= 1
    ensures forall i :: 0 <= i < |r| ==> '/' !in r[i]
  {
    if s == [] then [""]
    else
      var rest := Split(s[1..]);
      if s[0] == '/' then [""] + rest
      else [[s[0]] + rest[0]] + rest[1..]
  }

  /** `parts.join("/")`. */
  function Join(parts: seq<string>): string {
    if parts == [] then ""
    else if |parts| == 1 then parts[0]
    else parts[0] + "/" + Join(parts[1..])
  }

  /** Joining the pieces of a split gives back the string. */
  lemma {:induction false} JoinSplit(s: string)
    ensures Join(Split(s)) == s
  {
    if s != [] {
      var rest := Split(s[1..]);
      JoinSplit(s[1..]);
      if s[0] == '/' {
        assert Split(s) == [""] + rest;
        assert ([""] + rest)[1..] == rest;
        assert s == [s[0]] + s[1..];
      } else {
        var r := [[s[0]] + rest[0]] + rest[1..];
        assert Split(s) == r;
        if |rest| == 1 {
          assert s == [s[0]] + s[1..];
        } else {
          assert r[1..] == rest[1..];
          assert Join(rest) == rest[0] + "/" + Join(rest[1..]);
          assert s == [s[0]] + s[1..];
        }
      }
    }
  }

  /** `parts.filter(Boolean)`: the empty strings are dropped. */
  function FilterNonEmpty(parts: seq<string>): (r: seq<string>)
    ensures forall i :: 0 <= i < |r| ==> r[i] != "" && r[i] in parts
    ensures forall x :: x in parts && x != "" ==> x in r
    ensures (forall i :: 0 <= i < |parts| ==> parts[i] != "") ==> r == parts
    ensures |r| <= |parts|
  {
    if parts == [] then []
    else if parts[0] == "" then FilterNonEmpty(parts[1..])
    else [parts[0]] + FilterNonEmpty(parts[1..])
  }

  /** Filtering works piece by piece, so the kept pieces stay in order. */
  lemma {:induction false} FilterAppend(a: seq<string>, b: seq<string>)
    ensures FilterNonEmpty(a + b) == FilterNonEmpty(a) + FilterNonEmpty(b)
  {
    if a == [] {
      assert a + b == b;
    } else {
      assert (a + b)[1..] == a[1..] + b;
      FilterAppend(a[1..], b);
    }
  }

  /** The non-empty path segments: none is empty and none holds a slash. */
  function Segments(pathname: string): (r: seq<string>)
    ensures forall i :: 0 <= i < |r| ==> r[i] != "" && '/' !in r[i]
  {
    FilterNonEmpty(Split(pathname))
  }

  /** `pathSegments[pathSegments.length - 1]`: the last segment, if any. */
  function Action(pathname: string): (r: Option<string>)
    ensures r.Some? ==> r.value != "" && '/' !in r.value
    ensures r.Some? <==> Segments(pathname) != []
  {
    var segments := Segments(pathname);
    if segments == [] then None else Some(segments[|segments| - 1])
  }

  lemma {:induction false} SplitConcat(x: string, y: string)
    ensures Split(x + "/" + y) == Split(x) + Split(y)
  {
    if x == [] {
      assert x + "/" + y == "/" + y;
      assert ("/" + y)[1..] == y;
    } else {
      assert (x + "/" + y)[0] == x[0];
      assert (x + "/" + y)[1..] == x[1..] + "/" + y;
      SplitConcat(x[1..], y);
    }
  }

  lemma {:induction false} SplitWithoutSlash(a: string)
    requires '/' !in a
    ensures Split(a) == [a]
  {
    if a != [] {
      assert a[0] != '/';
      assert '/' !in a[1..] by {
        forall i | 0 <= i < |a[1..]| ensures a[1..][i] != '/' {
          assert a[1..][i] == a[i + 1];
        }
      }
      SplitWithoutSlash(a[1..]);
      assert a == [a[0]] + a[1..];
    }
  }

  /** A trailing slash does not change the action. */
  lemma TrailingSlashKeepsAction(pathname: string)
    ensures Action(pathname + "/") == Action(pathname)
  {
    assert pathname + "/" == pathname + "/" + "";
    SplitConcat(pathname, "");
    FilterAppend(Split(pathname), [""]);
    assert FilterNonEmpty([""]) == [];
    assert Segments(pathname + "/") == Segments(pathname);
  }

  /** The segment after the last slash, when non-empty, is the action. */
  lemma LastSegmentIsAction(prefix: string, segment: string)
    requires segment != "" && '/' !in segment
    ensures Action(prefix + "/" + segment) == Some(segment)
  {
    SplitConcat(prefix, segment);
    SplitWithoutSlash(segment);
    FilterAppend(Split(prefix), [segment]);
    assert FilterNonEmpty([segment]) == [segment];
  }

  predicate AllSlashes(s: string) {
    forall i :: 0 <= i < |s| ==> s[i] == '/'
  }

  lemma {:induction false} NoSegmentsIffAllSlashes(s: string)
    ensures Segments(s) == [] <==> AllSlashes(s)
  {
    if s != [] {
      NoSegmentsIffAllSlashes(s[1..]);
      var rest := Split(s[1..]);
      if s[0] == '/' {
        assert Split(s) == [""] + rest;
        FilterAppend([""], rest);
        assert FilterNonEmpty([""]) == [];
        assert Segments(s) == Segments(s[1..]);
        assert AllSlashes(s) <==> AllSlashes(s[1..]) by {
          if AllSlashes(s[1..]) {
            forall i | 0 <= i < |s| ensures s[i] == '/' {
              if i > 0 { assert s[i] == s[1..][i - 1]; }
            }
          }
          if AllSlashes(s) {
            forall i | 0 <= i < |s[1..]| ensures s[1..][i] == '/' {
              assert s[1..][i] == s[i + 1];
            }
          }
        }
      } else {
        var r := [[s[0]] + rest[0]] + rest[1..];
        assert Split(s) == r;
        assert r[0] != "";
        assert FilterNonEmpty(r) != [];
        assert !AllSlashes(s);
      }
    }
  }

  /** There is no action exactly when the path holds nothing but slashes ("" included). */
  lemma NoActionIffAllSlashes(pathname: string)
    ensures Action(pathname).None? <==> AllSlashes(pathname)
  {
    NoSegmentsIffAllSlashes(pathname);
  }

  // ============ RESPONSES ============

  /** The values the handler serialises as JSON. */
  datatype Payload =
    | ErrorPayload(error: string)
    | CheckoutPayload(checkout: CheckoutResponse)
    | SubscribePayload(subscription: SubscribeResponse)
    | ConfigPayload(publicKey: Option<string>)

  datatype ResponseBody = JsonText(payload: Payload) | NoBody

  datatype Response = Response(status: int, body: ResponseBody, headers: seq<(string, string)>)

  const JsonHeaders: seq<(string, string)> := [("Content-Type", "application/json")]

  /** `jsonResponse(data, status = 200)`. */
  function JsonResponse(data: Payload, status: int := 200): (r: Response)
    ensures r.status == status && r.headers == JsonHeaders && r.body == JsonText(data)
  {
    Response(status, JsonText(data), JsonHeaders)
  }

  const NotFound: Response := JsonResponse(ErrorPayload("Not Found"), 404)
  const MethodNotAllowed: Response := JsonResponse(ErrorPayload("Method not allowed"), 405)

  // ============ REQUESTS ============

  datatype RequestBody = RequestBody(asCheckout: CheckoutRequest, asSubscribe: SubscribeRequest, asWebhook: WebhookBody)

  datatype Request = Request(httpMethod: string, pathname: string, body: RequestBody)

  /** The SDK calls the handler reaches, as functions of their arguments. */
  datatype Sdk = Sdk(
    createPreference: Checkout.PreferenceBody -> PreferenceResponse,
    createPreApproval: Subscription.PreApprovalBody -> PreApprovalResponse,
    getPayment: string -> Option<PaymentResponse>,
    getPreApproval: string -> Option<PreApprovalResponse>)

  /** A response, or a rejected promise carrying the error thrown. */
  datatype Outcome = Respond(response: Response) | Rejected(error: Error)

  /** What reached the SDK and the `onEvent` callback. */
  datatype Effects =
    | NoEffects
    | PreferenceSent(preference: Option<Checkout.PreferenceBody>)
    | PreApprovalSent(preApproval: Option<Subscription.PreApprovalBody>)
    | WebhookProcessed(webhook: Webhook.WebhookOutcome)

  datatype HandlerResult = HandlerResult(outcome: Outcome, effects: Effects)

  // ============ SUB-HANDLERS ============

  /**
   * `handleCheckout`: anything but POST is answered 405 before the body is
   * read; a POST answers 200 with the checkout response, or rejects with the
   * error `createCheckout` throws.
   */
  function HandleCheckout(req: Request, config: MercadoPagoConfig, sdk: Sdk): (r: HandlerResult)
    ensures req.httpMethod != "POST" ==> r == HandlerResult(Respond(MethodNotAllowed), NoEffects)
    ensures req.httpMethod == "POST" ==>
              var c := Checkout.CreateCheckout(config, req.body.asCheckout, sdk.createPreference);
              && r.effects == PreferenceSent(c.sent)
              && (c.result.Ok? ==> r.outcome == Respond(JsonResponse(CheckoutPayload(c.result.value))))
              && (c.result.Err? ==> r.outcome == Rejected(c.result.error))
  {
    if req.httpMethod != "POST" then HandlerResult(Respond(MethodNotAllowed), NoEffects)
    else
      var c := Checkout.CreateCheckout(config, req.body.asCheckout, sdk.createPreference);
      match c.result
      case Ok(checkout) => HandlerResult(Respond(JsonResponse(CheckoutPayload(checkout))), PreferenceSent(c.sent))
      case Err(e) => HandlerResult(Rejected(e), PreferenceSent(c.sent))
  }

  /**
   * `handleSubscribe`: anything but POST is answered 405 before the body is
   * read; a POST answers 200 with the subscription response, or rejects with
   * the error `createSubscription` throws.
   */
  function HandleSubscribe(req: Request, config: MercadoPagoConfig, sdk: Sdk): (r: HandlerResult)
    ensures req.httpMethod != "POST" ==> r == HandlerResult(Respond(MethodNotAllowed), NoEffects)
    ensures req.httpMethod == "POST" ==>
              var s := Subscription.CreateSubscription(config, req.body.asSubscribe, sdk.createPreApproval);
              && r.effects == PreApprovalSent(s.sent)
              && (s.result.Ok? ==> r.outcome == Respond(JsonResponse(SubscribePayload(s.result.value))))
              && (s.result.Err? ==> r.outcome == Rejected(s.result.error))
  {
    if req.httpMethod != "POST" then HandlerResult(Respond(MethodNotAllowed), NoEffects)
    else
      var s := Subscription.CreateSubscription(config, req.body.asSubscribe, sdk.createPreApproval);
      match s.result
      case Ok(subscription) => HandlerResult(Respond(JsonResponse(SubscribePayload(subscription))), PreApprovalSent(s.sent))
      case Err(e) => HandlerResult(Rejected(e), PreApprovalSent(s.sent))
  }

  /**
   * `handleWebhook`: anything but POST is answered 405 before the body is
   * read; a POST is processed and acknowledged with 200 and an empty body,
   * whether or not it produced an event.
   */
  function HandleWebhook(req: Request, config: MercadoPagoConfig, sdk: Sdk): (r: HandlerResult)
    ensures req.httpMethod != "POST" ==> r == HandlerResult(Respond(MethodNotAllowed), NoEffects)
    ensures req.httpMethod == "POST" ==> r.outcome == Respond(Response(200, NoBody, []))
    ensures req.httpMethod == "POST" ==>
              r.effects == WebhookProcessed(Webhook.ProcessWebhook(req.body.asWebhook, config, sdk.getPayment, sdk.getPreApproval))
  {
    if req.httpMethod != "POST" then HandlerResult(Respond(MethodNotAllowed), NoEffects)
    else
      var processed := Webhook.ProcessWebhook(req.body.asWebhook, config, sdk.getPayment, sdk.getPreApproval);
      HandlerResult(Respond(Response(200, NoBody, [])), WebhookProcessed(processed))
  }

  /** `handleConfig`: 200 with the public key, or null when it is unset or empty. */
  function HandleConfig(config: MercadoPagoConfig): (r: Response)
    ensures r.status == 200 && r.headers == JsonHeaders && r.body.JsonText? && r.body.payload.ConfigPayload?
    ensures r.body.payload.publicKey.Some? <==> Truthy(config.publicKey)
    ensures r.body.payload.publicKey.Some? ==> r.body.payload.publicKey == config.publicKey
  {
    JsonResponse(ConfigPayload(OrUndefined(config.publicKey)))
  }

  // ============ ROUTING ============

  predicate IsKnownAction(action: Option<string>) {
    action == Some("checkout") || action == Some("subscribe") || action == Some("webhook") || action == Some("config")
  }

  predicate IsMutatingAction(action: Option<string>) {
    action == Some("checkout") || action == Some("subscribe") || action == Some("webhook")
  }

  /**
   * The handler returned by `createHandler`. An unknown action (no segment
   * included) is 404; a mutating action with any method but POST is 405 and
   * touches nothing; `config` answers any method; every JSON response
   * carries the JSON content type; only checkout and subscribe reject.
   */
  function Handle(req: Request, config: MercadoPagoConfig, sdk: Sdk): (r: HandlerResult)
    ensures !IsKnownAction(Action(req.pathname)) ==> r == HandlerResult(Respond(NotFound), NoEffects)
    ensures IsMutatingAction(Action(req.pathname)) && req.httpMethod != "POST" ==>
              r == HandlerResult(Respond(MethodNotAllowed), NoEffects)
    ensures Action(req.pathname) == Some("config") ==> r == HandlerResult(Respond(HandleConfig(config)), NoEffects)
    ensures Action(req.pathname) == Some("checkout") ==> r == HandleCheckout(req, config, sdk)
    ensures Action(req.pathname) == Some("subscribe") ==> r == HandleSubscribe(req, config, sdk)
    ensures Action(req.pathname) == Some("webhook") ==> r == HandleWebhook(req, config, sdk)
    ensures Action(req.pathname) == Some("webhook") && req.httpMethod == "POST" ==>
              r.outcome == Respond(Response(200, NoBody, []))
    ensures r.outcome.Respond? && r.outcome.response.body.JsonText? ==> r.outcome.response.headers == JsonHeaders
    ensures r.outcome.Rejected? ==>
              req.httpMethod == "POST" && (Action(req.pathname) == Some("checkout") || Action(req.pathname) == Some("subscribe"))
    ensures r.effects.WebhookProcessed? ==> Action(req.pathname) == Some("webhook") && req.httpMethod == "POST"
    ensures r.outcome.Respond? ==> r.outcome.response.status in {200, 404, 405}
    ensures r.outcome.Respond? && r.outcome.response.body.JsonText? ==>
              (r.outcome.response.status == 200 <==> !r.outcome.response.body.payload.ErrorPayload?)
  {
    var action := Action(req.pathname);
    if action == Some("checkout") then HandleCheckout(req, config, sdk)
    else if action == Some("subscribe") then HandleSubscribe(req, config, sdk)
    else if action == Some("webhook") then HandleWebhook(req, config, sdk)
    else if action == Some("config") then HandlerResult(Respond(HandleConfig(config)), NoEffects)
    else HandlerResult(Respond(NotFound), NoEffects)
  }

  /** A path made only of slashes, the empty path included, is not found. */
  lemma EmptyPathNotFound(req: Request, config: MercadoPagoConfig, sdk: Sdk)
    requires AllSlashes(req.pathname)
    ensures Handle(req, config, sdk) == HandlerResult(Respond(NotFound), NoEffects)
  {
    NoActionIffAllSlashes(req.pathname);
  }

  /** Appending a slash to the path does not change how a request is handled. */
  lemma TrailingSlashSameResult(req: Request, config: MercadoPagoConfig, sdk: Sdk)
    ensures Handle(req.(pathname := req.pathname + "/"), config, sdk) == Handle(req, config, sdk)
  {
    TrailingSlashKeepsAction(req.pathname);
  }

  // ============ THE UNCAUGHT REJECTION ============

  /**
   * As written, the sub-handlers' promises are returned from inside the
   * `try` without being awaited, so their rejections escape the `catch`: a
   * POST to any path ending in `/checkout` (such as `/api/mp/checkout`) with
   * no items and no product id rejects instead of answering 500.
   */
  lemma CheckoutErrorEscapesCatch(req: Request, prefix: string, config: MercadoPagoConfig, sdk: Sdk)
    requires req.httpMethod == "POST" && req.pathname == prefix + "/" + "checkout"
    requires !Checkout.HasCustomItems(req.body.asCheckout) && !Truthy(req.body.asCheckout.productId)
    ensures Handle(req, config, sdk).outcome == Rejected(NoItems)
  {
    LastSegmentIsAction(prefix, "checkout");
  }

  /**
   * The handler as its `catch` block intends it: a rejection of a
   * sub-handler becomes a 500 response carrying the error's message; every
   * other outcome is that of `Handle`.
   */
  function HandleCaught(req: Request, config: MercadoPagoConfig, sdk: Sdk): (r: HandlerResult)
    ensures r.outcome.Respond?
    ensures r.effects == Handle(req, config, sdk).effects
    ensures Handle(req, config, sdk).outcome.Respond? ==> r == Handle(req, config, sdk)
    ensures Handle(req, config, sdk).outcome.Rejected? ==>
              r.outcome == Respond(JsonResponse(ErrorPayload(Message(Handle(req, config, sdk).outcome.error)), 500))
    ensures r.outcome.response.status == 500 <==> Handle(req, config, sdk).outcome.Rejected?
  {
    var r := Handle(req, config, sdk);
    match r.outcome
    case Respond(_) => r
    case Rejected(e) => HandlerResult(Respond(JsonResponse(ErrorPayload(Message(e)), 500)), r.effects)
  }

  /** With the rejection caught, the same checkout answers 500 with the "No items provided" message. */
  lemma CaughtCheckoutErrorIs500(req: Request, prefix: string, config: MercadoPagoConfig, sdk: Sdk)
    requires req.httpMethod == "POST" && req.pathname == prefix + "/" + "checkout"
    requires !Checkout.HasCustomItems(req.body.asCheckout) && !Truthy(req.body.asCheckout.productId)
    ensures HandleCaught(req, config, sdk).outcome == Respond(JsonResponse(ErrorPayload(Message(NoItems)), 500))
  {
    CheckoutErrorEscapesCatch(req, prefix, config, sdk);
  }
}
