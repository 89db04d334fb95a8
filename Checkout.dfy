/**
 * Checkout preference building (packages/mercadopago-next/src/server/checkout.ts):
 * item selection, back-URL defaulting, the item mapping with its derived
 * ids, the optional fields of the preference body, and the mapping of the
 * created preference onto the checkout response. `Preference.create` is an
 * input: `create` maps the body that would be sent to the SDK's answer.
 */
module Checkout {
  import opened Js
  import opened Types

  const DefaultCurrency: string := "ARS"

  // ============ ITEM ID SLUG ============

  /**
   * The regular-expression class `\s`: the ECMAScript WhiteSpace and
   * LineTerminator code points.
   */
  predicate IsWhitespace(c: char) {
    c == '\t' || c == '\n' || c == '\U{B}' || c == '\U{C}' || c == '\r' || c == ' '
    || c == '\U{A0}' || c == '\U{1680}' || ('\U{2000}' <= c <= '\U{200A}')
    || c == '\U{2028}' || c == '\U{2029}' || c == '\U{202F}' || c == '\U{205F}'
    || c == '\U{3000}' || c == '\U{FEFF}'
  }

  predicate NoWhitespace(s: string) {
    forall i :: 0 <= i < |s| ==> !IsWhitespace(s[i])
  }

  predicate AllWhitespace(s: string) {
    forall i :: 0 <= i < |s| ==> IsWhitespace(s[i])
  }

  /** An ASCII or Latin-1 capital letter (U+00D7, the multiplication sign, is not one). */
  predicate IsUpper(c: char) {
    'A' <= c <= 'Z' || ('\U{C0}' <= c <= '\U{DE}' && c != '\U{D7}')
  }

  /** `toLowerCase` on one character, for the ASCII and Latin-1 letters. */
  function LowerChar(c: char): char {
    if IsUpper(c) then (c as int + 32) as char else c
  }

  /**
   * `toLowerCase`: each capital letter becomes its small letter, 32 code
   * points on; every other character, whitespace included, is kept.
   */
  function LowerCase(s: string): (r: string)
    ensures |r| == |s|
    ensures forall i :: 0 <= i < |r| ==> !IsUpper(r[i])
    ensures forall i :: 0 <= i < |s| ==> !IsUpper(s[i]) ==> r[i] == s[i]
    ensures forall i :: 0 <= i < |s| ==> IsUpper(s[i]) ==> r[i] as int == s[i] as int + 32
    ensures forall i :: 0 <= i < |s| ==> (IsWhitespace(r[i]) <==> IsWhitespace(s[i]))
  {
    seq(|s|, i requires 0 <= i < |s| => LowerChar(s[i]))
  }

  /** The longest suffix of `s` that does not start with whitespace. */
  function DropLeadingWhitespace(s: string): (r: string)
    ensures |r| <= |s| && r == s[|s| - |r|..]
    ensures r == [] || !IsWhitespace(r[0])
    ensures AllWhitespace(s[..|s| - |r|])
  {
    if s != [] && IsWhitespace(s[0]) then
      var r := DropLeadingWhitespace(s[1..]);
      assert s[..|s| - |r|] == [s[0]] + s[1..][..|s| - 1 - |r|];
      r
    else s
  }

  /** `s.replace(/\s+/g, "_")`: every maximal whitespace run becomes one "_". */
  function ReplaceWhitespaceRuns(s: string): (r: string)
    ensures NoWhitespace(r)
    ensures |r| <= |s|
    ensures r == [] <==> s == []
    decreases |s|
  {
    if s == [] then []
    else if IsWhitespace(s[0]) then "_" + ReplaceWhitespaceRuns(DropLeadingWhitespace(s[1..]))
    else [s[0]] + ReplaceWhitespaceRuns(s[1..])
  }

  /** A string without whitespace is left unchanged. */
  lemma {:induction false} ReplaceWithoutWhitespace(s: string)
    requires NoWhitespace(s)
    ensures ReplaceWhitespaceRuns(s) == s
  {
    if s != [] {
      assert !IsWhitespace(s[0]);
      ReplaceWithoutWhitespace(s[1..]);
    }
  }

  /** Replacing twice is replacing once. */
  lemma ReplaceIdempotent(s: string)
    ensures ReplaceWhitespaceRuns(ReplaceWhitespaceRuns(s)) == ReplaceWhitespaceRuns(s)
  {
    ReplaceWithoutWhitespace(ReplaceWhitespaceRuns(s));
  }

  /** Dropping a whitespace run followed by a non-whitespace rest leaves the rest. */
  lemma {:induction false} DropRun(w: string, b: string)
    requires AllWhitespace(w)
    requires b == [] || !IsWhitespace(b[0])
    ensures DropLeadingWhitespace(w + b) == b
  {
    if w != [] {
      assert (w + b)[1..] == w[1..] + b;
      DropRun(w[1..], b);
    } else {
      assert w + b == b;
    }
  }

  /**
   * A whitespace-free head, then a non-empty whitespace run, then a rest not
   * starting with whitespace: the head is kept and the run becomes one "_".
   */
  lemma {:induction false} ReplaceRun(a: string, w: string, b: string)
    requires NoWhitespace(a) && |w| > 0 && AllWhitespace(w)
    requires b == [] || !IsWhitespace(b[0])
    ensures ReplaceWhitespaceRuns(a + w + b) == a + "_" + ReplaceWhitespaceRuns(b)
  {
    if a == [] {
      assert a + w + b == w + b;
      assert (w + b)[1..] == w[1..] + b;
      DropRun(w[1..], b);
    } else {
      assert (a + w + b)[0] == a[0];
      assert (a + w + b)[1..] == a[1..] + w + b;
      ReplaceRun(a[1..], w, b);
      assert a + "_" + ReplaceWhitespaceRuns(b) == [a[0]] + (a[1..] + "_" + ReplaceWhitespaceRuns(b));
    }
  }

  /** The id derived from a title: lower-cased, whitespace runs replaced by "_". */
  function Slug(title: string): string {
    ReplaceWhitespaceRuns(LowerCase(title))
  }

  // ============ ITEMS ============

  /** An item of the preference body sent to the SDK. */
  datatype PreferenceItem = PreferenceItem(
    id: string,
    title: string,
    unitPrice: real,
    quantity: real,
    currencyId: string,
    description: Option<string>,
    pictureUrl: Option<string>)

  /**
   * One item of `items.map(...)`: a truthy id is kept, otherwise the id is
   * the title's slug (which holds no whitespace); the currency defaults to
   * "ARS"; the other fields are copied.
   */
  function MapItem(item: CheckoutItem): (r: PreferenceItem)
    ensures Truthy(item.id) ==> r.id == item.id.value
    ensures !Truthy(item.id) ==> r.id == Slug(item.title) && NoWhitespace(r.id)
    ensures r.currencyId == (if Truthy(item.currencyId) then item.currencyId.value else DefaultCurrency)
    ensures r.currencyId != ""
    ensures r.title == item.title && r.unitPrice == item.unitPrice && r.quantity == item.quantity
    ensures r.description == item.description && r.pictureUrl == item.pictureUrl
  {
    PreferenceItem(
      id := if Truthy(item.id) then item.id.value else Slug(item.title),
      title := item.title,
      unitPrice := item.unitPrice,
      quantity := item.quantity,
      currencyId := Or(item.currencyId, DefaultCurrency),
      description := item.description,
      pictureUrl := item.pictureUrl)
  }

  /** `items.map(...)`: the count and the order of the items are preserved. */
  function MapItems(items: seq<CheckoutItem>): (r: seq<PreferenceItem>)
    ensures |r| == |items|
    ensures forall i :: 0 <= i < |items| ==> r[i] == MapItem(items[i])
  {
    if items == [] then [] else [MapItem(items[0])] + MapItems(items[1..])
  }

  function LookupProduct(config: MercadoPagoConfig, productId: string): Option<ProductConfig> {
    if config.products.Some? && productId in config.products.value then Some(config.products.value[productId])
    else None
  }

  predicate HasCustomItems(data: CheckoutRequest) {
    data.items.Some? && |data.items.value| > 0
  }

  /**
   * Item selection: a non-empty `items` list wins and is returned unchanged;
   * otherwise a truthy `productId` must name a configured product, which
   * yields exactly one item; with neither, the list is empty.
   */
  function BuildItems(config: MercadoPagoConfig, data: CheckoutRequest): (r: Result<seq<CheckoutItem>>)
    ensures HasCustomItems(data) ==> r == Ok(data.items.value)
    ensures !HasCustomItems(data) && Truthy(data.productId) && LookupProduct(config, data.productId.value).None? ==>
              r == Err(ProductNotFound(data.productId.value))
    ensures !HasCustomItems(data) && Truthy(data.productId) && LookupProduct(config, data.productId.value).Some? ==>
              var p := LookupProduct(config, data.productId.value).value;
                  && r.Ok? && |r.value| == 1
                  && r.value[0].id == data.productId
                  && r.value[0].title == p.title && r.value[0].unitPrice == p.unitPrice
                  && r.value[0].currencyId == p.currencyId && r.value[0].description == p.description
                  && r.value[0].pictureUrl == p.pictureUrl
                  && r.value[0].quantity == (if NumTruthy(data.quantity) then data.quantity.value else 1.0)
                  && r.value[0].quantity != 0.0
    ensures !HasCustomItems(data) && !Truthy(data.productId) ==> r == Ok([])
    ensures r.Err? ==> r.error.ProductNotFound?
  {
    if HasCustomItems(data) then Ok(data.items.value)
    else if Truthy(data.productId) then
      var product := LookupProduct(config, data.productId.value);
      if product.None? then Err(ProductNotFound(data.productId.value))
      else
        var p := product.value;
        Ok([CheckoutItem(
          id := data.productId,
          title := p.title,
          unitPrice := p.unitPrice,
          quantity := NumOr(data.quantity, 1.0),
          currencyId := p.currencyId,
          description := p.description,
          pictureUrl := p.pictureUrl)])
    else Ok([])
  }

  // ============ BACK URLS ============

  datatype BackUrls = BackUrls(success: string, failure: string, pending: string)

  /** One slot: the request's URL, else the config's, else base URL + suffix. */
  function BackUrl(requestUrl: Option<string>, configUrl: Option<string>, baseUrl: string, suffix: string): string {
    Or(requestUrl, Or(configUrl, baseUrl + suffix))
  }

  const SuccessSuffix: string := "/payment/success"
  const FailureSuffix: string := "/payment/failure"
  const PendingSuffix: string := "/payment/pending"

  /**
   * Per slot, the request URL wins over the config URL, which wins over
   * `(baseUrl || "")` followed by the slot's fixed path; no slot is empty.
   */
  function BuildBackUrls(config: MercadoPagoConfig, data: CheckoutRequest): (r: BackUrls)
    ensures r.success == (if Truthy(data.successUrl) then data.successUrl.value
                          else if Truthy(config.successUrl) then config.successUrl.value
                          else Or(config.baseUrl, "") + SuccessSuffix)
    ensures r.failure == (if Truthy(data.failureUrl) then data.failureUrl.value
                          else if Truthy(config.failureUrl) then config.failureUrl.value
                          else Or(config.baseUrl, "") + FailureSuffix)
    ensures r.pending == (if Truthy(data.pendingUrl) then data.pendingUrl.value
                          else if Truthy(config.pendingUrl) then config.pendingUrl.value
                          else Or(config.baseUrl, "") + PendingSuffix)
    ensures r.success != "" && r.failure != "" && r.pending != ""
  {
    var baseUrl := Or(config.baseUrl, "");
    BackUrls(
      success := BackUrl(data.successUrl, config.successUrl, baseUrl, SuccessSuffix),
      failure := BackUrl(data.failureUrl, config.failureUrl, baseUrl, FailureSuffix),
      pending := BackUrl(data.pendingUrl, config.pendingUrl, baseUrl, PendingSuffix))
  }

  /** With no URL configured anywhere, the three defaults are pairwise distinct. */
  lemma DefaultBackUrlsDistinct(config: MercadoPagoConfig, data: CheckoutRequest)
    requires !Truthy(data.successUrl) && !Truthy(config.successUrl)
    requires !Truthy(data.failureUrl) && !Truthy(config.failureUrl)
    requires !Truthy(data.pendingUrl) && !Truthy(config.pendingUrl)
    ensures var r := BuildBackUrls(config, data);
            r.success != r.failure && r.failure != r.pending && r.success != r.pending
  {
    var b := Or(config.baseUrl, "");
    var r := BuildBackUrls(config, data);
    assert r.success[|b| + 9] == 's' && r.failure[|b| + 9] == 'f' && r.pending[|b| + 9] == 'p';
  }

  // ============ PREFERENCE BODY ============

  datatype PreferencePayer = PreferencePayer(email: string)

  datatype PreferenceBody = PreferenceBody(
    items: seq<PreferenceItem>,
    backUrls: BackUrls,
    autoReturn: string,
    metadata: Option<Metadata>,
    externalReference: Option<string>,
    payer: Option<PreferencePayer>)

  /** The preference body as one value: the literal plus the optional fields. */
  function PreferenceBodyFor(items: seq<CheckoutItem>, backUrls: BackUrls, data: CheckoutRequest): PreferenceBody {
    PreferenceBody(
      items := MapItems(items),
      backUrls := backUrls,
      autoReturn := "approved",
      metadata := data.metadata,
      externalReference := if Truthy(data.externalReference) then data.externalReference else None,
      payer := if Truthy(data.payerEmail) then Some(PreferencePayer(data.payerEmail.value)) else None)
  }

  /**
   * The body is built as a literal and then extended in place: `metadata`,
   * `external_reference` and `payer` are set only when the request's field
   * is truthy; `auto_return` is always "approved".
   */
  method BuildPreferenceBody(items: seq<CheckoutItem>, backUrls: BackUrls, data: CheckoutRequest)
    returns (body: PreferenceBody)
    ensures body.items == MapItems(items) && |body.items| == |items|
    ensures body.backUrls == backUrls
    ensures body.autoReturn == "approved"
    ensures body.metadata == data.metadata
    ensures body.externalReference.Some? <==> Truthy(data.externalReference)
    ensures body.externalReference.Some? ==> body.externalReference == data.externalReference
    ensures body.payer.Some? <==> Truthy(data.payerEmail)
    ensures body.payer.Some? ==> body.payer.value.email == data.payerEmail.value
    ensures body == PreferenceBodyFor(items, backUrls, data)
  {
    body := PreferenceBody(MapItems(items), backUrls, "approved", None, None, None);
    if data.metadata.Some? {
      body := body.(metadata := data.metadata);
    }
    if Truthy(data.externalReference) {
      body := body.(externalReference := data.externalReference);
    }
    if Truthy(data.payerEmail) {
      body := body.(payer := Some(PreferencePayer(data.payerEmail.value)));
    }
  }

  // ============ CREATE CHECKOUT ============

  /**
   * The created preference as a response: it needs a truthy `init_point` and
   * `id`; the sandbox URL falls back to `init_point`.
   */
  function MapPreferenceResponse(p: PreferenceResponse): (r: Result<CheckoutResponse>)
    ensures r.Ok? <==> Truthy(p.initPoint) && Truthy(p.id)
    ensures r.Err? ==> r.error == PreferenceFailed
    ensures r.Ok? ==> r.value.url == p.initPoint.value && r.value.preferenceId == p.id.value
    ensures r.Ok? ==> r.value.sandboxUrl == (if Truthy(p.sandboxInitPoint) then p.sandboxInitPoint.value else p.initPoint.value)
    ensures r.Ok? ==> r.value.url != "" && r.value.preferenceId != "" && r.value.sandboxUrl != ""
  {
    if !Truthy(p.initPoint) || !Truthy(p.id) then Err(PreferenceFailed)
    else Ok(CheckoutResponse(p.initPoint.value, p.id.value, Or(p.sandboxInitPoint, p.initPoint.value)))
  }

  /** The result of `createCheckout` and the body sent to the SDK, if any. */
  datatype CheckoutOutcome = CheckoutOutcome(result: Result<CheckoutResponse>, sent: Option<PreferenceBody>)

  /**
   * `createCheckout`: a body is sent exactly when item selection succeeds
   * with at least one item; an empty selection is the "No items provided"
   * error; on success the response comes from the created preference.
   */
  function CreateCheckout(config: MercadoPagoConfig, data: CheckoutRequest,
                          create: PreferenceBody -> PreferenceResponse): (r: CheckoutOutcome)
    ensures r.sent.Some? <==> BuildItems(config, data).Ok? && BuildItems(config, data).value != []
    ensures BuildItems(config, data).Err? ==> r == CheckoutOutcome(Err(BuildItems(config, data).error), None)
    ensures BuildItems(config, data) == Ok([]) ==> r == CheckoutOutcome(Err(NoItems), None)
    ensures r.sent.Some? ==>
              && r.sent.value == PreferenceBodyFor(BuildItems(config, data).value, BuildBackUrls(config, data), data)
              && |r.sent.value.items| >= 1
              && r.result == MapPreferenceResponse(create(r.sent.value))
  {
    match BuildItems(config, data)
    case Err(e) => CheckoutOutcome(Err(e), None)
    case Ok(items) =>
      if |items| == 0 then CheckoutOutcome(Err(NoItems), None)
      else
        var body := PreferenceBodyFor(items, BuildBackUrls(config, data), data);
        CheckoutOutcome(MapPreferenceResponse(create(body)), Some(body))
  }

  /** Non-empty custom items are sent, mapped, whatever `productId` says. */
  lemma CustomItemsWin(config: MercadoPagoConfig, data: CheckoutRequest, create: PreferenceBody -> PreferenceResponse)
    requires HasCustomItems(data)
    ensures var r := CreateCheckout(config, data, create);
            r.sent.Some? && r.sent.value.items == MapItems(data.items.value)
            && CreateCheckout(config, data.(productId := None), create) == r
  {
  }

  /** With neither items nor a product id, nothing is sent and "No items provided" is raised. */
  lemma NoItemsRaised(config: MercadoPagoConfig, data: CheckoutRequest, create: PreferenceBody -> PreferenceResponse)
    requires !HasCustomItems(data) && !Truthy(data.productId)
    ensures CreateCheckout(config, data, create) == CheckoutOutcome(Err(NoItems), None)
  {
  }
}
