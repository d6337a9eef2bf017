/**
 * Callback routing, the pure part: which correlation id a callback carries,
 * which id the status query is keyed by, and which response a callback gets.
 */
module Routing {
  import opened Php
  import opened Exceptions
  import opened Status

  /** Request parameters as the platform hands them to the plugin. */
  type Request = map<string, string>

  /** `$request[$key] ?? ''` */
  function Param(request: Request, key: string): string {
    if key in request then request[key] else ""
  }

  /** Which of the platform's two back URLs a redirect goes to. */
  datatype UrlKind = SuccessUrl | FailUrl

  /** `getAdapter()->getBackUrl($kind, $transaction_data)`; the platform renders the URL. */
  datatype BackUrl = BackUrl(kind: UrlKind, data: TransactionData)

  /** What a callback answers: a redirect (with an optional message) or a literal body. */
  datatype Response =
    | Redirect(url: BackUrl, message: Option<string>)
    | Body(text: string)

  // ---------------------------------------------------------------------------
  // Correlation id
  // ---------------------------------------------------------------------------

  /**
   * Assigning a value to the `?string $order_id` property of a file without
   * strict types: strings are kept, integers become their decimal numeral,
   * `true` becomes "1" and `false` "", an array is a `TypeError`.
   */
  function AsNullableString(v: Value): (r: Outcome<Option<string>>)
    ensures r.Threw? <==> v.Arr?
    ensures v.Str? ==> r == Returned(Some(v.s))
    ensures v.Null? ==> r == Returned(None)
    ensures v.Int? ==> r == Returned(Some(IntToDecimal(v.i)))
    ensures v.Bool? ==> r == Returned(Some(if v.b then "1" else ""))
  {
    match v
    case Null => Returned(None)
    case Bool(b) => Returned(Some(if b then "1" else ""))
    case Int(i) => Returned(Some(IntToDecimal(i)))
    case Str(s) => Returned(Some(s))
    case Arr(_) => Threw(HostThrowable(TypeError, "Cannot assign array to property payneteasyPayment::$order_id of type ?string", 0, None))
  }

  /**
   * `$php_input['object']['order_id'] ?? ''` on `json_decode($body, true) ?: null`,
   * where `body` is the already decoded webhook body.
   */
  function WebhookOrderId(body: Value): (id: Value)
    ensures id != Null
    ensures Falsy(body) ==> id == Str("")
    ensures body.Arr? && "object" in body.entries && Index(body.entries["object"], "order_id") != Null
            ==> id == Index(body.entries["object"], "order_id")
    ensures !(body.Arr? && "object" in body.entries && Index(body.entries["object"], "order_id") != Null)
            ==> id == Str("")
  {
    var input := if Falsy(body) then Null else body;
    var found := Index(Index(input, "object"), "order_id");
    if found == Null then Str("") else found
  }

  /**
   * `setOrderId`: the correlation id after a callback of the given type. A
   * return takes the query's `order_id`, a webhook the body's
   * `object.order_id` (or ""), any other type keeps the current one.
   */
  function CorrelationId(requestType: string, request: Request, body: Value, current: Option<string>): (r: Outcome<Option<string>>)
    ensures requestType == "return" ==> r == Returned(ArrayGet(request, "order_id"))
    ensures requestType != "return" && requestType != "webhook" ==> r == Returned(current)
    ensures requestType == "webhook" && r.Returned? ==> r.value.Some?
  {
    if requestType == "return" then Returned(ArrayGet(request, "order_id"))
    else if requestType == "webhook" then AsNullableString(WebhookOrderId(body))
    else Returned(current)
  }

  /** `$this->order_id ?? $request['order_id']`: the key of the status query. */
  function StatusKey(orderId: Option<string>, request: Request): (key: Option<string>)
    ensures orderId.Some? ==> key == orderId
    ensures orderId.None? ==> key == ArrayGet(request, "order_id")
    ensures key.None? <==> orderId.None? && "order_id" !in request
  {
    if orderId.Some? then orderId else ArrayGet(request, "order_id")
  }

  // ---------------------------------------------------------------------------
  // Redirect rules
  // ---------------------------------------------------------------------------

  /** `callbackHandler`: FAIL for a declined or canceled state, SUCCESS otherwise. */
  function HandlerUrlKind(state: State): UrlKind {
    if state == Declined || state == Canceled then FailUrl else SuccessUrl
  }

  /** `getFinalRedirectUrl`: SUCCESS for a captured or authorised state, FAIL otherwise. */
  function FinalUrlKind(state: State): UrlKind {
    match state
    case Captured | Auth => SuccessUrl
    case _ => FailUrl
  }

  function GetFinalRedirectUrl(data: TransactionData): (url: BackUrl)
    ensures url.data == data
    ensures url.kind == SuccessUrl <==> data.state in {Captured, Auth}
  {
    BackUrl(FinalUrlKind(data.state), data)
  }

  /** The response `callbackHandler` gives once reconciliation returned `data`. */
  function CallbackResponse(requestType: string, data: TransactionData): (r: Response)
    ensures requestType == "webhook" <==> r == Body("OK")
    ensures r.Redirect? <==> requestType != "webhook"
    ensures r.Redirect? ==> r.url.data == data
    ensures r.Redirect? ==> (r.url.kind == FailUrl <==> data.state in {Declined, Canceled})
    ensures r.Redirect? ==> (r.message == Some("return") <==> requestType == "return")
    ensures r.Redirect? ==> (r.message == None <==> requestType != "return")
  {
    if requestType == "return" then Redirect(BackUrl(HandlerUrlKind(data.state), data), Some("return"))
    else if requestType == "webhook" then Body("OK")
    else Redirect(BackUrl(HandlerUrlKind(data.state), data), None)
  }

  // ---------------------------------------------------------------------------
  // Properties
  // ---------------------------------------------------------------------------

  /**
   * The two redirect rules differ on exactly one state: a refunded payment is
   * sent to SUCCESS by `callbackHandler` and would go to FAIL through
   * `getFinalRedirectUrl`.
   */
  lemma RedirectRulesDivergeOnRefund(state: State)
    ensures HandlerUrlKind(state) != FinalUrlKind(state) <==> state == Refunded
    ensures HandlerUrlKind(Refunded) == SuccessUrl && FinalUrlKind(Refunded) == FailUrl
  {
  }

  /**
   * A webhook without `object.order_id` sets the id to "", which is not null:
   * the status query is keyed by "" and never falls back to the query's
   * `order_id`.
   */
  lemma WebhookWithoutIdDoesNotFallBack(request: Request, body: Value, current: Option<string>)
    requires Index(Index(body, "object"), "order_id") == Null
    ensures CorrelationId("webhook", request, body, current) == Returned(Some(""))
    ensures StatusKey(Some(""), request) == Some("")
  {
  }

  /** A webhook's id is the body's, as a string; the query's `order_id` plays no part. */
  lemma WebhookIdComesFromBody(request: Request, body: Value, id: string, current: Option<string>)
    requires body.Arr? && "object" in body.entries
    requires Index(body.entries["object"], "order_id") == Str(id)
    ensures CorrelationId("webhook", request, body, current) == Returned(Some(id))
  {
    assert !Falsy(body);
  }

  /**
   * A webhook whose `object.order_id` is a JSON number is keyed by that
   * number's decimal numeral, which is never "", so it never falls back to
   * the query's `order_id` either.
   */
  lemma WebhookNumericIdIsDecimal(request: Request, body: Value, n: int, current: Option<string>)
    requires body.Arr? && "object" in body.entries
    requires Index(body.entries["object"], "order_id") == Int(n)
    ensures CorrelationId("webhook", request, body, current) == Returned(Some(IntToDecimal(n)))
    ensures IntToDecimal(n) != ""
    ensures StatusKey(Some(IntToDecimal(n)), request) == Some(IntToDecimal(n))
  {
    assert !Falsy(body);
  }

  /** For any other type the id stays as it was, so the query's `order_id` keys the status query. */
  lemma OtherTypeFallsBackToQuery(requestType: string, request: Request, body: Value)
    requires requestType != "return" && requestType != "webhook"
    ensures CorrelationId(requestType, request, body, None) == Returned(None)
    ensures StatusKey(None, request) == ArrayGet(request, "order_id")
  {
  }
}
