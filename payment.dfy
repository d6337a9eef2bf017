/**
 * The payment plugin object. One object handles one inbound request: the
 * callback entry points record the request's type and correlation id in
 * fields, reconciliation appends to the platform's transaction ledger and
 * dispatches a platform callback, and every caught failure leaves one entry in
 * the error log before it is thrown again.
 *
 * The platform, the gateway and the hash are outside the model: the platform
 * order arrives as a value, the gateway as a function from the signed request
 * to its response, and `sha1` as a function on strings.
 */
module Payment {
  import opened Php
  import opened Exceptions
  import opened Signing
  import opened Status
  import opened Routing
  import opened OrderLinks
  import opened Countries

  /** One entry of the error channel: the formatted message and its context. */
  datatype LogEntry = LogEntry(message: string, context: map<string, Value>)

  /** `execAppCallback($method, $transaction_data)` as observed by the platform. */
  datatype Dispatch = Dispatch(callback: CallbackMethod, data: TransactionData)

  /** The platform's order as a callback finds it: its id and the transaction recorded for it before. */
  datatype PlatformOrder = PlatformOrder(id: string, prior: Option<Recorded>)

  /** What `getPayUrl` reads from the platform order; the total is in integer minor units. */
  datatype SaleInput = SaleInput(
    orderId: string,
    totalMinor: int,
    currency: string,
    address: string,
    city: string,
    zip: string,
    countryName: Option<string>,
    phone: string,
    email: string,
    ipAddress: string,
    cvv2: string,
    creditCardNumber: string,
    cardPrintedName: string,
    expireMonth: string,
    expireYear: string,
    firstName: string,
    lastName: string,
    successUrl: string,
    failUrl: string,
    returnUrl: string,
    notifyUrl: string)

  /** The sale request `getPayUrl` assembles, before it is signed. */
  function SaleFields(input: SaleInput, country: string): SaleRequest {
    SaleRequest(
      input.orderId, "Order # " + input.orderId, input.totalMinor, input.currency,
      input.address, input.city, input.zip, country, input.phone, input.email, input.ipAddress,
      input.cvv2, input.creditCardNumber, input.cardPrintedName, input.expireMonth, input.expireYear,
      input.firstName, input.lastName, input.successUrl, input.failUrl, input.returnUrl, input.notifyUrl)
  }

  /** `$order_id ?: ''`: the id as given, or "" when it is null, "" or "0". */
  function LoggedOrderId(orderId: Option<string>): (s: string)
    ensures s == "" <==> orderId.None? || orderId.value in {"", "0"}
    ensures s != "" ==> s == orderId.value
  {
    if orderId.None? || Falsy(Str(orderId.value)) then "" else orderId.value
  }

  /** The message of the error entry `executeErrorScenario` writes. */
  function ErrorMessage(callerFunc: string, e: Exc, orderId: Option<string>): string {
    callerFunc + " > executeErrorScenario > PaynetEasy exception : " + GetMessage(e)
      + "; Order id: " + LoggedOrderId(orderId) + ";"
  }

  /** The exception's own context when it has `getContext`, the caller's otherwise. */
  function ErrorContext(e: Exc, callerContext: map<string, Value>): (c: map<string, Value>)
    ensures HasGetContext(e) ==> c == GetContext(e)
    ensures !HasGetContext(e) ==> c == callerContext
  {
    if HasGetContext(e) then GetContext(e) else callerContext
  }

  /** `['Request data' => $request]`, the context the callback entry points pass. */
  function RequestContext(request: Option<Request>): map<string, Value> {
    map["Request data" := if request.Some? then Arr(map k | k in request.value :: Str(request.value[k])) else Null]
  }

  /** `new waPaymentException('Invalid invoice number.')` */
  const InvalidInvoice := HostThrowable(PaymentException, "Invalid invoice number.", 0, None)

  class PayneteasyPayment {
    // Settings
    const login: string
    const controlKey: string
    const endpointId: string
    const hash: Hash
    const links: OrderLinkStore

    // Per-request state set by the callback entry points
    var appId: string
    var merchantId: string
    var requestType: string
    var orderId: Option<string>

    // What the platform and the logger observe
    var errorLog: seq<LogEntry>
    var ledger: seq<TransactionData>
    var dispatched: seq<Dispatch>

    constructor (login: string, controlKey: string, endpointId: string, hash: Hash, links: OrderLinkStore)
      ensures this.login == login && this.controlKey == controlKey && this.endpointId == endpointId
      ensures this.hash == hash && this.links == links
      ensures appId == "" && merchantId == "" && requestType == "" && orderId == None
      ensures errorLog == [] && ledger == [] && dispatched == []
    {
      this.login := login;
      this.controlKey := controlKey;
      this.endpointId := endpointId;
      this.hash := hash;
      this.links := links;
      appId, merchantId, requestType, orderId := "", "", "", None;
      errorLog, ledger, dispatched := [], [], [];
    }

    /**
     * `executeErrorScenario`: writes exactly one error entry, whose context is
     * the exception's own when it has one, and hands back the same exception
     * for the caller to throw.
     */
    method ExecuteErrorScenario(e: Exc, orderId: Option<string>, callerFunc: string, context: map<string, Value>)
      returns (rethrown: Exc)
      modifies this`errorLog
      ensures rethrown == e
      ensures errorLog == old(errorLog) + [LogEntry(ErrorMessage(callerFunc, e, orderId), ErrorContext(e, context))]
    {
      var logged := context;
      if HasGetContext(e) {
        logged := GetContext(e);
      }
      errorLog := errorLog + [LogEntry(ErrorMessage(callerFunc, e, orderId), logged)];
      rethrown := e;
    }

    /**
     * `callbackInit`: an absent or empty request is rejected with "Invalid
     * invoice number."; otherwise `app_id`, `merchant_id` and `type` are taken
     * with "" for a missing one, and `setOrderId` resolves the correlation id.
     */
    method CallbackInit(request: Option<Request>, body: Value) returns (r: Outcome<()>)
      modifies this`appId, this`merchantId, this`requestType, this`orderId, this`errorLog
      ensures request.None? || request.value == map[] ==>
        && r == Threw(InvalidInvoice)
        && errorLog == old(errorLog) + [LogEntry(ErrorMessage("callbackInit", InvalidInvoice, None), RequestContext(request))]
        && appId == old(appId) && merchantId == old(merchantId)
        && requestType == old(requestType) && orderId == old(orderId)
      ensures request.Some? && request.value != map[] ==>
        && appId == Param(request.value, "app_id")
        && merchantId == Param(request.value, "merchant_id")
        && requestType == Param(request.value, "type")
        && match CorrelationId(requestType, request.value, body, old(orderId))
           case Returned(id) => r == Returned(()) && orderId == id && errorLog == old(errorLog)
           case Threw(e) =>
             && r == Threw(e) && orderId == old(orderId)
             && errorLog == old(errorLog)
                  + (if IsCaught(e) then [LogEntry(ErrorMessage("callbackInit", e, None), ErrorContext(e, RequestContext(request)))] else [])
    {
      if request.Some? && request.value != map[] {
        appId := Param(request.value, "app_id");
        merchantId := Param(request.value, "merchant_id");
        requestType := Param(request.value, "type");
        var thrown := SetOrderId(request.value, body);
        if thrown.Some? {
          var e := thrown.value;
          if IsCaught(e) {
            e := ExecuteErrorScenario(e, None, "callbackInit", RequestContext(request));
          }
          return Threw(e);
        }
        r := Returned(());
      } else {
        var e := ExecuteErrorScenario(InvalidInvoice, None, "callbackInit", RequestContext(request));
        r := Threw(e);
      }
    }

    /**
     * `setOrderId`: a return takes the query's `order_id`, a webhook the body's
     * `object.order_id` (or ""), any other type leaves the id alone. Storing a
     * body value that is an array throws a `TypeError` and leaves the id alone.
     */
    method SetOrderId(request: Request, body: Value) returns (thrown: Option<Exc>)
      modifies this`orderId
      ensures match CorrelationId(requestType, request, body, old(orderId))
              case Returned(id) => thrown == None && orderId == id
              case Threw(e) => thrown == Some(e) && orderId == old(orderId)
    {
      thrown := None;
      if requestType == "return" {
        orderId := ArrayGet(request, "order_id");
      } else if requestType == "webhook" {
        var input := if Falsy(body) then Null else body;
        var found := Index(Index(input, "object"), "order_id");
        if found == Null {
          found := Str("");
        }
        match AsNullableString(found) {
          case Returned(id) => orderId := id;
          case Threw(e) => thrown := Some(e);
        }
      }
    }

    /** The signed status query for a shop order id, with the gateway id the link table holds for it. */
    function StatusQuery(key: Option<string>): (q: Signed<StatusRequest>)
      reads links
      ensures q.fields.login == login && q.fields.clientOrderId == key.GetOr("")
      ensures q.fields.orderId.Some? <==> key.GetOr("") in links.rows
      ensures q.fields.orderId.Some? ==> q.fields.orderId.value == links.rows[key.GetOr("")]
      ensures q.control == hash(login + key.GetOr("") + q.fields.orderId.GetOr("") + controlKey)
    {
      var clientOrderId := key.GetOr("");
      var fields := StatusRequest(login, clientOrderId,
                                  if clientOrderId in links.rows then Some(links.rows[clientOrderId]) else None);
      Signed(fields, SignStatusRequest(hash, fields, login, controlKey))
    }

    /**
     * `getPaymentStatusData`: looks the gateway id up in the link table, signs
     * the status query with login, client order id and gateway id, and asks
     * the gateway.
     */
    method GetPaymentStatusData(key: Option<string>, gateway: Signed<StatusRequest> -> Outcome<map<string, string>>)
      returns (sent: Signed<StatusRequest>, response: Outcome<map<string, string>>)
      ensures sent == StatusQuery(key)
      ensures sent.control == SignStatusRequest(hash, sent.fields, login, controlKey)
      ensures response == gateway(sent)
    {
      var clientOrderId := key.GetOr("");
      var paynetOrderId := links.Lookup(clientOrderId);
      var fields := StatusRequest(login, clientOrderId, paynetOrderId);
      sent := Signed(fields, SignStatusRequest(hash, fields, login, controlKey));
      response := gateway(sent);
    }

    /**
     * `changeStatus`: builds the transaction data from the status response and
     * the order, maps the trimmed status, and saves and dispatches only when
     * both state and operation differ from the recorded transaction. The data
     * is returned either way.
     */
    method ChangeStatus(statusData: map<string, string>, order: PlatformOrder) returns (data: TransactionData)
      modifies this`ledger, this`dispatched
      ensures data == Reconciled(statusData, order.id, orderId)
      ensures ShouldRecord(order.prior, data.state, data.operation) ==>
        ledger == old(ledger) + [data] && dispatched == old(dispatched) + [Dispatch(MappingFor(statusData).callback, data)]
      ensures !ShouldRecord(order.prior, data.state, data.operation) ==>
        ledger == old(ledger) && dispatched == old(dispatched)
    {
      // formalizeData
      data := TransactionData(order.id, ArrayGet(statusData, "amount"), ArrayGet(statusData, "currency"),
                              orderId, Canceled, Cancel);
      var status := Trim(if "status" in statusData then statusData["status"] else "");
      var entry := AvailableStatus(status);
      assert MappingFor(statusData) == entry.GetOr(CancelMapping);
      var callback: CallbackMethod;
      if entry.Some? {
        callback := entry.value.callback;
        data := data.(state := entry.value.state, operation := entry.value.operation);
      } else {
        callback := CancelCallback;
        data := data.(state := Canceled, operation := Cancel);
      }
      assert callback == MappingFor(statusData).callback;
      assert data == Reconciled(statusData, order.id, orderId);
      if PriorState(order.prior) != Some(data.state) && PriorOperation(order.prior) != Some(data.operation) {
        ledger := ledger + [data];
        dispatched := dispatched + [Dispatch(callback, data)];
      }
    }

    /**
     * `callbackHandler`: queries the gateway under `order_id ?? $request['order_id']`,
     * reconciles, and answers a return with a redirect carrying the message
     * "return", a webhook with the body "OK", any other type with a plain
     * redirect. A gateway failure is logged once and thrown again.
     */
    method CallbackHandler(request: Request, order: PlatformOrder, gateway: Signed<StatusRequest> -> Outcome<map<string, string>>)
      returns (r: Outcome<Response>)
      modifies this`ledger, this`dispatched, this`errorLog
      ensures old(gateway(StatusQuery(StatusKey(orderId, request)))).Threw? ==>
        var key := StatusKey(orderId, request);
        var e := old(gateway(StatusQuery(key))).exc;
        && r == Threw(e)
        && ledger == old(ledger) && dispatched == old(dispatched)
        && errorLog == old(errorLog)
             + (if IsCaught(e) then [LogEntry(ErrorMessage("callbackHandler", e, key), ErrorContext(e, RequestContext(Some(request))))] else [])
      ensures old(gateway(StatusQuery(StatusKey(orderId, request)))).Returned? ==>
        var statusData := old(gateway(StatusQuery(StatusKey(orderId, request)))).value;
        var data := Reconciled(statusData, order.id, orderId);
        && r == Returned(CallbackResponse(requestType, data))
        && errorLog == old(errorLog)
        && (ShouldRecord(order.prior, data.state, data.operation) ==>
              ledger == old(ledger) + [data] && dispatched == old(dispatched) + [Dispatch(MappingFor(statusData).callback, data)])
        && (!ShouldRecord(order.prior, data.state, data.operation) ==>
              ledger == old(ledger) && dispatched == old(dispatched))
    {
      var key := if orderId.Some? then orderId else ArrayGet(request, "order_id");
      assert key == StatusKey(orderId, request);
      var sent, response := GetPaymentStatusData(key, gateway);
      assert response == gateway(StatusQuery(key));
      if response.Threw? {
        var e := response.exc;
        if IsCaught(e) {
          e := ExecuteErrorScenario(e, key, "callbackHandler", RequestContext(Some(request)));
        }
        return Threw(e);
      }
      var data := ChangeStatus(response.value, order);
      r := Returned(CallbackResponse(requestType, data));
    }

    /**
     * `getPayUrl`: resolves the country code, signs the sale request with
     * endpoint id, client order id, amount and email, sends it, and links the
     * two order ids when the response names both. A failing sale call is not
     * caught: its exception propagates and no row is written.
     */
    method GetPayUrl(input: SaleInput, countries: seq<Country>, lower: string -> string,
                     gateway: Signed<SaleRequest> -> Outcome<map<string, string>>)
      returns (response: Outcome<map<string, string>>, sent: Signed<SaleRequest>)
      modifies links
      ensures sent.fields == SaleFields(input, CountryIso(countries, input.countryName, lower))
      ensures sent.control == SignPaymentRequest(hash, sent.fields, endpointId, controlKey)
      ensures response == gateway(sent)
      ensures response.Threw? ==> links.rows == old(links.rows)
      ensures response.Returned? ==>
        var fields := response.value;
        links.rows == if "paynet-order-id" in fields && "merchant-order-id" in fields
                      then old(links.rows)[fields["merchant-order-id"] := fields["paynet-order-id"]]
                      else old(links.rows)
    {
      var country := FindCountryIso(countries, input.countryName, lower);
      var fields := SaleFields(input, country);
      sent := Signed(fields, SignPaymentRequest(hash, fields, endpointId, controlKey));
      response := gateway(sent);
      if response.Returned? {
        var _ := links.RecordSaleResponse(response.value);
      }
    }
  }

  // ---------------------------------------------------------------------------
  // Properties of the error boundary
  // ---------------------------------------------------------------------------

  /** A `PaynetEasyException`'s own context wins over the caller's, for any caller context. */
  lemma OwnContextWins(message: string, context: map<string, Value>, callerContext: map<string, Value>)
    ensures ErrorContext(NewPaynetEasyException(message, context), callerContext) == context
    ensures ErrorContext(InvalidInvoice, callerContext) == callerContext
  {
  }
}
