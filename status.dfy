/**
 * Status reconciliation, the pure part: the table from the gateway's status to
 * the canonical (state, operation, callback) triple, the transaction data
 * built from a status response, and the guard that decides whether a
 * reconciled transaction is saved and dispatched.
 */
module Status {
  import opened Php

  /** Canonical transaction states (`self::STATE_*`). */
  datatype State = Auth | Captured | Refunded | Declined | Canceled

  /** Operation types (`self::OPERATION_*`). */
  datatype Operation = AuthOnly | AuthCapture | Refund | Cancel

  /** Platform callbacks (`self::CALLBACK_*`). */
  datatype CallbackMethod = PaymentCallback | AuthCallback | RefundCallback | DeclineCallback | CancelCallback

  /** One row of the status table. */
  datatype Mapping = Mapping(callback: CallbackMethod, state: State, operation: Operation)

  /** The transaction data `changeStatus` returns. */
  datatype TransactionData = TransactionData(
    orderId: string,             // the platform order's id
    amount: Option<string>,      // the response's `amount`
    currencyId: Option<string>,  // the response's `currency`
    nativeId: Option<string>,    // the correlation id the callback resolved
    state: State,
    operation: Operation)

  /**
   * The state and operation of the transaction recorded before. A field is
   * `None` when it is absent or holds no canonical value; either way it differs
   * from every value reconciliation can produce.
   */
  datatype Recorded = Recorded(state: Option<State>, operation: Option<Operation>)

  /** `$available_statuses`: an entry for the four statuses the gateway names. */
  function AvailableStatus(status: string): (entry: Option<Mapping>)
    ensures entry.Some? <==> status in {"approved", "processing", "refunded", "declined"}
    ensures entry.Some? ==> entry.value.callback != CancelCallback && entry.value.state != Canceled
  {
    if status == "approved" then Some(Mapping(PaymentCallback, Captured, AuthCapture))
    else if status == "processing" then Some(Mapping(AuthCallback, Auth, AuthOnly))
    else if status == "refunded" then Some(Mapping(RefundCallback, Refunded, Refund))
    else if status == "declined" then Some(Mapping(DeclineCallback, Declined, Cancel))
    else None
  }

  /** The catch-all branch: anything unlisted cancels. */
  const CancelMapping := Mapping(CancelCallback, Canceled, Cancel)

  /**
   * The mapping applied to `trim($status_data['status'])`; a missing status
   * trims to "". It is the table's entry for the trimmed status when there
   * is one, and the cancel row exactly when there is none.
   */
  function MappingFor(statusData: map<string, string>): (m: Mapping)
    ensures var status := Trim(if "status" in statusData then statusData["status"] else "");
      && (m == CancelMapping <==> AvailableStatus(status).None?)
      && (m != CancelMapping ==> AvailableStatus(status) == Some(m))
  {
    var status := Trim(if "status" in statusData then statusData["status"] else "");
    AvailableStatus(status).GetOr(CancelMapping)
  }

  /**
   * The transaction data for a status response: `formalizeData` fills amount,
   * currency and native id, the order's id replaces the response's
   * merchant-order-id, and the mapping supplies state and operation.
   */
  function Reconciled(statusData: map<string, string>, orderId: string, nativeId: Option<string>): TransactionData {
    var m := MappingFor(statusData);
    TransactionData(orderId, ArrayGet(statusData, "amount"), ArrayGet(statusData, "currency"),
                    nativeId, m.state, m.operation)
  }

  function PriorState(prior: Option<Recorded>): Option<State> {
    if prior.Some? then prior.value.state else None
  }

  function PriorOperation(prior: Option<Recorded>): Option<Operation> {
    if prior.Some? then prior.value.operation else None
  }

  /**
   * The idempotency guard: save and dispatch only when the state AND the
   * operation both differ from the recorded transaction (a missing record
   * differs in both).
   */
  predicate ShouldRecord(prior: Option<Recorded>, state: State, operation: Operation) {
    PriorState(prior) != Some(state) && PriorOperation(prior) != Some(operation)
  }

  function AsRecorded(t: TransactionData): Recorded {
    Recorded(Some(t.state), Some(t.operation))
  }

  // ---------------------------------------------------------------------------
  // Properties of the table
  // ---------------------------------------------------------------------------

  /** The table, row by row, and the cancel fallback for every other status. */
  lemma MappingTable(status: string)
    ensures status == "approved" ==> AvailableStatus(status) == Some(Mapping(PaymentCallback, Captured, AuthCapture))
    ensures status == "processing" ==> AvailableStatus(status) == Some(Mapping(AuthCallback, Auth, AuthOnly))
    ensures status == "refunded" ==> AvailableStatus(status) == Some(Mapping(RefundCallback, Refunded, Refund))
    ensures status == "declined" ==> AvailableStatus(status) == Some(Mapping(DeclineCallback, Declined, Cancel))
    ensures AvailableStatus(status) == None
        <==> status !in {"approved", "processing", "refunded", "declined"}
  {
  }

  /** Every state comes with one operation and one callback: the state determines the row. */
  lemma StateDeterminesMapping(a: Mapping, b: Mapping)
    requires a == CancelMapping || AvailableStatus("approved") == Some(a) || AvailableStatus("processing") == Some(a)
          || AvailableStatus("refunded") == Some(a) || AvailableStatus("declined") == Some(a)
    requires b == CancelMapping || AvailableStatus("approved") == Some(b) || AvailableStatus("processing") == Some(b)
          || AvailableStatus("refunded") == Some(b) || AvailableStatus("declined") == Some(b)
    requires a.state == b.state
    ensures a == b
  {
  }

  /** Surrounding whitespace in the gateway's status does not change the mapping. */
  lemma PaddedStatusMapsLikeBare(statusData: map<string, string>, left: string, status: string, right: string)
    requires IsPadding(left) && IsPadding(right)
    requires status in {"approved", "processing", "refunded", "declined"}
    requires "status" in statusData && statusData["status"] == left + status + right
    ensures MappingFor(statusData) == AvailableStatus(status).value
  {
    TrimRemovesPadding(left, status, right);
  }

  /** A response without a status, or with an unlisted one, cancels. */
  lemma UnknownStatusCancels(statusData: map<string, string>)
    requires "status" !in statusData || Trim(statusData["status"]) !in {"approved", "processing", "refunded", "declined"}
    ensures MappingFor(statusData) == CancelMapping
  {
  }

  // ---------------------------------------------------------------------------
  // Properties of the guard
  // ---------------------------------------------------------------------------

  /** With nothing recorded before, the guard always passes. */
  lemma FirstReconciliationRecords(state: State, operation: Operation)
    ensures ShouldRecord(None, state, operation)
    ensures ShouldRecord(Some(Recorded(None, None)), state, operation)
  {
  }

  /**
   * Redelivery is a no-op: once a reconciled transaction is the recorded one,
   * a response with the same status passes the guard no more, whatever its
   * other fields and whatever correlation id the second callback carries.
   */
  lemma RedeliveryIsNoOp(statusData: map<string, string>, again: map<string, string>,
                         orderId: string, nativeId: Option<string>, nativeId2: Option<string>)
    requires ArrayGet(again, "status") == ArrayGet(statusData, "status")
    ensures var t := Reconciled(again, orderId, nativeId2);
            !ShouldRecord(Some(AsRecorded(Reconciled(statusData, orderId, nativeId))), t.state, t.operation)
  {
  }

  /** A change of only one of the two fields is not recorded (logical AND). */
  lemma SingleFieldChangeIsDropped(prior: Recorded, state: State, operation: Operation)
    requires prior.state == Some(state) || prior.operation == Some(operation)
    ensures !ShouldRecord(Some(prior), state, operation)
  {
  }

  /**
   * Between rows of the table the guard passes exactly when the rows differ
   * and are not the declined and cancel rows, which share the Cancel
   * operation: a declined payment that later cancels, or the reverse, is never
   * recorded.
   */
  lemma GuardBetweenRows(before: Mapping, after: Mapping)
    requires before == CancelMapping || AvailableStatus("approved") == Some(before) || AvailableStatus("processing") == Some(before)
          || AvailableStatus("refunded") == Some(before) || AvailableStatus("declined") == Some(before)
    requires after == CancelMapping || AvailableStatus("approved") == Some(after) || AvailableStatus("processing") == Some(after)
          || AvailableStatus("refunded") == Some(after) || AvailableStatus("declined") == Some(after)
    ensures ShouldRecord(Some(Recorded(Some(before.state), Some(before.operation))), after.state, after.operation)
        <==> before != after && !(before.operation == Cancel && after.operation == Cancel)
  {
  }
}
