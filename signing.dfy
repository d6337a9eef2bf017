/**
 * Request signing: the `control` value sent with each gateway request is the
 * SHA-1 digest of a fixed-order concatenation of request fields followed by
 * the merchant control key. SHA-1 itself is a parameter (`Hash`), so nothing
 * here depends on how the digest is computed, only on what is fed to it.
 */
module Signing {
  import opened Php

  /** A one-way digest of a string (`sha1` in the plugin). */
  type Hash = string -> string

  /** The fields of a status query (`getPaymentStatusData`). A missing gateway id is `None`. */
  datatype StatusRequest = StatusRequest(login: string, clientOrderId: string, orderId: Option<string>)

  /**
   * The fields of a sale request (`getPayUrl`). The amount is held in integer
   * minor units, i.e. already multiplied by 100; missing text fields are "".
   */
  datatype SaleRequest = SaleRequest(
    clientOrderId: string,
    orderDesc: string,
    amountMinor: int,
    currency: string,
    address1: string,
    city: string,
    zipCode: string,
    country: string,
    phone: string,
    email: string,
    ipAddress: string,
    cvv2: string,
    creditCardNumber: string,
    cardPrintedName: string,
    expireMonth: string,
    expireYear: string,
    firstName: string,
    lastName: string,
    redirectSuccessUrl: string,
    redirectFailUrl: string,
    redirectUrl: string,
    serverCallbackUrl: string)

  /** A request with its `control` field added. */
  datatype Signed<+R> = Signed(fields: R, control: string)

  /** `signString`: the digest of the base string followed by the control key. */
  function SignString(hash: Hash, base: string, controlKey: string): string {
    hash(base + controlKey)
  }

  /** login, client_orderid, orderid; a missing gateway id adds nothing at its position. */
  function StatusBase(fields: StatusRequest, login: string): string {
    login + fields.clientOrderId + fields.orderId.GetOr("")
  }

  /**
   * `signStatusRequest`: the digest of login, client order id, gateway order id
   * and control key, concatenated in that order; a missing gateway id adds
   * nothing at its position.
   */
  function SignStatusRequest(hash: Hash, fields: StatusRequest, login: string, controlKey: string): (control: string)
    ensures control == hash(login + fields.clientOrderId + fields.orderId.GetOr("") + controlKey)
  {
    SignString(hash, StatusBase(fields, login), controlKey)
  }

  /** endpoint id, client_orderid, amount in minor units, email. */
  function PaymentBase(fields: SaleRequest, endpointId: string): string {
    endpointId + fields.clientOrderId + IntToDecimal(fields.amountMinor) + fields.email
  }

  /**
   * `signPaymentRequest`: the digest of endpoint id, client order id, amount in
   * minor units, email and control key, concatenated in that order.
   */
  function SignPaymentRequest(hash: Hash, fields: SaleRequest, endpointId: string, controlKey: string): (control: string)
    ensures control == hash(endpointId + fields.clientOrderId + IntToDecimal(fields.amountMinor) + fields.email + controlKey)
  {
    SignString(hash, PaymentBase(fields, endpointId), controlKey)
  }

  // ---------------------------------------------------------------------------
  // Properties
  // ---------------------------------------------------------------------------

  /** Position, not presence, matters: a missing gateway id signs exactly like an empty one. */
  lemma MissingGatewayIdSignsAsEmpty(hash: Hash, login: string, clientOrderId: string, controlKey: string)
    ensures SignStatusRequest(hash, StatusRequest(login, clientOrderId, None), login, controlKey)
         == SignStatusRequest(hash, StatusRequest(login, clientOrderId, Some("")), login, controlKey)
         == hash(login + clientOrderId + controlKey)
  {
    assert login + clientOrderId + "" == login + clientOrderId;
  }

  /** Card data, addresses, names and URLs do not enter the sale control. */
  lemma PaymentControlIgnoresOtherFields(hash: Hash, a: SaleRequest, b: SaleRequest, endpointId: string, controlKey: string)
    requires a.clientOrderId == b.clientOrderId && a.amountMinor == b.amountMinor && a.email == b.email
    ensures SignPaymentRequest(hash, a, endpointId, controlKey) == SignPaymentRequest(hash, b, endpointId, controlKey)
  {
  }

  /** The status control depends on the login and the two ids only (determinism). */
  lemma StatusControlDeterministic(hash: Hash, a: StatusRequest, b: StatusRequest, login: string, controlKey: string)
    requires a.clientOrderId == b.clientOrderId && a.orderId.GetOr("") == b.orderId.GetOr("")
    ensures SignStatusRequest(hash, a, login, controlKey) == SignStatusRequest(hash, b, login, controlKey)
  {
  }

  /** If `p + x + q == p + y + q` then `x == y`. */
  lemma CancelAround(p: string, x: string, y: string, q: string)
    requires p + x + q == p + y + q
    ensures x == y
  {
    var s, t := p + x + q, p + y + q;
    assert |x| == |y|;
    assert x == s[|p|..|p| + |x|];
    assert y == t[|p|..|p| + |y|];
  }

  /**
   * With every other field fixed, two different amounts give two different
   * base strings, so a changed amount reaches the digest: the minor-unit
   * rendering is injective.
   */
  lemma PaymentBaseSeparatesAmounts(a: SaleRequest, b: SaleRequest, endpointId: string)
    requires a.clientOrderId == b.clientOrderId && a.email == b.email
    requires a.amountMinor != b.amountMinor
    ensures PaymentBase(a, endpointId) != PaymentBase(b, endpointId)
  {
    if PaymentBase(a, endpointId) == PaymentBase(b, endpointId) {
      var p := endpointId + a.clientOrderId;
      assert PaymentBase(a, endpointId) == p + IntToDecimal(a.amountMinor) + a.email;
      assert PaymentBase(b, endpointId) == p + IntToDecimal(b.amountMinor) + a.email;
      CancelAround(p, IntToDecimal(a.amountMinor), IntToDecimal(b.amountMinor), a.email);
      IntToDecimalInjective(a.amountMinor, b.amountMinor);
    }
  }

  /** With login and client order id fixed, different gateway ids give different base strings. */
  lemma StatusBaseSeparatesGatewayIds(a: StatusRequest, b: StatusRequest, login: string)
    requires a.clientOrderId == b.clientOrderId
    requires a.orderId.GetOr("") != b.orderId.GetOr("")
    ensures StatusBase(a, login) != StatusBase(b, login)
  {
    if StatusBase(a, login) == StatusBase(b, login) {
      CancelAround(login + a.clientOrderId, a.orderId.GetOr(""), b.orderId.GetOr(""), "");
    }
  }

  /** With the request fixed, different logins give different status base strings. */
  lemma StatusBaseSeparatesLogins(fields: StatusRequest, login1: string, login2: string)
    requires login1 != login2
    ensures StatusBase(fields, login1) != StatusBase(fields, login2)
  {
    if StatusBase(fields, login1) == StatusBase(fields, login2) {
      var rest := fields.clientOrderId + fields.orderId.GetOr("");
      assert StatusBase(fields, login1) == "" + login1 + rest;
      assert StatusBase(fields, login2) == "" + login2 + rest;
      CancelAround("", login1, login2, rest);
    }
  }

  /** With login and gateway id fixed, different client order ids give different status base strings. */
  lemma StatusBaseSeparatesClientOrderIds(a: StatusRequest, b: StatusRequest, login: string)
    requires a.orderId.GetOr("") == b.orderId.GetOr("")
    requires a.clientOrderId != b.clientOrderId
    ensures StatusBase(a, login) != StatusBase(b, login)
  {
    if StatusBase(a, login) == StatusBase(b, login) {
      CancelAround(login, a.clientOrderId, b.clientOrderId, a.orderId.GetOr(""));
    }
  }

  /** With the request fixed, different endpoint ids give different sale base strings. */
  lemma PaymentBaseSeparatesEndpoints(fields: SaleRequest, endpoint1: string, endpoint2: string)
    requires endpoint1 != endpoint2
    ensures PaymentBase(fields, endpoint1) != PaymentBase(fields, endpoint2)
  {
    if PaymentBase(fields, endpoint1) == PaymentBase(fields, endpoint2) {
      var rest := fields.clientOrderId + IntToDecimal(fields.amountMinor) + fields.email;
      assert PaymentBase(fields, endpoint1) == "" + endpoint1 + rest;
      assert PaymentBase(fields, endpoint2) == "" + endpoint2 + rest;
      CancelAround("", endpoint1, endpoint2, rest);
    }
  }

  /** With endpoint id, amount and email fixed, different client order ids give different sale base strings. */
  lemma PaymentBaseSeparatesClientOrderIds(a: SaleRequest, b: SaleRequest, endpointId: string)
    requires a.amountMinor == b.amountMinor && a.email == b.email
    requires a.clientOrderId != b.clientOrderId
    ensures PaymentBase(a, endpointId) != PaymentBase(b, endpointId)
  {
    if PaymentBase(a, endpointId) == PaymentBase(b, endpointId) {
      var rest := IntToDecimal(a.amountMinor) + a.email;
      assert PaymentBase(a, endpointId) == endpointId + a.clientOrderId + rest;
      assert PaymentBase(b, endpointId) == endpointId + b.clientOrderId + rest;
      CancelAround(endpointId, a.clientOrderId, b.clientOrderId, rest);
    }
  }

  /** With endpoint id, client order id and amount fixed, different emails give different sale base strings. */
  lemma PaymentBaseSeparatesEmails(a: SaleRequest, b: SaleRequest, endpointId: string)
    requires a.clientOrderId == b.clientOrderId && a.amountMinor == b.amountMinor
    requires a.email != b.email
    ensures PaymentBase(a, endpointId) != PaymentBase(b, endpointId)
  {
    if PaymentBase(a, endpointId) == PaymentBase(b, endpointId) {
      var p := endpointId + a.clientOrderId + IntToDecimal(a.amountMinor);
      assert PaymentBase(a, endpointId) == p + a.email + "";
      assert PaymentBase(b, endpointId) == p + b.email + "";
      CancelAround(p, a.email, b.email, "");
    }
  }

  /**
   * `signString` appends the key last, so with the base string fixed two
   * different control keys give two different digest inputs.
   */
  lemma SignStringSeparatesKeys(base: string, key1: string, key2: string)
    requires key1 != key2
    ensures base + key1 != base + key2
  {
    if base + key1 == base + key2 {
      assert base + key1 + "" == base + key2 + "";
      CancelAround(base, key1, key2, "");
    }
  }

  /**
   * The fields are not delimited: moving characters across a field boundary
   * leaves the base string, and so the control, unchanged. Distinctness holds
   * field by field (the lemmas above), not for the request as a whole.
   */
  lemma StatusFieldsNotDelimited(hash: Hash, controlKey: string)
    ensures SignStatusRequest(hash, StatusRequest("m", "12", Some("3")), "m", controlKey)
         == SignStatusRequest(hash, StatusRequest("m", "1", Some("23")), "m", controlKey)
  {
    assert StatusBase(StatusRequest("m", "12", Some("3")), "m") == "m123";
    assert StatusBase(StatusRequest("m", "1", Some("23")), "m") == "m123";
  }
}
