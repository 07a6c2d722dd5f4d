/** The PhonePe payment service: transaction ids, the payment request
    payload, and the single "pending transaction" slot in local storage that
    initiation writes and the callback rewrites. The clock, the random suffix
    and the gateway configuration are parameters. */
module Payment {
  import opened Util
  import opened Text
  import opened CartStore

  /** The fields of the active gateway configuration the service reads. */
  datatype GatewayConfig = GatewayConfig(merchantId: string, baseUrl: string, redirectUrl: string, callbackUrl: string)

  /** The order the checkout hands to `initiatePayment`. */
  datatype PaymentOrder = PaymentOrder(id: int, total: int, items: seq<OrderItem>)

  datatype Payload = Payload(
    merchantId: string, merchantTransactionId: string, merchantUserId: string, amount: int,
    redirectUrl: string, redirectMode: string, callbackUrl: string, mobileNumber: string,
    instrumentType: string)

  /** The slot `pending_transaction`; `responseCode` is set by the callback. */
  datatype PendingTransaction = PendingTransaction(
    transactionId: string, orderId: int, amount: int, timestamp: int, status: string,
    responseCode: Option<string>)

  datatype InitiateResult =
    | Initiated(transactionId: string, paymentUrl: string, payload: Payload)
    | InitiateFailed(error: string)

  datatype StatusResult =
    | Found(status: string, transactionId: string, amount: int)
    | NotFound

  datatype CallbackResult = CallbackResult(success: bool, status: string, transactionId: string)

  const PaymentSuccess := "PAYMENT_SUCCESS"
  const GuestUser := "GUEST_USER"
  const PayPath := "/pg/v1/pay"

  /** `generateTransactionId()`: `TXN`, the clock reading and the random
      suffix, upper-cased. */
  function TransactionId(timestamp: nat, random: string): (r: string)
    ensures StartsWith(r, "TXN")
    ensures forall i :: 0 <= i < |r| ==> !('a' <= r[i] <= 'z')
  {
    ToUpper("TXN" + Decimal(timestamp) + random)
  }

  /** Upper-casing leaves the prefix and the digits of the clock reading as
      they were, and a transaction id is already upper case. */
  lemma TransactionIdShape(timestamp: nat, random: string)
    ensures var r := TransactionId(timestamp, random);
      r[..3 + |Decimal(timestamp)|] == "TXN" + Decimal(timestamp) && ToUpper(r) == r
  {
    var d := Decimal(timestamp);
    var s := "TXN" + d + random;
    var r := ToUpper(s);
    forall i | 3 <= i < 3 + |d| ensures r[i] == s[i] {
      assert s[i] == d[i - 3];
      assert IsDigit(d[i - 3]);
    }
    assert r[..3 + |d|] == s[..3 + |d|];
    assert s[..3 + |d|] == "TXN" + d;
    var rr := ToUpper(r);
    assert forall i :: 0 <= i < |r| ==> rr[i] == r[i];
  }

  /** `createPaymentPayload(order, customerInfo)` for the transaction id `transactionId`. */
  function CreatePaymentPayload(config: GatewayConfig, order: PaymentOrder, phone: string, transactionId: string): (r: Payload)
    ensures r.amount == order.total * 100
    ensures r.merchantTransactionId == transactionId
    ensures r.merchantUserId == if phone == "" then GuestUser else phone
    ensures StartsWith(r.redirectUrl, config.redirectUrl)
    ensures r.redirectUrl[|config.redirectUrl|..] == "?txnId=" + transactionId
  {
    var redirect := config.redirectUrl + "?txnId=" + transactionId;
    assert redirect[..|config.redirectUrl|] == config.redirectUrl;
    Payload(config.merchantId, transactionId, if phone == "" then GuestUser else phone, order.total * 100,
            redirect, "REDIRECT", config.callbackUrl, phone, "PAY_PAGE")
  }

  /** The amount in paise converts back to the order total in rupees. */
  lemma AmountInPaise(config: GatewayConfig, order: PaymentOrder, phone: string, transactionId: string)
    ensures CreatePaymentPayload(config, order, phone, transactionId).amount / 100 == order.total
    ensures CreatePaymentPayload(config, order, phone, transactionId).amount % 100 == 0
  {
  }

  /** `checkPaymentStatus(transactionId)`: what it reports for the stored slot. */
  function StatusOf(slot: Option<PendingTransaction>, transactionId: string): (r: StatusResult)
    ensures r.Found? <==> slot.Some? && slot.value.transactionId == transactionId
    ensures r.Found? ==> r.status == slot.value.status && r.amount == slot.value.amount && r.transactionId == transactionId
  {
    if slot.Some? && slot.value.transactionId == transactionId then
      Found(slot.value.status, transactionId, slot.value.amount)
    else NotFound
  }

  /** The slot after `handlePaymentCallback(code, transactionId)`. */
  function AfterCallback(slot: Option<PendingTransaction>, code: string, transactionId: string): (r: Option<PendingTransaction>)
    ensures r.Some? <==> slot.Some?
    ensures slot.Some? && slot.value.transactionId != transactionId ==> r == slot
  {
    if slot.Some? && slot.value.transactionId == transactionId then
      Some(slot.value.(status := if code == PaymentSuccess then "SUCCESS" else "FAILED", responseCode := Some(code)))
    else slot
  }

  /** A callback for the stored transaction marks it SUCCESS exactly for the
      success code and FAILED otherwise, keeping its id and amount; a callback
      for any other transaction leaves what the status check reports unchanged. */
  lemma CallbackThenStatus(slot: Option<PendingTransaction>, code: string, transactionId: string, asked: string)
    ensures slot.Some? && slot.value.transactionId == transactionId ==>
      StatusOf(AfterCallback(slot, code, transactionId), transactionId) ==
        Found(if code == PaymentSuccess then "SUCCESS" else "FAILED", transactionId, slot.value.amount)
    ensures asked != transactionId ==>
      StatusOf(AfterCallback(slot, code, transactionId), asked) == StatusOf(slot, asked)
  {
  }

  /** The slot `initiatePayment` writes. */
  function Recorded(transactionId: string, order: PaymentOrder, now: int): PendingTransaction {
    PendingTransaction(transactionId, order.id, order.total, now, "INITIATED", None)
  }

  /** After a successful initiation the status check finds the new transaction
      as INITIATED with the order total, whatever the slot held before. */
  lemma InitiateThenStatus(transactionId: string, order: PaymentOrder, now: int)
    ensures StatusOf(Some(Recorded(transactionId, order, now)), transactionId) ==
      Found("INITIATED", transactionId, order.total)
  {
  }

  /** The error `initiatePayment` reports for an exception with message
      `message`: the message itself, or a fixed text when it is empty. */
  function FailureText(message: string): (r: string)
    ensures r != ""
    ensures message != "" ==> r == message
  {
    if message != "" then message else "Failed to initiate payment"
  }

  class PaymentService {
    /** The local-storage slot `pending_transaction`. */
    var pending: Option<PendingTransaction>

    constructor()
      ensures pending == None
    {
      pending := None;
    }

    /** `initiatePayment(order, customerInfo)`. `idClock` and `random` make
        the transaction id, `storeClock` stamps the stored record, and
        `thrown` is the message of an exception raised while the payload is
        encoded, before anything is stored. */
    method InitiatePayment(config: GatewayConfig, order: PaymentOrder, phone: string,
                           idClock: nat, random: string, storeClock: int, thrown: Option<string>)
      returns (r: InitiateResult)
      modifies this
      ensures thrown.Some? ==>
        pending == old(pending)
        && r == InitiateFailed(FailureText(thrown.value))
      ensures thrown.None? ==>
        var id := TransactionId(idClock, random);
        pending == Some(Recorded(id, order, storeClock))
        && r == Initiated(id, config.baseUrl + PayPath, CreatePaymentPayload(config, order, phone, id))
    {
      var transactionId := TransactionId(idClock, random);
      var payload := CreatePaymentPayload(config, order, phone, transactionId);
      if thrown.Some? {
        return InitiateFailed(FailureText(thrown.value));
      }
      pending := Some(Recorded(transactionId, order, storeClock));
      r := Initiated(transactionId, config.baseUrl + PayPath, payload);
    }

    /** `handlePaymentCallback({ code, transactionId })`. */
    method HandlePaymentCallback(code: string, transactionId: string) returns (r: CallbackResult)
      modifies this
      ensures pending == AfterCallback(old(pending), code, transactionId)
      ensures r == CallbackResult(code == PaymentSuccess, code, transactionId)
    {
      pending := AfterCallback(pending, code, transactionId);
      r := CallbackResult(code == PaymentSuccess, code, transactionId);
    }
  }
}
