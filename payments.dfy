/**
 * The demonstration payment and payout endpoints (gcp/server.py): two
 * in-memory tables keyed by generated identifiers, an insert per initiated
 * payment or sent payout, and a status lookup that answers 404 for an
 * unknown payment. Identifiers and timestamps, which the server draws from
 * uuid4() and the clock, are parameters here.
 */
module PaymentServer {
  import opened Wrappers

  /**
   * A monetary amount (a float in the server), carried from request to record
   * to response. No operation of the server computes with it, so the model
   * only ever copies it and the `real` inside is a placeholder carrier, not a
   * model of floating point.
   */
  datatype Amount = Amount(carried: real)

  const Pending: string := "PENDING"
  const Completed: string := "COMPLETED"
  const Sent: string := "SENT"

  datatype PaymentInitiationRequest = PaymentInitiationRequest(
    debtorAccount: string,
    creditorAccount: string,
    amount: Amount,
    currency: string,
    reference: Option<string>)

  /** A row of `payments_store`. */
  datatype PaymentRecord = PaymentRecord(
    status: string,
    amount: Amount,
    currency: string,
    reference: Option<string>,
    createdAt: string)

  datatype PaymentInitiationResponse = PaymentInitiationResponse(
    paymentId: string,
    status: string,
    createdAt: string)

  datatype PaymentStatusResponse = PaymentStatusResponse(
    paymentId: string,
    status: string,
    processedAt: Option<string>,
    amount: Amount,
    currency: string,
    reference: Option<string>)

  datatype PayoutRequest = PayoutRequest(
    payeeName: string,
    payeeBankDetails: string,
    amount: Amount,
    currency: string,
    reference: Option<string>)

  /** A row of `payouts_store`: the payee and the reference are not kept. */
  datatype PayoutRecord = PayoutRecord(
    status: string,
    amount: Amount,
    currency: string,
    sentAt: string)

  datatype PayoutResponse = PayoutResponse(
    payoutId: string,
    status: string,
    sentAt: string)

  /** FastAPI's HTTPException. */
  datatype HttpError = HttpException(statusCode: int, detail: string)

  /**
   * The answer of the status endpoint for `paymentId` against the table
   * `store`, where `now` is the clock reading taken while answering.
   */
  function StatusOf(store: map<string, PaymentRecord>, paymentId: string, now: string): (r: Result<PaymentStatusResponse, HttpError>)
    ensures paymentId !in store <==> r == Err(HttpException(404, "Payment not found"))
    ensures paymentId in store ==>
              && r.Ok?
              && r.value.paymentId == paymentId
              && r.value.status == store[paymentId].status
              && r.value.amount == store[paymentId].amount
              && r.value.currency == store[paymentId].currency
              && r.value.reference == store[paymentId].reference
    ensures r.Ok? ==> (r.value.processedAt.Some? <==> r.value.status == Completed)
  {
    if paymentId !in store then
      Err(HttpException(404, "Payment not found"))
    else
      var payment := store[paymentId];
      Ok(PaymentStatusResponse(
        paymentId,
        payment.status,
        if payment.status == Completed then Some(now) else None,
        payment.amount,
        payment.currency,
        payment.reference))
  }

  /**
   * Querying a payment right after it was initiated answers PENDING with no
   * processing time and the request's amount, currency and reference,
   * whatever the table held before.
   */
  lemma StatusAfterInitiate(store: map<string, PaymentRecord>, paymentId: string, request: PaymentInitiationRequest, createdAt: string, now: string)
    ensures StatusOf(store[paymentId := PaymentRecord(Pending, request.amount, request.currency, request.reference, createdAt)], paymentId, now)
         == Ok(PaymentStatusResponse(paymentId, Pending, None, request.amount, request.currency, request.reference))
  {
  }

  /** The two module-level tables of the server. */
  class Server {
    var payments: map<string, PaymentRecord>
    var payouts: map<string, PayoutRecord>

    /** Both tables start empty. */
    constructor ()
      ensures payments == map[] && payouts == map[]
    {
      payments, payouts := map[], map[];
    }

    /**
     * POST /payments/initiate: stores a PENDING record for the request under
     * `paymentId` (drawn from uuid4()) created at `now`, and answers with the
     * id, the status and the stored creation time.
     */
    method InitiatePayment(request: PaymentInitiationRequest, paymentId: string, now: string) returns (response: PaymentInitiationResponse)
      modifies this
      ensures paymentId in payments
      ensures payments[paymentId] == PaymentRecord(Pending, request.amount, request.currency, request.reference, now)
      ensures forall id :: id != paymentId ==> (id in payments <==> id in old(payments))
      ensures forall id :: id != paymentId && id in old(payments) ==> payments[id] == old(payments)[id]
      ensures payouts == old(payouts)
      ensures response == PaymentInitiationResponse(paymentId, Pending, payments[paymentId].createdAt)
    {
      payments := payments[paymentId := PaymentRecord(Pending, request.amount, request.currency, request.reference, now)];
      response := PaymentInitiationResponse(paymentId, Pending, payments[paymentId].createdAt);
    }

    /**
     * GET /payments/{payment_id}/status: 404 for an unknown id, otherwise the
     * stored details with a processing time (`now`) only for COMPLETED
     * payments. Reads the tables and changes nothing.
     */
    method GetPaymentStatus(paymentId: string, now: string) returns (r: Result<PaymentStatusResponse, HttpError>)
      ensures r == StatusOf(payments, paymentId, now)
    {
      r := StatusOf(payments, paymentId, now);
    }

    /**
     * POST /payouts/send: stores a SENT record for the request under
     * `payoutId` (drawn from uuid4()) sent at `now`, and answers with the id,
     * the status and the stored time.
     */
    method SendPayout(request: PayoutRequest, payoutId: string, now: string) returns (response: PayoutResponse)
      modifies this
      ensures payoutId in payouts
      ensures payouts[payoutId] == PayoutRecord(Sent, request.amount, request.currency, now)
      ensures forall id :: id != payoutId ==> (id in payouts <==> id in old(payouts))
      ensures forall id :: id != payoutId && id in old(payouts) ==> payouts[id] == old(payouts)[id]
      ensures payments == old(payments)
      ensures response == PayoutResponse(payoutId, Sent, payouts[payoutId].sentAt)
    {
      payouts := payouts[payoutId := PayoutRecord(Sent, request.amount, request.currency, now)];
      response := PayoutResponse(payoutId, Sent, payouts[payoutId].sentAt);
    }

    /**
     * Initiate a payment and then query the id it returned: the answer is
     * PENDING, has no processing time, carries the request's details, and
     * the query left both tables as the initiation made them.
     */
    method InitiateThenQuery(request: PaymentInitiationRequest, paymentId: string, createdAt: string, now: string)
      returns (initiated: PaymentInitiationResponse, status: Result<PaymentStatusResponse, HttpError>)
      modifies this
      ensures payments == old(payments)[paymentId := PaymentRecord(Pending, request.amount, request.currency, request.reference, createdAt)]
      ensures payouts == old(payouts)
      ensures initiated == PaymentInitiationResponse(paymentId, Pending, createdAt)
      ensures status == Ok(PaymentStatusResponse(initiated.paymentId, Pending, None, request.amount, request.currency, request.reference))
    {
      initiated := InitiatePayment(request, paymentId, createdAt);
      status := GetPaymentStatus(initiated.paymentId, now);
      StatusAfterInitiate(old(payments), paymentId, request, createdAt, now);
    }
  }

  /**
   * On a freshly started server, sending a payout does not make its id known
   * to the payment status endpoint: the two tables are separate.
   */
  method PayoutIsNotAPayment(request: PayoutRequest, payoutId: string, sentAt: string, now: string)
    returns (sent: PayoutResponse, status: Result<PaymentStatusResponse, HttpError>)
    ensures sent == PayoutResponse(payoutId, Sent, sentAt)
    ensures status == Err(HttpException(404, "Payment not found"))
  {
    var server := new Server();
    sent := server.SendPayout(request, payoutId, sentAt);
    status := server.GetPaymentStatus(payoutId, now);
  }
}
