/** Records of the payment service, without their timestamps. */
module PaymentTypes {
  import opened Prelude

  datatype Status = Pending | Succeeded | Failed | Refunded | Cancelled

  datatype PayMethod = Card | Kaspi | Wallet | OtherMethod(name: string)

  /** The input of Create. A payment row keeps it for good: Update writes none of these columns. */
  datatype Checkout = Checkout(
    orderId: string, customerId: string, email: string, amount: int, via: PayMethod, key: string)

  datatype Payment = Payment(
    id: string, checkout: Checkout,
    status: Status, txn: string, refundReason: string, failureReason: string)

  datatype Request =
    | RefundRequest(id: string, reason: string)
    | ConfirmRequest(id: string, txn: string)
    | CancelRequest(id: string, reason: string)

  datatype Error = InvalidInput | InvalidState | NotFound | Conflict | Unavailable

  type Reply = Result<Payment, Error>

  datatype Event = Event(
    paymentId: string, orderId: string, customerId: string, amount: int,
    status: Status, reason: string, txn: string)

  datatype MailKind = Receipt | RefundNote | FailureNote

  datatype Mail = Mail(
    kind: MailKind, to: string, paymentId: string, orderId: string, amount: int, reason: string)

  datatype ChargeResult = ChargeResult(status: Status, txn: string, failureReason: string)

  predicate ValidCheckout(c: Checkout) {
    c.orderId != "" && c.customerId != "" && c.email != "" && c.amount > 0 &&
    !c.via.OtherMethod? && c.key != ""
  }

  predicate ValidRequest(r: Request) {
    r.id != "" && match r
                  case RefundRequest(_, reason) => reason != ""
                  case ConfirmRequest(_, txn) => txn != ""
                  case CancelRequest(_, reason) => reason != ""
  }

  function NewPayment(id: string, c: Checkout): Payment {
    Payment(id, c, Pending, "", "", "")
  }

  function FirstNonEmpty(a: string, b: string): string {
    if a != "" then a else b
  }

  function EventOf(p: Payment): Event {
    Event(p.id, p.checkout.orderId, p.checkout.customerId, p.checkout.amount,
          p.status, FirstNonEmpty(p.refundReason, p.failureReason), p.txn)
  }

  /** Statuses that are followed by an e-mail: a cancellation and a creation are not. */
  predicate Mailable(s: Status) {
    s.Succeeded? || s.Failed? || s.Refunded?
  }

  function MailFor(p: Payment): Mail
    requires Mailable(p.status)
  {
    var c := p.checkout;
    match p.status
    case Succeeded => Mail(Receipt, c.email, p.id, c.orderId, c.amount, "")
    case Failed => Mail(FailureNote, c.email, p.id, c.orderId, c.amount, p.failureReason)
    case Refunded => Mail(RefundNote, c.email, p.id, c.orderId, c.amount, p.refundReason)
  }

  /** What the service relies on a provider for. */
  predicate Honest(r: ChargeResult) {
    && (r.status.Succeeded? ==> r.txn != "" && r.failureReason == "")
    && (r.status.Failed? ==> r.txn != "" && r.failureReason != "")
  }

  /** The provider wired in production: only a wallet payment above its limit is declined. */
  const WALLET_LIMIT := 500000

  function MockCharge(p: Payment): (r: ChargeResult)
    ensures Honest(r) && !r.status.Pending?
    ensures r.status.Failed? <==> p.checkout.via == Wallet && p.checkout.amount > WALLET_LIMIT
  {
    if p.checkout.via.Wallet? && p.checkout.amount > WALLET_LIMIT then
      ChargeResult(Failed, "mock-" + p.id, "wallet limit exceeded")
    else
      ChargeResult(Succeeded, "mock-" + p.id, "")
  }
}
