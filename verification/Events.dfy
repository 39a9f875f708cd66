/** The canonical event that the payment service publishes and the consumer reads. */
module Events {
  /** Amounts are in whole cents; times are in nanoseconds. */
  datatype PaymentEvent = PaymentEvent(
    eventID: string,
    eventType: string,
    paymentID: string,
    provider: string,
    amount: int,
    currency: string,
    status: string,
    createdAt: int)
}
