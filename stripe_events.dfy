/** Payment-provider events as the receiver gets them and as they travel through the queue. */
module StripeEvents {
  import opened Common

  /** The fields of `event.data.object` the pipeline reads: a checkout session carries its
      total in `amount_total`, a payment intent in `amount` (both in the smallest currency
      unit). Both amounts are taken to be present. */
  datatype EventObject = EventObject(
    id: string,
    clientReferenceId: Option<string>,
    amountTotal: nat,
    amount: nat)

  /** A verified provider event; `data` is `data.object`, None when it is null. */
  datatype StripeEvent = StripeEvent(
    id: string,
    eventType: string,
    data: Option<EventObject>,
    created: int,
    livemode: bool)

  /** The normalised envelope the receiver enqueues and the processor parses back. */
  datatype QueuedEvent = QueuedEvent(
    eventId: string,
    eventType: string,
    eventData: Option<EventObject>,
    created: int,
    livemode: bool)

  const CHECKOUT_COMPLETED := "checkout.session.completed"
  const PAYMENT_SUCCEEDED := "payment_intent.succeeded"
}
