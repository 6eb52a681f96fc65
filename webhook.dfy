/**
 * The webhook endpoint of the Stripe Connect backend: the processor's
 * verification of a delivery is an abstract outcome, and the endpoint turns it
 * into an HTTP response and at most one handler branch.
 */
module Webhook {
  import opened Wrappers

  /** A verified event: its type tag and the id of the object in its data. */
  datatype Event = Event(eventType: string, objectId: string)

  /** What verifying the raw payload against the signature header yields. */
  datatype Verification = InvalidPayload | InvalidSignature | Verified(event: Event)

  /** The HTTP response: an error with its detail, or the JSON body `{"status": status}`. */
  datatype Response = HttpError(statusCode: int, detail: string) | Acknowledged(status: string)

  /** The handler branch a verified event selects, with the object id it reports. */
  datatype Branch = PaymentIntentSucceeded(intentId: string) | CheckoutCompleted(sessionId: string) | Unhandled

  /** The result of one delivery: the response and the branch taken, if dispatch was reached. */
  datatype Delivery = Delivery(response: Response, branch: Option<Branch>)

  const PaymentIntentSucceededType: string := "payment_intent.succeeded"
  const CheckoutSessionCompletedType: string := "checkout.session.completed"

  /** Selects the handler branch by exact match on the event's type tag. */
  function Dispatch(event: Event): (b: Branch)
    ensures b.PaymentIntentSucceeded? <==> event.eventType == PaymentIntentSucceededType
    ensures b.CheckoutCompleted? <==> event.eventType == CheckoutSessionCompletedType
    ensures b == Unhandled <==>
      event.eventType != PaymentIntentSucceededType && event.eventType != CheckoutSessionCompletedType
    ensures b.PaymentIntentSucceeded? ==> b.intentId == event.objectId
    ensures b.CheckoutCompleted? ==> b.sessionId == event.objectId
  {
    if event.eventType == "payment_intent.succeeded" then PaymentIntentSucceeded(event.objectId)
    else if event.eventType == "checkout.session.completed" then CheckoutCompleted(event.objectId)
    else Unhandled
  }

  /**
   * One delivery: a verification failure ends it with a 400 before dispatch;
   * a verified event is dispatched and acknowledged.
   */
  function HandleDelivery(v: Verification): (d: Delivery)
    ensures v == InvalidPayload ==> d == Delivery(HttpError(400, "Invalid payload"), None)
    ensures v == InvalidSignature ==> d == Delivery(HttpError(400, "Invalid signature"), None)
    ensures v.Verified? ==> d.response == Acknowledged("success") && d.branch == Some(Dispatch(v.event))
  {
    match v
    case InvalidPayload => Delivery(HttpError(400, "Invalid payload"), None)
    case InvalidSignature => Delivery(HttpError(400, "Invalid signature"), None)
    case Verified(event) => Delivery(Acknowledged("success"), Some(Dispatch(event)))
  }

  /**
   * A delivery is rejected exactly when verification failed, and then no
   * handler branch runs; otherwise it is acknowledged and some branch runs.
   */
  lemma RejectedIffUnverified(v: Verification)
    ensures HandleDelivery(v).response.HttpError? <==> !v.Verified?
    ensures HandleDelivery(v).branch.None? <==> !v.Verified?
    ensures HandleDelivery(v).response.HttpError? ==> HandleDelivery(v).response.statusCode == 400
  {
  }

  /** The two verification failures produce responses the caller can tell apart. */
  lemma FailuresDistinguishable()
    ensures HandleDelivery(InvalidPayload).response != HandleDelivery(InvalidSignature).response
  {
  }

  /** The acknowledgment does not depend on the type or contents of the verified event. */
  lemma AcknowledgmentIndependentOfEvent(e1: Event, e2: Event)
    ensures HandleDelivery(Verified(e1)).response == HandleDelivery(Verified(e2)).response
    ensures HandleDelivery(Verified(e1)).response == Acknowledged("success")
  {
  }

  /**
   * Each handler branch fires exactly for a verified event of its type, and
   * every other type of verified event is acknowledged with no handler.
   */
  lemma BranchFiresIff(v: Verification, id: string)
    ensures HandleDelivery(v).branch == Some(PaymentIntentSucceeded(id)) <==>
      v == Verified(Event(PaymentIntentSucceededType, id))
    ensures HandleDelivery(v).branch == Some(CheckoutCompleted(id)) <==>
      v == Verified(Event(CheckoutSessionCompletedType, id))
    ensures HandleDelivery(v).branch == Some(Unhandled) <==>
      v.Verified? && v.event.eventType != PaymentIntentSucceededType &&
      v.event.eventType != CheckoutSessionCompletedType
  {
  }
}
