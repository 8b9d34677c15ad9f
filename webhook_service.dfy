/**
 * `WebhookService`: provider notifications. A Stripe notification is first
 * authenticated (the signature check is the `construct` parameter: the event,
 * or the message of what the check threw), then routed by type. The
 * succeeded and failed handlers look among the order's PENDING payments for
 * the one whose provider id is the intent's id and act on the first they
 * meet. PayPal and Klarna notifications are acknowledged without effect.
 */
module Webhooks {
  import opened Wrappers
  import opened DomainEvents
  import opened Payments

  /** The part of a Stripe PaymentIntent the handlers read. */
  datatype PaymentIntent = PaymentIntent(id: string, orderId: Option<string>, lastErrorMessage: Option<string>)

  datatype StripeEvent = StripeEvent(eventType: string, intent: PaymentIntent)

  /** `{ received: true }`. */
  datatype Ack = Ack(received: bool)

  const InvalidSignature := "Invalid webhook signature"

  datatype Route = OnSucceeded | OnFailed | OnDispute | Unhandled

  /** The `switch (event.type)` of `handleStripeWebhook`. */
  function StripeRoute(eventType: string): (r: Route)
    ensures r == OnSucceeded <==> eventType == "payment_intent.succeeded"
    ensures r == OnFailed <==> eventType == "payment_intent.payment_failed"
    ensures r == OnDispute <==> eventType == "charge.dispute.created"
  {
    if eventType == "payment_intent.succeeded" then OnSucceeded
    else if eventType == "payment_intent.payment_failed" then OnFailed
    else if eventType == "charge.dispute.created" then OnDispute
    else Unhandled
  }

  /** `metadata?.orderId`, with an empty id treated as missing (`!orderId`). */
  function OrderIdOf(intent: PaymentIntent): (r: Option<string>)
    ensures r.Some? <==> intent.orderId.Some? && intent.orderId.value != ""
    ensures r.Some? ==> r == intent.orderId
  {
    if intent.orderId.Some? && intent.orderId.value != "" then intent.orderId else None
  }

  /** `last_payment_error?.message || 'Payment failed'`. */
  function FailureReasonOf(intent: PaymentIntent): (r: string)
    ensures r != ""
    ensures intent.lastErrorMessage.Some? && intent.lastErrorMessage.value != "" ==> r == intent.lastErrorMessage.value
    ensures intent.lastErrorMessage.None? || intent.lastErrorMessage.value == "" ==> r == "Payment failed"
  {
    if intent.lastErrorMessage.Some? && intent.lastErrorMessage.value != "" then intent.lastErrorMessage.value
    else "Payment failed"
  }

  /** The payload the webhook handlers publish: the record's fields, provider always 'stripe'. */
  function StripePayload(p: Payment): (r: Record)
    ensures r.Keys == EventPayload(p).Keys && r["provider"] == Str("stripe")
    ensures forall k | k in r && k != "provider" :: r[k] == EventPayload(p)[k]
  {
    EventPayload(p)["provider" := Str("stripe")]
  }

  /** The handler's own `payment.succeeded` event for the matched record. */
  function WebhookSucceededEvent(p: Payment, eventId: string, now: int): (e: DomainEvent)
    ensures e.eventType == "payment.succeeded" && e.aggregateId == p.id && e.payload == StripePayload(p)
  {
    Make(PaymentSucceeded, p.id, StripePayload(p), None, eventId, now)
  }

  /** The handler's `payment.failed` event for the matched record. */
  function WebhookFailedEvent(p: Payment, reason: string, eventId: string, now: int): (e: DomainEvent)
    ensures e.eventType == "payment.failed" && e.aggregateId == p.id
    ensures e.payload == StripePayload(p)["reason" := Str(reason)]
  {
    Make(PaymentFailed, p.id, StripePayload(p)["reason" := Str(reason)], None, eventId, now)
  }

  /** A stored record the handlers would act on for this order and intent. */
  predicate Matches(p: Payment, orderId: string, intentId: string) {
    p.orderId == orderId && p.status == Pending && p.providerPaymentId == intentId
  }

  /** Some stored record matches. */
  predicate AnyMatch(payments: map<string, Payment>, orderId: string, intentId: string) {
    exists id | id in payments :: Matches(payments[id], orderId, intentId)
  }

  class WebhookService {
    const paymentService: PaymentService
    const emitter: EventEmitter

    /** The payment service publishes through the same emitter. */
    ghost predicate Valid()
      reads this, paymentService
    {
      paymentService.Valid() && paymentService.emitter == emitter
    }

    constructor (paymentService: PaymentService)
      requires paymentService.Valid()
      ensures Valid() && this.paymentService == paymentService
    {
      this.paymentService := paymentService;
      this.emitter := paymentService.emitter;
    }

    /**
     * The first PENDING payment of `orderId` whose provider id is
     * `intentId`, among those `findAll` returns; None when there is none.
     */
    method FirstMatch(orderId: string, intentId: string) returns (m: Option<Payment>)
      requires Valid()
      ensures m.None? <==> !AnyMatch(paymentService.payments, orderId, intentId)
      ensures m.Some? ==>
        && m.value.id in paymentService.payments
        && paymentService.payments[m.value.id] == m.value
        && Matches(m.value, orderId, intentId)
    {
      var found := paymentService.FindPendingByOrder(orderId);
      var i := 0;
      m := None;
      while i < |found|
        invariant 0 <= i <= |found|
        invariant forall j | 0 <= j < i :: found[j].providerPaymentId != intentId
      {
        if found[i].providerPaymentId == intentId {
          m := Some(found[i]);
          break;
        }
        i := i + 1;
      }
    }

    /**
     * `handleStripePaymentSucceeded`: confirms the matched payment through
     * the payment service and then publishes its own `payment.succeeded`,
     * whichever way the confirmation went. An error thrown by the
     * confirmation propagates, and then no event of the handler's own is
     * published. `acted` is the record acted on.
     */
    method HandlePaymentSucceeded(intent: PaymentIntent, reply: Result<string, string>, now: int,
                                  confirmEventId: string, eventId: string)
      returns (r: Result<(), Error>, ghost acted: Option<Payment>)
      requires Valid()
      modifies paymentService, emitter
      ensures Valid()
      ensures acted.None? <==>
        OrderIdOf(intent).None? || !AnyMatch(old(paymentService.payments), OrderIdOf(intent).value, intent.id)
      ensures acted.None? ==>
        && r.Success?
        && paymentService.payments == old(paymentService.payments)
        && emitter.published == old(emitter.published)
      ensures acted.Some? ==>
        var p := acted.value;
        && p.id in old(paymentService.payments) && old(paymentService.payments)[p.id] == p
        && Matches(p, OrderIdOf(intent).value, intent.id)
        && var s := ConfirmStep(p, reply, now, confirmEventId);
        && paymentService.payments == old(paymentService.payments)[p.id := s.saved]
        && (s.result.Success? ==> r.Success? && emitter.published == old(emitter.published)
                                    + [s.event.value, WebhookSucceededEvent(p, eventId, now)])
        && (s.result.Failure? ==> r == Failure(s.result.error) && emitter.published == old(emitter.published))
    {
      var orderId := OrderIdOf(intent);
      if orderId.None? {
        return Success(()), None;
      }
      var m := FirstMatch(orderId.value, intent.id);
      if m.None? {
        return Success(()), None;
      }
      var p := m.value;
      acted := Some(p);
      var confirmed := paymentService.ConfirmPayment(p.id, reply, now, confirmEventId);
      if confirmed.Failure? {
        return Failure(confirmed.error), acted;
      }
      emitter.EmitAsync(WebhookSucceededEvent(p, eventId, now));
      r := Success(());
    }

    /**
     * `handleStripePaymentFailed`: marks the matched record FAILED on the
     * loaded copy only (nothing is saved) and publishes one `payment.failed`
     * with the intent's error message as reason.
     */
    method HandlePaymentFailed(intent: PaymentIntent, now: int, eventId: string)
      returns (ghost acted: Option<Payment>)
      requires Valid()
      modifies emitter
      ensures Valid()
      ensures paymentService.payments == old(paymentService.payments)
      ensures acted.None? <==>
        OrderIdOf(intent).None? || !AnyMatch(paymentService.payments, OrderIdOf(intent).value, intent.id)
      ensures acted.None? ==> emitter.published == old(emitter.published)
      ensures acted.Some? ==>
        && acted.value.id in paymentService.payments && paymentService.payments[acted.value.id] == acted.value
        && Matches(acted.value, OrderIdOf(intent).value, intent.id)
        && emitter.published == old(emitter.published)
             + [WebhookFailedEvent(acted.value, FailureReasonOf(intent), eventId, now)]
    {
      var orderId := OrderIdOf(intent);
      if orderId.None? {
        return None;
      }
      var m := FirstMatch(orderId.value, intent.id);
      if m.None? {
        return None;
      }
      var loaded := m.value.(status := Failed, failureReason := Some(FailureReasonOf(intent)));
      emitter.EmitAsync(WebhookFailedEvent(loaded, loaded.failureReason.value, eventId, now));
      acted := m;
    }

    /**
     * `handleStripeWebhook`: a failed signature check, or any error inside a
     * handler, is reported as 'Invalid webhook signature'; otherwise the event
     * is routed and acknowledged. A succeeded event confirms the matched
     * record as `handlePaymentSucceeded` does, a failed event publishes the
     * failure, and a dispute or an unknown type changes nothing. `acted` is
     * the record the succeeded or failed handler acted on.
     */
    method HandleStripeWebhook(construct: Result<StripeEvent, string>, reply: Result<string, string>,
                               now: int, confirmEventId: string, eventId: string)
      returns (r: Result<Ack, Error>, ghost acted: Option<Payment>)
      requires Valid()
      modifies paymentService, emitter
      ensures Valid()
      ensures r.Success? ==> r.value == Ack(true)
      ensures r.Failure? ==> r.error == BadRequest(InvalidSignature)
      ensures construct.Failure? ==> r.Failure?
      ensures construct.Failure? || StripeRoute(construct.value.eventType) in {OnDispute, Unhandled} ==>
        && r == (if construct.Failure? then Failure(BadRequest(InvalidSignature)) else Success(Ack(true)))
        && paymentService.payments == old(paymentService.payments) && emitter.published == old(emitter.published)
      ensures construct.Success? && StripeRoute(construct.value.eventType) in {OnSucceeded, OnFailed} ==>
        var intent := construct.value.intent;
        acted.None? <==> OrderIdOf(intent).None? || !AnyMatch(old(paymentService.payments), OrderIdOf(intent).value, intent.id)
      ensures construct.Success? && StripeRoute(construct.value.eventType) in {OnSucceeded, OnFailed} && acted.None? ==>
        && r == Success(Ack(true))
        && paymentService.payments == old(paymentService.payments) && emitter.published == old(emitter.published)
      ensures construct.Success? && StripeRoute(construct.value.eventType) in {OnSucceeded, OnFailed} && acted.Some? ==>
        && acted.value.id in old(paymentService.payments) && old(paymentService.payments)[acted.value.id] == acted.value
        && Matches(acted.value, OrderIdOf(construct.value.intent).value, construct.value.intent.id)
      ensures construct.Success? && StripeRoute(construct.value.eventType) == OnSucceeded && acted.Some? ==>
        var p := acted.value;
        var s := ConfirmStep(p, reply, now, confirmEventId);
        && paymentService.payments == old(paymentService.payments)[p.id := s.saved]
        && (s.result.Success? <==> r.Success?)
        && (s.result.Success? ==> emitter.published == old(emitter.published)
                                    + [s.event.value, WebhookSucceededEvent(p, eventId, now)])
        && (s.result.Failure? ==> emitter.published == old(emitter.published))
      ensures construct.Success? && StripeRoute(construct.value.eventType) == OnFailed && acted.Some? ==>
        && r == Success(Ack(true))
        && paymentService.payments == old(paymentService.payments)
        && emitter.published == old(emitter.published)
             + [WebhookFailedEvent(acted.value, FailureReasonOf(construct.value.intent), eventId, now)]
    {
      if construct.Failure? {
        return Failure(BadRequest(InvalidSignature)), None;
      }
      var event := construct.value;
      var route := StripeRoute(event.eventType);
      acted := None;
      if route == OnSucceeded {
        var handled;
        handled, acted := HandlePaymentSucceeded(event.intent, reply, now, confirmEventId, eventId);
        if handled.Failure? {
          return Failure(BadRequest(InvalidSignature)), acted;
        }
      } else if route == OnFailed {
        acted := HandlePaymentFailed(event.intent, now, eventId);
      }
      r := Success(Ack(true));
    }

    /** `verifyPayPalSignature`: a placeholder that accepts everything. */
    function VerifyPayPalSignature(body: string, headers: map<string, string>): (ok: bool)
      ensures ok
    {
      true
    }

    /**
     * `handlePayPalWebhook`: the signature check always passes and every
     * handler only logs, so every notification is acknowledged and nothing
     * changes.
     */
    method HandlePayPalWebhook(body: string, eventType: string, headers: map<string, string>)
      returns (r: Result<Ack, Error>)
      ensures r == Success(Ack(true))
    {
      if !VerifyPayPalSignature(body, headers) {
        return Failure(BadRequest("Invalid PayPal webhook signature"));
      }
      r := Success(Ack(true));
    }

    /** `handleKlarnaWebhook`: acknowledged without effect. */
    method HandleKlarnaWebhook(body: string, headers: map<string, string>) returns (r: Ack)
      ensures r == Ack(true)
    {
      r := Ack(true);
    }
  }

  /**
   * A second delivery of the same succeeded notification, when at most one
   * record matched the first, finds no PENDING match and changes nothing:
   * the PENDING filter is the only deduplication. `acted1` is the record the
   * first delivery confirmed, and `afterFirst` and `publishedAfterFirst` are
   * the records and the published log that delivery left.
   */
  method RepeatedSucceededDelivery(svc: WebhookService, intent: PaymentIntent, reply: Result<string, string>,
                                   now: int, c1: string, e1: string, c2: string, e2: string)
    returns (r1: Result<(), Error>, r2: Result<(), Error>, ghost acted1: Option<Payment>,
             ghost afterFirst: map<string, Payment>, ghost publishedAfterFirst: seq<DomainEvent>)
    requires svc.Valid() && OrderIdOf(intent).Some?
    requires forall id1, id2 | id1 in svc.paymentService.payments && id2 in svc.paymentService.payments
      && Matches(svc.paymentService.payments[id1], OrderIdOf(intent).value, intent.id)
      && Matches(svc.paymentService.payments[id2], OrderIdOf(intent).value, intent.id) :: id1 == id2
    modifies svc.paymentService, svc.emitter
    ensures svc.Valid()
    ensures acted1.None? <==> !AnyMatch(old(svc.paymentService.payments), OrderIdOf(intent).value, intent.id)
    ensures acted1.Some? ==>
      && acted1.value.id in old(svc.paymentService.payments)
      && old(svc.paymentService.payments)[acted1.value.id] == acted1.value
      && Matches(acted1.value, OrderIdOf(intent).value, intent.id)
    ensures acted1.None? ==>
      && r1.Success?
      && afterFirst == old(svc.paymentService.payments)
      && publishedAfterFirst == old(svc.emitter.published)
    ensures acted1.Some? ==>
      var s := ConfirmStep(acted1.value, reply, now, c1);
      && afterFirst == old(svc.paymentService.payments)[acted1.value.id := s.saved]
      && (r1.Success? <==> s.result.Success?)
      && publishedAfterFirst == old(svc.emitter.published)
           + (if s.result.Success? then [s.event.value, WebhookSucceededEvent(acted1.value, e1, now)] else [])
    ensures !AnyMatch(afterFirst, OrderIdOf(intent).value, intent.id)
    ensures r2.Success?
    ensures svc.paymentService.payments == afterFirst && svc.emitter.published == publishedAfterFirst
  {
    ghost var before := svc.paymentService.payments;
    r1, acted1 := svc.HandlePaymentSucceeded(intent, reply, now, c1, e1);
    afterFirst := svc.paymentService.payments;
    publishedAfterFirst := svc.emitter.published;
    if acted1.Some? {
      var pid := acted1.value.id;
      assert forall id | id in afterFirst && id != pid :: afterFirst[id] == before[id];
      assert afterFirst[pid].status != Pending;
      if !ConfirmStep(acted1.value, reply, now, c1).result.Success? {
        assert publishedAfterFirst == old(svc.emitter.published) + [];
      }
    }
    assert !AnyMatch(afterFirst, OrderIdOf(intent).value, intent.id);
    ghost var a2: Option<Payment>;
    r2, a2 := svc.HandlePaymentSucceeded(intent, reply, now, c2, e2);
  }
}
