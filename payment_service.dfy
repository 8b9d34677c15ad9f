/**
 * `PaymentService`: the payment record's status machine. A record is created
 * PENDING once the provider has created its intent or order; confirmation
 * moves it to SUCCEEDED or FAILED and publishes one event; a refund moves a
 * SUCCEEDED record to REFUNDED. Provider replies (or the message of what they
 * threw), the clock and the generated ids are parameters; the payments table
 * is a map from id to record.
 */
module Payments {
  import opened Wrappers
  import opened DomainEvents
  import opened PaymentDtos

  /**
   * The status column's values. Of the modelled operations none sets
   * PROCESSING or CANCELLED; only `getPaymentStatus`, which is not part of
   * this model, copies or maps a provider's status into the column.
   */
  datatype Status = Pending | Processing | Succeeded | Failed | Cancelled | Refunded

  /** The column value of each status. */
  function StatusName(s: Status): (r: string) {
    match s
    case Pending => "PENDING"
    case Processing => "PROCESSING"
    case Succeeded => "SUCCEEDED"
    case Failed => "FAILED"
    case Cancelled => "CANCELLED"
    case Refunded => "REFUNDED"
  }

  /** A row of the `payments` table; times are milliseconds. */
  datatype Payment = Payment(
    id: string,
    orderId: string,
    userId: string,
    amount: int,
    currency: string,
    provider: string,
    providerPaymentId: string,
    status: Status,
    paymentMethodId: Option<string>,
    failureReason: Option<string>,
    refundedAmount: Option<int>,
    refundReason: Option<string>,
    confirmedAt: Option<int>,
    refundedAt: Option<int>)

  /** The exceptions the service throws, with their messages. */
  datatype Error = NotFound(message: string) | BadRequest(message: string)

  const CreateFailed := "Failed to create payment intent"
  const NotPending := "Payment is not in pending state"
  const ConfirmFailed := "Failed to confirm payment"
  const NotConfirmedReason := "Payment not confirmed by provider"
  const RefundNotAllowed := "Can only refund successful payments"
  const RefundFailed := "Failed to refund payment"

  function NotFoundMessage(id: string): (r: string) {
    "Payment with ID " + id + " not found"
  }

  /**
   * The status changes the modelled operations make (confirmation and
   * refund); `getPaymentStatus`, which is not part of this model, can make
   * others. Every record starts PENDING.
   */
  predicate CanTransition(from: Status, to: Status) {
    || (from == Pending && to == Succeeded)
    || (from == Pending && to == Failed)
    || (from == Succeeded && to == Refunded)
  }

  /**
   * What every stored record satisfies: the timestamps and reasons that a
   * status's transition writes are present exactly from that status on.
   */
  predicate WellFormed(p: Payment) {
    && p.status in {Pending, Succeeded, Failed, Refunded}
    && (p.status == Pending ==> p.confirmedAt.None? && p.failureReason.None?)
    && (p.status in {Succeeded, Refunded} <==> p.confirmedAt.Some?)
    && (p.status == Failed <==> p.failureReason.Some?)
    && (p.status == Refunded <==> p.refundedAt.Some?)
    && (p.status == Refunded <==> p.refundedAmount.Some?)
  }

  // ----- createPaymentIntent -----

  /** What a provider returns when it creates an intent (Stripe) or an order (PayPal). */
  datatype ProviderIntent = ProviderIntent(id: string, clientSecret: Option<string>, approveHref: Option<string>)

  datatype IntentResponse = IntentResponse(paymentId: string, clientSecret: Option<string>, status: Status)

  /** `provider = 'stripe'`: the destructuring default only replaces a missing provider. */
  function ProviderOf(d: CreatePaymentIntentDto): (p: string)
    ensures d.provider.None? ==> p == "stripe"
    ensures d.provider.Some? ==> p == d.provider.value
  {
    d.provider.GetOr("stripe")
  }

  predicate Supported(provider: string) {
    provider == "stripe" || provider == "paypal"
  }

  /** `client_secret || links.find(rel === 'approve').href`: an empty secret counts as missing. */
  function ClientSecretOf(r: ProviderIntent): (s: Option<string>)
    ensures r.clientSecret.Some? && r.clientSecret.value != "" ==> s == r.clientSecret
    ensures r.clientSecret.None? || r.clientSecret.value == "" ==> s == r.approveHref
  {
    if r.clientSecret.Some? && r.clientSecret.value != "" then r.clientSecret else r.approveHref
  }

  /**
   * The record `createPaymentIntent` saves and the response it returns, or
   * the single error every failure is turned into. `reply` is the provider's
   * result, or the message of what it threw; it is not consulted for an
   * unsupported provider, which is rejected before any call.
   */
  function CreateOutcome(d: CreatePaymentIntentDto, reply: Result<ProviderIntent, string>, newId: string):
    (r: Result<(Payment, IntentResponse), Error>)
    ensures r.Success? <==> Supported(ProviderOf(d)) && reply.Success?
    ensures r.Failure? ==> r.error == BadRequest(CreateFailed)
    ensures r.Success? ==> var (p, resp) := r.value;
      && p.id == newId && p.status == Pending && WellFormed(p)
      && p.providerPaymentId == reply.value.id && p.provider == ProviderOf(d)
      && p.orderId == d.orderId && p.userId == d.userId
      && p.amount == d.amount && p.currency == d.currency
      && p.paymentMethodId.None?
      && resp == IntentResponse(newId, ClientSecretOf(reply.value), Pending)
  {
    var provider := ProviderOf(d);
    if !Supported(provider) then Failure(BadRequest(CreateFailed))
    else match reply
      case Failure(_) => Failure(BadRequest(CreateFailed))
      case Success(intent) =>
        var p := Payment(newId, d.orderId, d.userId, d.amount, d.currency, provider, intent.id, Pending,
                         None, None, None, None, None, None);
        Success((p, IntentResponse(newId, ClientSecretOf(intent), Pending)))
  }

  /** A request the DTO accepts with provider 'klarna' is still refused by the service. */
  lemma KlarnaAcceptedButUnsupported(d: CreatePaymentIntentDto, isUuid: string -> bool,
                                     reply: Result<ProviderIntent, string>, newId: string)
    requires d.provider == Some("klarna") && isUuid(d.orderId) && isUuid(d.userId)
    requires d.amount >= MinIntentAmount && d.paymentMethodId.None?
    ensures ValidCreateIntent(d, isUuid)
    ensures CreateOutcome(d, reply, newId) == Failure(BadRequest(CreateFailed))
  {
    ValidCreateIntentMeans(d, isUuid);
  }

  // ----- confirmPayment -----

  /**
   * Whether the provider confirms: the Stripe intent's status is 'succeeded'
   * or the PayPal capture's status is 'COMPLETED'. Any other provider is
   * never asked and never confirms.
   */
  predicate Confirmed(provider: string, reply: Result<string, string>) {
    || (provider == "stripe" && reply == Success("succeeded"))
    || (provider == "paypal" && reply == Success("COMPLETED"))
  }

  /** The provider was called and threw (`reply` carries the error message). */
  predicate ProviderThrew(provider: string, reply: Result<string, string>) {
    Supported(provider) && reply.Failure?
  }

  function EventPayload(p: Payment): (r: Record)
    ensures r.Keys == {"orderId", "userId", "amount", "currency", "provider"}
  {
    map["orderId" := Str(p.orderId), "userId" := Str(p.userId), "amount" := Num(p.amount),
        "currency" := Str(p.currency), "provider" := Str(p.provider)]
  }

  /** `new PaymentSucceededEvent(payment.id, {...})`. */
  function SucceededEvent(p: Payment, eventId: string, now: int): (e: DomainEvent)
    ensures e.eventType == "payment.succeeded" && e.aggregateType == "Payment"
    ensures e.aggregateId == p.id && e.payload == EventPayload(p) && e.metadata.None?
  {
    Make(PaymentSucceeded, p.id, EventPayload(p), None, eventId, now)
  }

  /** `new PaymentFailedEvent(payment.id, {..., reason})`. */
  function FailedEvent(p: Payment, reason: string, eventId: string, now: int): (e: DomainEvent)
    ensures e.eventType == "payment.failed" && e.aggregateType == "Payment" && e.aggregateId == p.id
    ensures e.payload.Keys == EventPayload(p).Keys + {"reason"} && e.payload["reason"] == Str(reason)
    ensures forall k | k in EventPayload(p) :: e.payload[k] == EventPayload(p)[k]
  {
    Make(PaymentFailed, p.id, EventPayload(p)["reason" := Str(reason)], None, eventId, now)
  }

  /** What one confirmation does: the record it saves, the event it emits and what it returns. */
  datatype ConfirmOutcome = ConfirmOutcome(saved: Payment, event: Option<DomainEvent>, result: Result<string, Error>)

  /** The effect of `confirmPayment` on a PENDING record. */
  function ConfirmStep(p: Payment, reply: Result<string, string>, now: int, eventId: string): (s: ConfirmOutcome)
    requires p.status == Pending
    ensures s.saved.status == Succeeded <==> Confirmed(p.provider, reply)
    ensures s.saved.status == Failed <==> !Confirmed(p.provider, reply)
    ensures CanTransition(p.status, s.saved.status)
    ensures s.event.Some? <==> !ProviderThrew(p.provider, reply)
    ensures s.result.Success? <==> !ProviderThrew(p.provider, reply)
    ensures Confirmed(p.provider, reply) ==>
      && s.saved.confirmedAt == Some(now)
      && s.event == Some(SucceededEvent(p, eventId, now))
      && s.result == Success("succeeded")
    ensures !Confirmed(p.provider, reply) && !ProviderThrew(p.provider, reply) ==>
      && s.saved.failureReason == Some(NotConfirmedReason)
      && s.event == Some(FailedEvent(p, NotConfirmedReason, eventId, now))
      && s.result == Success("failed")
    ensures ProviderThrew(p.provider, reply) ==>
      s.saved.failureReason == Some(reply.error) && s.result == Failure(BadRequest(ConfirmFailed))
    ensures s.saved.(status := p.status, failureReason := p.failureReason, confirmedAt := p.confirmedAt) == p
    ensures WellFormed(p) ==> WellFormed(s.saved)
  {
    if Confirmed(p.provider, reply) then
      var q := p.(status := Succeeded, confirmedAt := Some(now));
      ConfirmOutcome(q, Some(SucceededEvent(q, eventId, now)), Success("succeeded"))
    else if ProviderThrew(p.provider, reply) then
      ConfirmOutcome(p.(status := Failed, failureReason := Some(reply.error)), None, Failure(BadRequest(ConfirmFailed)))
    else
      var q := p.(status := Failed, failureReason := Some(NotConfirmedReason));
      ConfirmOutcome(q, Some(FailedEvent(q, NotConfirmedReason, eventId, now)), Success("failed"))
  }

  // ----- refundPayment -----

  datatype RefundOutcome = RefundOutcome(saved: Payment, result: Result<string, Error>)

  /**
   * The effect of `refundPayment` on a SUCCEEDED record. `reply` is the
   * provider's refund result; a provider other than stripe or paypal is not
   * called and counts as success. The amount defaults to the full amount and
   * is not compared with it; no event is published.
   */
  function RefundStep(p: Payment, d: RefundPaymentDto, reply: Result<(), string>, now: int): (s: RefundOutcome)
    requires p.status == Succeeded
    ensures s.result.Success? <==> !(Supported(p.provider) && reply.Failure?)
    ensures s.result.Failure? ==> s.saved == p && s.result.error == BadRequest(RefundFailed)
    ensures s.result.Success? ==>
      && s.saved.status == Refunded
      && s.saved.refundedAmount == Some(d.amount.GetOr(p.amount))
      && s.saved.refundReason == d.reason
      && s.saved.refundedAt == Some(now)
      && s.saved.(status := p.status, refundedAmount := p.refundedAmount,
                  refundReason := p.refundReason, refundedAt := p.refundedAt) == p
    ensures s.saved == p || CanTransition(p.status, s.saved.status)
    ensures WellFormed(p) ==> WellFormed(s.saved)
  {
    if Supported(p.provider) && reply.Failure? then RefundOutcome(p, Failure(BadRequest(RefundFailed)))
    else
      var amount := d.amount.GetOr(p.amount);
      RefundOutcome(p.(status := Refunded, refundedAmount := Some(amount), refundReason := d.reason,
                       refundedAt := Some(now)), Success("refunded"))
  }

  /** Nothing bounds a refund by the amount paid: any amount is recorded as refunded. */
  lemma RefundNotBounded(p: Payment, extra: nat, now: int)
    requires p.status == Succeeded && p.provider == "stripe"
    ensures var d := RefundPaymentDto(Some(p.amount + extra + 1), None);
      RefundStep(p, d, Success(()), now).saved.refundedAmount == Some(p.amount + extra + 1)
  {
  }

  // ----- mapPaypalStatus -----

  /** `mapPaypalStatus`: the PayPal order status as a payment status; unknown ones read as PENDING. */
  function MapPaypalStatus(s: string): (r: Status)
    ensures s == "COMPLETED" <==> r == Succeeded
    ensures s == "CANCELLED" <==> r == Cancelled
    ensures s == "FAILED" <==> r == Failed
    ensures r == Pending <==> s !in {"COMPLETED", "CANCELLED", "FAILED"}
  {
    if s == "CREATED" || s == "APPROVED" then Pending
    else if s == "COMPLETED" then Succeeded
    else if s == "CANCELLED" then Cancelled
    else if s == "FAILED" then Failed
    else Pending
  }

  /**
   * For a PayPal payment, confirmation succeeds exactly when the capture's
   * status maps to SUCCEEDED.
   */
  lemma PaypalConfirmAgreesWithMap(p: Payment, status: string, now: int, eventId: string)
    requires p.status == Pending && p.provider == "paypal"
    ensures ConfirmStep(p, Success(status), now, eventId).saved.status == Succeeded
            <==> MapPaypalStatus(status) == Succeeded
  {
  }

  // ----- the service -----

  class PaymentService {
    /** The `payments` table, by id. */
    var payments: map<string, Payment>
    /** Where `emitAsync` publishes. */
    const emitter: EventEmitter

    ghost predicate Valid()
      reads this
    {
      forall id | id in payments :: payments[id].id == id && WellFormed(payments[id])
    }

    constructor (emitter: EventEmitter)
      ensures Valid() && payments == map[] && this.emitter == emitter
    {
      payments := map[];
      this.emitter := emitter;
    }

    /** `findOne(id)`: the record, or NotFound. */
    method FindOne(id: string) returns (r: Result<Payment, Error>)
      ensures id in payments <==> r.Success?
      ensures r.Success? ==> r.value == payments[id]
      ensures r.Failure? ==> r.error == NotFound(NotFoundMessage(id))
    {
      if id in payments {
        r := Success(payments[id]);
      } else {
        r := Failure(NotFound(NotFoundMessage(id)));
      }
    }

    /**
     * `findAll({orderId, status: 'PENDING'})`: the PENDING records of one
     * order, each once, in no particular order.
     */
    method FindPendingByOrder(orderId: string) returns (r: seq<Payment>)
      requires Valid()
      ensures forall i | 0 <= i < |r| :: r[i].id in payments && payments[r[i].id] == r[i]
      ensures forall i | 0 <= i < |r| :: r[i].orderId == orderId && r[i].status == Pending
      ensures forall id | id in payments && payments[id].orderId == orderId && payments[id].status == Pending ::
                payments[id] in r
      ensures forall i, j | 0 <= i < j < |r| :: r[i].id != r[j].id
    {
      var todo := payments.Keys;
      r := [];
      while todo != {}
        invariant todo <= payments.Keys
        invariant forall i | 0 <= i < |r| :: r[i].id in payments.Keys - todo && payments[r[i].id] == r[i]
        invariant forall i | 0 <= i < |r| :: r[i].orderId == orderId && r[i].status == Pending
        invariant forall id | id in payments.Keys - todo && payments[id].orderId == orderId
                    && payments[id].status == Pending :: payments[id] in r
        invariant forall i, j | 0 <= i < j < |r| :: r[i].id != r[j].id
        decreases |todo|
      {
        var id :| id in todo;
        var p := payments[id];
        if p.orderId == orderId && p.status == Pending {
          r := r + [p];
        }
        todo := todo - {id};
      }
    }

    /** `createPaymentIntent(dto)`: saves a new PENDING record under the generated id `newId`. */
    method CreatePaymentIntent(d: CreatePaymentIntentDto, reply: Result<ProviderIntent, string>, newId: string)
      returns (r: Result<IntentResponse, Error>)
      requires Valid() && newId !in payments
      modifies this
      ensures Valid()
      ensures var out := CreateOutcome(d, reply, newId);
        && (out.Failure? ==> r == Failure(out.error) && payments == old(payments))
        && (out.Success? ==> r == Success(out.value.1) && payments == old(payments)[newId := out.value.0])
    {
      var out := CreateOutcome(d, reply, newId);
      if out.Failure? {
        return Failure(out.error);
      }
      payments := payments[newId := out.value.0];
      r := Success(out.value.1);
    }

    /**
     * `confirmPayment(id)`: NotFound for an unknown id, a refusal for a
     * record that is not PENDING, otherwise the step `ConfirmStep` describes:
     * the record is saved and at most one event is published.
     */
    method ConfirmPayment(id: string, reply: Result<string, string>, now: int, eventId: string)
      returns (r: Result<string, Error>)
      requires Valid()
      modifies this, emitter
      ensures Valid()
      ensures id !in old(payments) ==>
        r == Failure(NotFound(NotFoundMessage(id))) && payments == old(payments)
        && emitter.published == old(emitter.published)
      ensures id in old(payments) && old(payments)[id].status != Pending ==>
        r == Failure(BadRequest(NotPending)) && payments == old(payments)
        && emitter.published == old(emitter.published)
      ensures id in old(payments) && old(payments)[id].status == Pending ==>
        var s := ConfirmStep(old(payments)[id], reply, now, eventId);
        && r == s.result
        && payments == old(payments)[id := s.saved]
        && emitter.published == old(emitter.published) + (if s.event.Some? then [s.event.value] else [])
    {
      var found := FindOne(id);
      if found.Failure? {
        return Failure(found.error);
      }
      var p := found.value;
      if p.status != Pending {
        return Failure(BadRequest(NotPending));
      }
      var s := ConfirmStep(p, reply, now, eventId);
      payments := payments[id := s.saved];
      if s.event.Some? {
        emitter.EmitAsync(s.event.value);
      }
      r := s.result;
    }

    /**
     * `refundPayment(id, dto)`: NotFound for an unknown id, a refusal unless
     * the record is SUCCEEDED, otherwise the step `RefundStep` describes.
     * Nothing is published.
     */
    method RefundPayment(id: string, d: RefundPaymentDto, reply: Result<(), string>, now: int)
      returns (r: Result<string, Error>)
      requires Valid()
      modifies this
      ensures Valid()
      ensures id !in old(payments) ==> r == Failure(NotFound(NotFoundMessage(id))) && payments == old(payments)
      ensures id in old(payments) && old(payments)[id].status != Succeeded ==>
        r == Failure(BadRequest(RefundNotAllowed)) && payments == old(payments)
      ensures id in old(payments) && old(payments)[id].status == Succeeded ==>
        var s := RefundStep(old(payments)[id], d, reply, now);
        r == s.result && payments == old(payments)[id := s.saved]
    {
      var found := FindOne(id);
      if found.Failure? {
        return Failure(found.error);
      }
      var p := found.value;
      if p.status != Succeeded {
        return Failure(BadRequest(RefundNotAllowed));
      }
      var s := RefundStep(p, d, reply, now);
      payments := payments[id := s.saved];
      r := s.result;
    }
  }

  /**
   * A record leaves PENDING at most once: after a confirmation, a second one
   * is refused and publishes nothing.
   */
  method ConfirmTwice(svc: PaymentService, id: string, reply1: Result<string, string>,
                      reply2: Result<string, string>, now: int, e1: string, e2: string)
    returns (r1: Result<string, Error>, r2: Result<string, Error>)
    requires svc.Valid() && id in svc.payments && svc.payments[id].status == Pending
    modifies svc, svc.emitter
    ensures svc.Valid()
    ensures r2 == Failure(BadRequest(NotPending))
    ensures |svc.emitter.published| <= |old(svc.emitter.published)| + 1
  {
    r1 := svc.ConfirmPayment(id, reply1, now, e1);
    r2 := svc.ConfirmPayment(id, reply2, now, e2);
  }
}
