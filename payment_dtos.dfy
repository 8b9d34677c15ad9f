/**
 * The class-validator constraints on the payment service's request bodies:
 * `CreatePaymentIntentDto` and `RefundPaymentDto`. Each validator returns the
 * names of the properties whose constraints fail, in declaration order; the
 * body is accepted when that list is empty. `@IsUUID` is a format check of the
 * library and is passed in as the predicate `isUuid`.
 */
module PaymentDtos {
  import opened Wrappers

  /** A JSON number is modelled as an integer number of minor units. */
  datatype CreatePaymentIntentDto = CreatePaymentIntentDto(
    amount: int,
    currency: string,
    orderId: string,
    userId: string,
    provider: Option<string>,
    paymentMethodId: Option<string>)

  datatype RefundPaymentDto = RefundPaymentDto(amount: Option<int>, reason: Option<string>)

  /** The smallest chargeable amount, in minor units (50 cents). */
  const MinIntentAmount: int := 50
  /** The smallest refundable amount when one is given. */
  const MinRefundAmount: int := 1

  const AcceptedProviders: set<string> := {"stripe", "paypal", "klarna"}

  /** The properties of a `CreatePaymentIntentDto` that fail validation. */
  function CreateIntentViolations(d: CreatePaymentIntentDto, isUuid: string -> bool): (r: seq<string>)
    ensures "amount" in r <==> d.amount < MinIntentAmount
    ensures "orderId" in r <==> !isUuid(d.orderId)
    ensures "userId" in r <==> !isUuid(d.userId)
    ensures "provider" in r <==> d.provider.Some? && d.provider.value !in AcceptedProviders
    ensures "paymentMethodId" in r <==> d.paymentMethodId.Some? && !isUuid(d.paymentMethodId.value)
    ensures "currency" !in r
    ensures |r| <= 5
  {
    FailIf(d.amount < MinIntentAmount, "amount")
      + FailIf(!isUuid(d.orderId), "orderId")
      + FailIf(!isUuid(d.userId), "userId")
      + FailIf(d.provider.Some? && d.provider.value !in AcceptedProviders, "provider")
      + FailIf(d.paymentMethodId.Some? && !isUuid(d.paymentMethodId.value), "paymentMethodId")
  }

  predicate ValidCreateIntent(d: CreatePaymentIntentDto, isUuid: string -> bool) {
    CreateIntentViolations(d, isUuid) == []
  }

  /** The properties of a `RefundPaymentDto` that fail validation. */
  function RefundViolations(d: RefundPaymentDto): (r: seq<string>)
    ensures r == [] <==> d.amount.None? || d.amount.value >= MinRefundAmount
    ensures "reason" !in r
  {
    FailIf(d.amount.Some? && d.amount.value < MinRefundAmount, "amount")
  }

  predicate ValidRefund(d: RefundPaymentDto) {
    RefundViolations(d) == []
  }

  /**
   * A valid creation request: the amount is at least 50, both ids are UUIDs and
   * the provider, if given, is one of the three accepted names.
   */
  lemma {:induction false} ValidCreateIntentMeans(d: CreatePaymentIntentDto, isUuid: string -> bool)
    ensures ValidCreateIntent(d, isUuid) <==>
      && d.amount >= MinIntentAmount
      && isUuid(d.orderId) && isUuid(d.userId)
      && (d.provider.None? || d.provider.value in AcceptedProviders)
      && (d.paymentMethodId.None? || isUuid(d.paymentMethodId.value))
  {
    var r := CreateIntentViolations(d, isUuid);
    if r != [] {
      assert r[0] in r;
    }
  }

  /** Any currency string passes: no length or code check is declared. */
  lemma AnyCurrencyAccepted(d: CreatePaymentIntentDto, c: string, isUuid: string -> bool)
    requires ValidCreateIntent(d, isUuid)
    ensures ValidCreateIntent(d.(currency := c), isUuid)
  {
    ValidCreateIntentMeans(d, isUuid);
    ValidCreateIntentMeans(d.(currency := c), isUuid);
  }

  /** No upper bound is declared on a refund amount. */
  lemma RefundAmountUnbounded(d: RefundPaymentDto, big: int)
    requires big >= MinRefundAmount
    ensures ValidRefund(d.(amount := Some(big)))
  {
  }
}
