/**
 * Domain events: `BaseDomainEvent` and its fixed table of subclasses, each of
 * which pins the event's `type` and `aggregateType`, plus the emitter that
 * services publish events through (modelled as a log of what was published).
 */
module DomainEvents {
  import opened Wrappers

  /** A JSON value inside an event payload or metadata record. */
  datatype Value = Str(s: string) | Num(n: int) | Bool(b: bool)

  type Record = map<string, Value>

  /**
   * An event as built by `BaseDomainEvent`'s constructor. `id` (a random UUID)
   * and `occurredAt` (the clock, in milliseconds) are supplied by the caller.
   */
  datatype DomainEvent = DomainEvent(
    id: string,
    eventType: string,
    aggregateId: string,
    aggregateType: string,
    payload: Record,
    metadata: Option<Record>,
    occurredAt: int,
    version: int)

  /** Every event carries payload-schema version 1. */
  const SchemaVersion: int := 1

  /** `new BaseDomainEvent(type, aggregateId, aggregateType, payload, metadata)`. */
  function NewEvent(eventType: string, aggregateId: string, aggregateType: string,
                    payload: Record, metadata: Option<Record>, id: string, now: int): (e: DomainEvent)
    ensures e.version == 1
    ensures e.eventType == eventType && e.aggregateId == aggregateId && e.aggregateType == aggregateType
    ensures e.payload == payload && e.metadata == metadata
    ensures e.id == id && e.occurredAt == now
  {
    DomainEvent(id, eventType, aggregateId, aggregateType, payload, metadata, now, SchemaVersion)
  }

  /** The concrete subclasses of `BaseDomainEvent`. */
  datatype EventKind =
    | OrderCreated | OrderPaid | OrderShipped | OrderDelivered | OrderCancelled
    | ProductCreated | ProductUpdated | ProductStockChanged | ProductBackInStock
    | CartItemAdded | CartAbandoned
    | UserRegistered | UserEmailVerified | UserBirthday
    | ReviewSubmitted | ReviewApproved
    | PaymentSucceeded | PaymentFailed

  /** The `type` string each subclass passes to `super`. */
  function TypeOf(k: EventKind): (r: string) {
    match k
    case OrderCreated => "order.created"
    case OrderPaid => "order.paid"
    case OrderShipped => "order.shipped"
    case OrderDelivered => "order.delivered"
    case OrderCancelled => "order.cancelled"
    case ProductCreated => "product.created"
    case ProductUpdated => "product.updated"
    case ProductStockChanged => "product.stock_changed"
    case ProductBackInStock => "product.back_in_stock"
    case CartItemAdded => "cart.item_added"
    case CartAbandoned => "cart.abandoned"
    case UserRegistered => "user.registered"
    case UserEmailVerified => "user.email_verified"
    case UserBirthday => "user.birthday"
    case ReviewSubmitted => "review.submitted"
    case ReviewApproved => "review.approved"
    case PaymentSucceeded => "payment.succeeded"
    case PaymentFailed => "payment.failed"
  }

  /** The `aggregateType` string each subclass passes to `super`. */
  function AggregateTypeOf(k: EventKind): (r: string) {
    match k
    case OrderCreated | OrderPaid | OrderShipped | OrderDelivered | OrderCancelled => "Order"
    case ProductCreated | ProductUpdated | ProductStockChanged | ProductBackInStock => "Product"
    case CartItemAdded | CartAbandoned => "Cart"
    case UserRegistered | UserEmailVerified | UserBirthday => "User"
    case ReviewSubmitted | ReviewApproved => "Review"
    case PaymentSucceeded | PaymentFailed => "Payment"
  }

  /** `new XxxEvent(aggregateId, payload, metadata)` for subclass `k`. */
  function Make(k: EventKind, aggregateId: string, payload: Record, metadata: Option<Record>,
                id: string, now: int): (e: DomainEvent)
    ensures e.eventType == TypeOf(k) && e.aggregateType == AggregateTypeOf(k)
    ensures e.aggregateId == aggregateId && e.payload == payload && e.metadata == metadata
    ensures e.version == 1 && e.id == id && e.occurredAt == now
  {
    NewEvent(TypeOf(k), aggregateId, AggregateTypeOf(k), payload, metadata, id, now)
  }

  /** The values of the shared `EventTypes` constant, in declaration order. */
  const EventTypeValues: seq<string> := [
    "order.created", "order.paid", "order.shipped", "order.delivered", "order.cancelled", "order.refunded",
    "product.created", "product.updated", "product.stock_changed", "product.back_in_stock",
    "cart.item_added", "cart.item_updated", "cart.item_removed", "cart.abandoned",
    "user.registered", "user.email_verified", "user.password_reset", "user.birthday",
    "review.submitted", "review.approved", "review.rejected",
    "payment.succeeded", "payment.failed", "payment.refunded"]

  /** The namespace of a dotted type string: everything before the first '.'. */
  function Namespace(t: string): (r: string) {
    if t == [] || t[0] == '.' then [] else [t[0]] + Namespace(t[1..])
  }

  /** The aggregate each event namespace belongs to. */
  function AggregateOfNamespace(ns: string): (r: Option<string>) {
    if ns == "order" then Some("Order")
    else if ns == "product" then Some("Product")
    else if ns == "cart" then Some("Cart")
    else if ns == "user" then Some("User")
    else if ns == "review" then Some("Review")
    else if ns == "payment" then Some("Payment")
    else None
  }

  /** A namespace followed by '.' and a name has that namespace. */
  lemma {:induction false} NamespaceOfDotted(ns: string, name: string)
    requires '.' !in ns
    ensures Namespace(ns + "." + name) == ns
  {
    if ns != [] {
      assert (ns + "." + name)[1..] == ns[1..] + "." + name;
      NamespaceOfDotted(ns[1..], name);
    }
  }

  /** Each subclass's type string is one of the declared `EventTypes`. */
  lemma SubclassTypesDeclared(k: EventKind)
    ensures TypeOf(k) in EventTypeValues
  {
  }

  /** The aggregate named by the namespace of `ns.name`. */
  lemma {:induction false} AggregateOfDotted(ns: string, name: string)
    requires '.' !in ns
    ensures AggregateOfNamespace(Namespace(ns + "." + name)) == AggregateOfNamespace(ns)
  {
    NamespaceOfDotted(ns, name);
  }

  lemma OrderTable(k: EventKind)
    requires k.OrderCreated? || k.OrderPaid? || k.OrderShipped? || k.OrderDelivered? || k.OrderCancelled?
    ensures AggregateOfNamespace(Namespace(TypeOf(k))) == Some("Order")
  {
    match k
    case OrderCreated =>
      assert TypeOf(k) == "order" + "." + "created";
      AggregateOfDotted("order", "created");
    case OrderPaid =>
      assert TypeOf(k) == "order" + "." + "paid";
      AggregateOfDotted("order", "paid");
    case OrderShipped =>
      assert TypeOf(k) == "order" + "." + "shipped";
      AggregateOfDotted("order", "shipped");
    case OrderDelivered =>
      assert TypeOf(k) == "order" + "." + "delivered";
      AggregateOfDotted("order", "delivered");
    case OrderCancelled =>
      assert TypeOf(k) == "order" + "." + "cancelled";
      AggregateOfDotted("order", "cancelled");
  }

  lemma ProductTable(k: EventKind)
    requires k.ProductCreated? || k.ProductUpdated? || k.ProductStockChanged? || k.ProductBackInStock?
    ensures AggregateOfNamespace(Namespace(TypeOf(k))) == Some("Product")
  {
    match k
    case ProductCreated =>
      assert TypeOf(k) == "product" + "." + "created";
      AggregateOfDotted("product", "created");
    case ProductUpdated =>
      assert TypeOf(k) == "product" + "." + "updated";
      AggregateOfDotted("product", "updated");
    case ProductStockChanged =>
      assert TypeOf(k) == "product" + "." + "stock_changed";
      AggregateOfDotted("product", "stock_changed");
    case ProductBackInStock =>
      assert TypeOf(k) == "product" + "." + "back_in_stock";
      AggregateOfDotted("product", "back_in_stock");
  }

  lemma CartTable(k: EventKind)
    requires k.CartItemAdded? || k.CartAbandoned?
    ensures AggregateOfNamespace(Namespace(TypeOf(k))) == Some("Cart")
  {
    match k
    case CartItemAdded =>
      assert TypeOf(k) == "cart" + "." + "item_added";
      AggregateOfDotted("cart", "item_added");
    case CartAbandoned =>
      assert TypeOf(k) == "cart" + "." + "abandoned";
      AggregateOfDotted("cart", "abandoned");
  }

  lemma UserTable(k: EventKind)
    requires k.UserRegistered? || k.UserEmailVerified? || k.UserBirthday?
    ensures AggregateOfNamespace(Namespace(TypeOf(k))) == Some("User")
  {
    match k
    case UserRegistered =>
      assert TypeOf(k) == "user" + "." + "registered";
      AggregateOfDotted("user", "registered");
    case UserEmailVerified =>
      assert TypeOf(k) == "user" + "." + "email_verified";
      AggregateOfDotted("user", "email_verified");
    case UserBirthday =>
      assert TypeOf(k) == "user" + "." + "birthday";
      AggregateOfDotted("user", "birthday");
  }

  lemma ReviewTable(k: EventKind)
    requires k.ReviewSubmitted? || k.ReviewApproved?
    ensures AggregateOfNamespace(Namespace(TypeOf(k))) == Some("Review")
  {
    match k
    case ReviewSubmitted =>
      assert TypeOf(k) == "review" + "." + "submitted";
      AggregateOfDotted("review", "submitted");
    case ReviewApproved =>
      assert TypeOf(k) == "review" + "." + "approved";
      AggregateOfDotted("review", "approved");
  }

  lemma PaymentTable(k: EventKind)
    requires k.PaymentSucceeded? || k.PaymentFailed?
    ensures AggregateOfNamespace(Namespace(TypeOf(k))) == Some("Payment")
  {
    match k
    case PaymentSucceeded =>
      assert TypeOf(k) == "payment" + "." + "succeeded";
      AggregateOfDotted("payment", "succeeded");
    case PaymentFailed =>
      assert TypeOf(k) == "payment" + "." + "failed";
      AggregateOfDotted("payment", "failed");
  }

  /**
   * Each subclass's aggregate type is the one the namespace of its type string
   * names.
   */
  lemma SubclassTable(k: EventKind)
    ensures AggregateOfNamespace(Namespace(TypeOf(k))) == Some(AggregateTypeOf(k))
  {
    match k
    case OrderCreated | OrderPaid | OrderShipped | OrderDelivered | OrderCancelled => OrderTable(k);
    case ProductCreated | ProductUpdated | ProductStockChanged | ProductBackInStock => ProductTable(k);
    case CartItemAdded | CartAbandoned => CartTable(k);
    case UserRegistered | UserEmailVerified | UserBirthday => UserTable(k);
    case ReviewSubmitted | ReviewApproved => ReviewTable(k);
    case PaymentSucceeded | PaymentFailed => PaymentTable(k);
  }

  /** Reading the type string back identifies the subclass. */
  function KindOf(t: string): (r: Option<EventKind>) {
    if t == "order.created" then Some(OrderCreated)
    else if t == "order.paid" then Some(OrderPaid)
    else if t == "order.shipped" then Some(OrderShipped)
    else if t == "order.delivered" then Some(OrderDelivered)
    else if t == "order.cancelled" then Some(OrderCancelled)
    else if t == "product.created" then Some(ProductCreated)
    else if t == "product.updated" then Some(ProductUpdated)
    else if t == "product.stock_changed" then Some(ProductStockChanged)
    else if t == "product.back_in_stock" then Some(ProductBackInStock)
    else if t == "cart.item_added" then Some(CartItemAdded)
    else if t == "cart.abandoned" then Some(CartAbandoned)
    else if t == "user.registered" then Some(UserRegistered)
    else if t == "user.email_verified" then Some(UserEmailVerified)
    else if t == "user.birthday" then Some(UserBirthday)
    else if t == "review.submitted" then Some(ReviewSubmitted)
    else if t == "review.approved" then Some(ReviewApproved)
    else if t == "payment.succeeded" then Some(PaymentSucceeded)
    else if t == "payment.failed" then Some(PaymentFailed)
    else None
  }

  /** No two subclasses share a type string. */
  lemma TypeOfInjective(k: EventKind)
    ensures KindOf(TypeOf(k)) == Some(k)
  {
    match k
    case OrderCreated | OrderPaid | OrderShipped | OrderDelivered | OrderCancelled => KindOfOrder(k);
    case ProductCreated | ProductUpdated | ProductStockChanged | ProductBackInStock => KindOfProduct(k);
    case CartItemAdded | CartAbandoned => KindOfCart(k);
    case UserRegistered | UserEmailVerified | UserBirthday => KindOfUser(k);
    case ReviewSubmitted | ReviewApproved => KindOfReview(k);
    case PaymentSucceeded | PaymentFailed => KindOfPayment(k);
  }

  lemma KindOfOrder(k: EventKind)
    requires k.OrderCreated? || k.OrderPaid? || k.OrderShipped? || k.OrderDelivered? || k.OrderCancelled?
    ensures KindOf(TypeOf(k)) == Some(k)
  {
  }

  lemma KindOfProduct(k: EventKind)
    requires k.ProductCreated? || k.ProductUpdated? || k.ProductStockChanged? || k.ProductBackInStock?
    ensures KindOf(TypeOf(k)) == Some(k)
  {
  }

  lemma KindOfCart(k: EventKind)
    requires k.CartItemAdded? || k.CartAbandoned?
    ensures KindOf(TypeOf(k)) == Some(k)
  {
  }

  lemma KindOfUser(k: EventKind)
    requires k.UserRegistered? || k.UserEmailVerified? || k.UserBirthday?
    ensures KindOf(TypeOf(k)) == Some(k)
  {
  }

  lemma KindOfReview(k: EventKind)
    requires k.ReviewSubmitted? || k.ReviewApproved?
    ensures KindOf(TypeOf(k)) == Some(k)
  {
  }

  lemma KindOfPayment(k: EventKind)
    requires k.PaymentSucceeded? || k.PaymentFailed?
    ensures KindOf(TypeOf(k)) == Some(k)
  {
  }

  /**
   * The process-wide event emitter (`EventEmitter2`). Only what was published
   * is modelled; listeners and their failures are not.
   */
  class EventEmitter {
    ghost var published: seq<DomainEvent>

    constructor ()
      ensures published == []
    {
      published := [];
    }

    /** `emitAsync(event.type, event)`. */
    ghost method EmitAsync(e: DomainEvent)
      modifies this
      ensures published == old(published) + [e]
    {
      published := published + [e];
    }
  }
}
