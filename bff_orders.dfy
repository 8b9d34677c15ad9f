/**
 * The BFF's mock `OrderService`: one seeded order, looked up with `filter`
 * and `find`, and a checkout that answers a fixed URL. Each query is a
 * function of the stored list, which no query changes.
 */
module BffOrders {
  import opened Wrappers
  import opened Seqs

  datatype OrderStatus = Pending | Paid | Processing | Shipped | Delivered | Cancelled | Refunded

  datatype Address = Address(firstName: string, lastName: string, street: string, city: string, postalCode: string, country: string)

  datatype OrderItem = OrderItem(productId: string, name: string, image: string, quantity: int, unitPrice: int)

  /** An order; amounts in cents, dates as their ISO day. */
  datatype Order = Order(
    id: string,
    userId: string,
    items: seq<OrderItem>,
    subtotal: int,
    taxes: int,
    shipping: int,
    total: int,
    currency: string,
    status: OrderStatus,
    shippingAddress: Address,
    billingAddress: Address,
    createdAt: string,
    updatedAt: string)

  /** `CheckoutInput`; `createCheckout` reads none of it. */
  datatype CheckoutInput = CheckoutInput(shippingAddress: Address, billingAddress: Address, couponCode: Option<string>)

  const SeedAddress := Address("John", "Doe", "123 Main St", "Paris", "75001", "France")

  /** The one order the service starts with. */
  const SeedOrders: seq<Order> := [
    Order("1", "user-1",
          [OrderItem("1", "Smartphone Premium", "https://images.pexels.com/photos/607812/pexels-photo-607812.jpeg", 1, 89900)],
          89900, 17980, 0, 107880, "EUR", Delivered, SeedAddress, SeedAddress, "2024-01-15", "2024-01-20")
  ]

  const MockCheckoutUrl := "https://checkout.stripe.com/pay/mock-session-id"

  function ItemsSubtotal(items: seq<OrderItem>): (r: int) {
    if items == [] then 0 else ItemsSubtotal(items[..|items| - 1]) + items[|items| - 1].unitPrice * items[|items| - 1].quantity
  }

  /** The amounts of an order agree: total is subtotal + taxes + shipping and subtotal sums the lines. */
  predicate AmountsAgree(o: Order) {
    o.total == o.subtotal + o.taxes + o.shipping && o.subtotal == ItemsSubtotal(o.items)
  }

  /** The seed order's amounts agree, and its taxes are 20% of its subtotal. */
  lemma SeedOrderAmounts()
    ensures forall o | o in SeedOrders :: AmountsAgree(o) && o.taxes * 5 == o.subtotal
  {
    assert SeedOrders[0].items[..0] == [];
  }

  /** `getUserOrders(userId)`. */
  function GetUserOrders(orders: seq<Order>, userId: string): (r: seq<Order>)
    ensures forall o | o in r :: o.userId == userId
  {
    Filter(orders, (o: Order) => o.userId == userId)
  }

  /**
   * `getUserOrders` returns exactly the user's orders, each as often as it is
   * stored, in stored order.
   */
  lemma GetUserOrdersSpec(orders: seq<Order>, userId: string)
    ensures var r := GetUserOrders(orders, userId);
      && (forall o :: o in r <==> o in orders && o.userId == userId)
      && (forall o :: multiset(r)[o] == if o.userId == userId then multiset(orders)[o] else 0)
      && Subseq(r, orders)
  {
    FilterSubseq(orders, (o: Order) => o.userId == userId);
    FilterCount(orders, (o: Order) => o.userId == userId);
  }

  /** `getOrder(id)`: the first order with that id, or null. */
  function GetOrder(orders: seq<Order>, id: string): (r: Option<Order>)
    ensures r.Some? ==> r.value in orders && r.value.id == id
    ensures r.None? <==> forall o | o in orders :: o.id != id
  {
    Find(orders, (o: Order) => o.id == id)
  }

  /** `getOrder` returns the first match in stored order. */
  lemma GetOrderIsFirst(orders: seq<Order>, id: string)
    requires GetOrder(orders, id).Some?
    ensures exists i | 0 <= i < |orders| ::
      (orders[i] == GetOrder(orders, id).value && forall j | 0 <= j < i :: orders[j].id != id)
  {
    FindIsFirst(orders, (o: Order) => o.id == id);
  }

  /** `createCheckout(sessionId, input)`: the mock Stripe URL, whatever the arguments. */
  function CreateCheckout(sessionId: string, input: CheckoutInput): (url: string)
    ensures url == MockCheckoutUrl
  {
    MockCheckoutUrl
  }

  /** No session or input changes the checkout URL. */
  lemma CheckoutIgnoresInput(s1: string, i1: CheckoutInput, s2: string, i2: CheckoutInput)
    ensures CreateCheckout(s1, i1) == CreateCheckout(s2, i2)
  {
  }

  /** The seed list answers its owner with its one order and anyone else with none. */
  lemma SeedQueries(other: string)
    requires other != "user-1"
    ensures GetUserOrders(SeedOrders, "user-1") == SeedOrders
    ensures GetUserOrders(SeedOrders, other) == []
    ensures GetOrder(SeedOrders, "1") == Some(SeedOrders[0])
  {
    assert SeedOrders[..0] == [];
  }
}
