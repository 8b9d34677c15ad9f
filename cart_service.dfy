/**
 * The BFF's in-memory `CartService`: one cart per session id, created empty
 * (in EUR) on first access. Adding a product already in the cart adds to its
 * line's quantity; a new product gets a line at the end. After every change
 * `total` is the sum of unitPrice × quantity and `itemCount` the sum of
 * quantities. Prices are integer cents; times are milliseconds.
 */
module Carts {
  import opened Wrappers
  import opened Seqs

  datatype CartItem = CartItem(productId: string, name: string, image: string, quantity: int, unitPrice: int)

  datatype Cart = Cart(id: string, items: seq<CartItem>, total: int, itemCount: int, currency: string, updatedAt: int)

  datatype AddToCartInput = AddToCartInput(productId: string, name: string, image: string, quantity: int, unitPrice: int)

  function LineTotal(item: CartItem): (r: int) {
    item.unitPrice * item.quantity
  }

  /** `items.reduce((sum, item) => sum + item.unitPrice * item.quantity, 0)`. */
  function Total(items: seq<CartItem>): (r: int) {
    if items == [] then 0 else Total(items[..|items| - 1]) + LineTotal(items[|items| - 1])
  }

  /** `items.reduce((sum, item) => sum + item.quantity, 0)`. */
  function ItemCount(items: seq<CartItem>): (r: int) {
    if items == [] then 0 else ItemCount(items[..|items| - 1]) + items[|items| - 1].quantity
  }

  /** At most one line per product. */
  predicate UniqueLines(items: seq<CartItem>) {
    forall i, j | 0 <= i < j < |items| :: items[i].productId != items[j].productId
  }

  /** `items.find(item => item.productId === productId)`, as the line's position. */
  function FindLine(items: seq<CartItem>, productId: string): (r: Option<nat>)
    ensures r.Some? ==> r.value < |items| && items[r.value].productId == productId
    ensures r.Some? ==> forall j | 0 <= j < r.value :: items[j].productId != productId
    ensures r.None? <==> forall j | 0 <= j < |items| :: items[j].productId != productId
  {
    if items == [] then None
    else if items[0].productId == productId then Some(0)
    else match FindLine(items[1..], productId)
      case None => None
      case Some(i) => Some(i + 1)
  }

  /** The lines after `addToCart`. */
  function AddLine(items: seq<CartItem>, input: AddToCartInput): (r: seq<CartItem>) {
    match FindLine(items, input.productId)
    case Some(i) => items[i := items[i].(quantity := items[i].quantity + input.quantity)]
    case None => items + [CartItem(input.productId, input.name, input.image, input.quantity, input.unitPrice)]
  }

  /** `items.filter(item => item.productId !== productId)`. */
  function Without(items: seq<CartItem>, productId: string): (r: seq<CartItem>) {
    Filter(items, (item: CartItem) => item.productId != productId)
  }

  /** The lines after `updateQuantity` with a positive quantity on a present product. */
  function SetQuantity(items: seq<CartItem>, i: nat, quantity: int): (r: seq<CartItem>)
    requires i < |items|
  {
    items[i := items[i].(quantity := quantity)]
  }

  /** Replacing one line changes the total by the difference of the two line totals. */
  lemma {:induction false} TotalUpdate(items: seq<CartItem>, i: nat, x: CartItem)
    requires i < |items|
    ensures Total(items[i := x]) == Total(items) - LineTotal(items[i]) + LineTotal(x)
    ensures ItemCount(items[i := x]) == ItemCount(items) - items[i].quantity + x.quantity
    decreases |items|
  {
    var n := |items|;
    if i == n - 1 {
      assert items[i := x][..n - 1] == items[..n - 1];
    } else {
      assert items[i := x][..n - 1] == items[..n - 1][i := x];
      TotalUpdate(items[..n - 1], i, x);
    }
  }

  /**
   * `addToCart` of a product already present: the line count is unchanged,
   * only that line's quantity grows, and the total grows by the line's own
   * unit price (not the input's) times the added quantity.
   */
  lemma AddLineExisting(items: seq<CartItem>, input: AddToCartInput)
    requires FindLine(items, input.productId).Some?
    ensures var i := FindLine(items, input.productId).value;
      var r := AddLine(items, input);
      && |r| == |items|
      && r[i].quantity == items[i].quantity + input.quantity
      && r[i].(quantity := items[i].quantity) == items[i]
      && (forall j | 0 <= j < |items| && j != i :: r[j] == items[j])
      && Total(r) == Total(items) + items[i].unitPrice * input.quantity
      && ItemCount(r) == ItemCount(items) + input.quantity
  {
    var i := FindLine(items, input.productId).value;
    var x := items[i].(quantity := items[i].quantity + input.quantity);
    assert AddLine(items, input) == items[i := x];
    TotalUpdate(items, i, x);
    GrownLineTotal(items[i], input.quantity);
  }

  /** Adding `k` to a line's quantity adds its unit price times `k` to its total. */
  lemma GrownLineTotal(item: CartItem, k: int)
    ensures LineTotal(item.(quantity := item.quantity + k)) == LineTotal(item) + item.unitPrice * k
  {
    assert item.unitPrice * (item.quantity + k) == item.unitPrice * item.quantity + item.unitPrice * k;
  }

  /** `addToCart` of a new product appends one line holding the input. */
  lemma AddLineNew(items: seq<CartItem>, input: AddToCartInput)
    requires FindLine(items, input.productId).None?
    ensures var r := AddLine(items, input);
      && r[..|items|] == items && |r| == |items| + 1
      && r[|items|] == CartItem(input.productId, input.name, input.image, input.quantity, input.unitPrice)
      && Total(r) == Total(items) + input.unitPrice * input.quantity
      && ItemCount(r) == ItemCount(items) + input.quantity
  {
    var r := AddLine(items, input);
    assert r[..|r| - 1] == items;
  }

  /** `addToCart` never creates a second line for a product. */
  lemma AddLineUnique(items: seq<CartItem>, input: AddToCartInput)
    requires UniqueLines(items)
    ensures UniqueLines(AddLine(items, input))
  {
  }

  /**
   * The removed lines and the kept ones partition the total: removing a
   * product lowers the total by exactly its lines' totals.
   */
  lemma {:induction false} TotalWithout(items: seq<CartItem>, productId: string)
    ensures Total(Without(items, productId))
            + Total(Filter(items, (item: CartItem) => item.productId == productId)) == Total(items)
    ensures ItemCount(Without(items, productId))
            + ItemCount(Filter(items, (item: CartItem) => item.productId == productId)) == ItemCount(items)
    decreases |items|
  {
    if items != [] {
      var init := items[..|items| - 1];
      var last := items[|items| - 1];
      TotalWithout(init, productId);
      var kept := Without(items, productId);
      var gone := Filter(items, (item: CartItem) => item.productId == productId);
      if last.productId == productId {
        assert kept == Without(init, productId);
        assert gone[..|gone| - 1] == Filter(init, (item: CartItem) => item.productId == productId);
      } else {
        assert kept[..|kept| - 1] == Without(init, productId);
        assert gone == Filter(init, (item: CartItem) => item.productId == productId);
      }
    }
  }

  /** Filtering keeps at most one line per product. */
  lemma {:induction false} WithoutUnique(items: seq<CartItem>, productId: string)
    requires UniqueLines(items)
    ensures UniqueLines(Without(items, productId))
    decreases |items|
  {
    if items != [] {
      var init := items[..|items| - 1];
      WithoutUnique(init, productId);
      var kept := Without(items, productId);
      if items[|items| - 1].productId != productId {
        assert kept[..|kept| - 1] == Without(init, productId);
        forall i | 0 <= i < |kept| - 1
          ensures kept[i].productId != kept[|kept| - 1].productId
        {
          assert kept[i] in init;
        }
      } else {
        assert kept == Without(init, productId);
      }
    }
  }

  /**
   * `removeFromCart` drops every line of the product and keeps each other
   * line as often as it occurs, in order.
   */
  lemma WithoutSpec(items: seq<CartItem>, productId: string)
    ensures var r := Without(items, productId);
      && (forall i | 0 <= i < |r| :: r[i].productId != productId)
      && (forall x | x in items && x.productId != productId :: x in r)
      && (forall x :: multiset(r)[x] == if x.productId != productId then multiset(items)[x] else 0)
      && Subseq(r, items)
  {
    FilterSubseq(items, (item: CartItem) => item.productId != productId);
    FilterCount(items, (item: CartItem) => item.productId != productId);
  }

  /** A cart whose totals agree with its lines. */
  predicate Consistent(c: Cart) {
    c.total == Total(c.items) && c.itemCount == ItemCount(c.items)
  }

  function EmptyCart(sessionId: string, now: int): (c: Cart)
    ensures Consistent(c) && c.items == [] && c.total == 0 && c.itemCount == 0 && c.currency == "EUR"
  {
    Cart(sessionId, [], 0, 0, "EUR", now)
  }

  /** `updateCartTotals(cart)` together with `cart.updatedAt = new Date()`. */
  function WithLines(c: Cart, items: seq<CartItem>, now: int): (r: Cart)
    ensures Consistent(r) && r.items == items && r.id == c.id && r.currency == c.currency && r.updatedAt == now
  {
    c.(items := items, total := Total(items), itemCount := ItemCount(items), updatedAt := now)
  }

  class CartService {
    /** `carts`, by session id. */
    var carts: map<string, Cart>

    ghost predicate Valid()
      reads this
    {
      forall sid | sid in carts ::
        carts[sid].id == sid && carts[sid].currency == "EUR"
        && Consistent(carts[sid]) && UniqueLines(carts[sid].items)
    }

    constructor ()
      ensures Valid() && carts == map[]
    {
      carts := map[];
    }

    /** The cart `getCart` finds for `sessionId` at `now`. */
    function CartOf(sessionId: string, now: int): (r: Cart)
      reads this
    {
      if sessionId in carts then carts[sessionId] else EmptyCart(sessionId, now)
    }

    /** `getCart(sessionId)`: the session's cart, created empty on first access. */
    method GetCart(sessionId: string, now: int) returns (c: Cart)
      requires Valid()
      modifies this
      ensures Valid()
      ensures sessionId in old(carts) ==> carts == old(carts) && c == old(carts)[sessionId]
      ensures sessionId !in old(carts) ==> c == EmptyCart(sessionId, now) && carts == old(carts)[sessionId := c]
    {
      if sessionId in carts {
        return carts[sessionId];
      }
      c := EmptyCart(sessionId, now);
      carts := carts[sessionId := c];
    }

    /** `addToCart(sessionId, input)`. */
    method AddToCart(sessionId: string, input: AddToCartInput, now: int) returns (c: Cart)
      requires Valid()
      modifies this
      ensures Valid()
      ensures c == WithLines(old(CartOf(sessionId, now)), AddLine(old(CartOf(sessionId, now)).items, input), now)
      ensures carts == old(carts)[sessionId := c]
    {
      var cart := GetCart(sessionId, now);
      AddLineUnique(cart.items, input);
      c := WithLines(cart, AddLine(cart.items, input), now);
      carts := carts[sessionId := c];
    }

    /** `removeFromCart(sessionId, productId)`. */
    method RemoveFromCart(sessionId: string, productId: string, now: int) returns (c: Cart)
      requires Valid()
      modifies this
      ensures Valid()
      ensures c == WithLines(old(CartOf(sessionId, now)), Without(old(CartOf(sessionId, now)).items, productId), now)
      ensures carts == old(carts)[sessionId := c]
    {
      var cart := GetCart(sessionId, now);
      WithoutUnique(cart.items, productId);
      c := WithLines(cart, Without(cart.items, productId), now);
      carts := carts[sessionId := c];
    }

    /**
     * `updateQuantity(sessionId, productId, quantity)`: on a present product,
     * removes it when `quantity <= 0` and otherwise sets its quantity; on an
     * absent product the cart is returned as it was (created if new).
     */
    method UpdateQuantity(sessionId: string, productId: string, quantity: int, now: int) returns (c: Cart)
      requires Valid()
      modifies this
      ensures Valid()
      ensures var before := old(CartOf(sessionId, now));
        && carts == old(carts)[sessionId := c]
        && (FindLine(before.items, productId).None? ==> c == before)
        && (FindLine(before.items, productId).Some? && quantity <= 0 ==>
              c == WithLines(before, Without(before.items, productId), now))
        && (FindLine(before.items, productId).Some? && quantity > 0 ==>
              c == WithLines(before, SetQuantity(before.items, FindLine(before.items, productId).value, quantity), now))
    {
      var cart := GetCart(sessionId, now);
      var found := FindLine(cart.items, productId);
      if found.None? {
        return cart;
      }
      if quantity <= 0 {
        c := RemoveFromCart(sessionId, productId, now);
        return;
      }
      c := WithLines(cart, SetQuantity(cart.items, found.value, quantity), now);
      carts := carts[sessionId := c];
    }
  }
}
