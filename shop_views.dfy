/** The cart, checkout and payment views of `shop/views.py`, as methods of the
    shop's store: products, carts (one per user, created on first use),
    orders, and the dated tax and shipping settings. The payment gateway is a
    parameter: the session it creates, the session it reports back, and the
    events it posts. */
module ShopViews {
  import opened Base
  import opened Pricing
  import opened Orders
  import opened Forms
  import opened Carts
  import opened Payments

  /** What a cart view reports. */
  datatype CartReply = Done | NotFound | Invalid(error: FormError) | OutOfStock

  /** `stripe.checkout.Session.create`: a session id, or an exception. */
  datatype SessionReply = SessionCreated(id: string) | SessionCreationFailed

  /** `stripe.checkout.Session.retrieve`: whether `payment_status == 'paid'`
      and the payment intent, or an exception. */
  datatype SessionLookup = Retrieved(paid: bool, paymentIntent: string) | RetrieveFailed

  /** `stripe.Webhook.construct_event`: a payload that does not parse, a bad
      signature, or a verified event with its type, `metadata.order_id` and
      `payment_intent`. */
  datatype WebhookEvent =
    | Malformed
    | BadSignature
    | Verified(kind: string, orderId: Option<OrderId>, paymentIntent: string)

  const CheckoutCompleted: string := "checkout.session.completed"

  /** What `checkout` answers. */
  datatype CheckoutReply =
    | CartNotFound
    | EmptyCart
    | InsufficientStock(product: ProductId)
    | ShowForm
    | FormInvalid(fields: set<Field>)
    | NumberTaken
    | RedirectToGateway(order: OrderId, session: string)
    | SessionFailed

  /** What `payment_success` and `payment_cancel` answer. */
  datatype PaymentReply = OrderNotFound | MarkedPaid | NotPaid | LookupFailed | MarkedCancelled

  predicate IsUpperHex(c: char) {
    '0' <= c <= '9' || 'A' <= c <= 'F'
  }

  /** `uuid.uuid4().hex[:12].upper()` */
  predicate IsOrderSuffix(s: string) {
    |s| == 12 && forall i :: 0 <= i < |s| ==> IsUpperHex(s[i])
  }

  /** `f'ORD-{suffix}'` */
  function OrderNumber(suffix: string): (n: string)
    ensures |n| == |suffix| + 4 && n[..4] == "ORD-" && n[4..] == suffix
  {
    "ORD-" + suffix
  }

  /** Every order line refers to a product row. */
  predicate KnownItems(items: seq<OrderItem>, known: set<ProductId>) {
    forall k :: 0 <= k < |items| ==> items[k].product in known
  }

  predicate Short(item: CartItem, products: map<ProductId, Product>)
    requires item.product in products
  {
    products[item.product].stock < item.quantity
  }

  /** The first cart item whose quantity exceeds its product's stock: the one
      `checkout`'s stock loop stops at. */
  function FirstShort(cart: seq<CartItem>, products: map<ProductId, Product>): (r: Option<nat>)
    requires KnownProducts(cart, products)
    ensures r.None? <==> forall i :: 0 <= i < |cart| ==> !Short(cart[i], products)
    ensures r.Some? ==>
      && r.value < |cart| && Short(cart[r.value], products)
      && forall j :: 0 <= j < r.value ==> !Short(cart[j], products)
  {
    if |cart| == 0 then None
    else if Short(cart[0], products) then Some(0)
    else match FirstShort(cart[1..], products)
      case None => None
      case Some(k) => Some(k + 1)
  }

  /** The carts after `cart.items.all().delete()` for the user's cart, if any. */
  function ClearedCarts(carts: map<UserId, seq<CartItem>>, user: UserId): (r: map<UserId, seq<CartItem>>)
    ensures r.Keys == carts.Keys
    ensures user in r ==> r[user] == []
    ensures forall u :: u in carts && u != user ==> r[u] == carts[u]
  {
    if user in carts then carts[user := []] else carts
  }

  /** Every user's cart is well formed. */
  predicate AllWellFormed(carts: map<UserId, seq<CartItem>>, known: set<ProductId>, nextItemId: ItemId) {
    forall u :: u in carts ==> WellFormedCart(carts[u], known, nextItemId)
  }

  /** Emptying a cart keeps every cart well formed. */
  lemma ClearedCartsWellFormed(carts: map<UserId, seq<CartItem>>, user: UserId, known: set<ProductId>, nextItemId: ItemId)
    requires AllWellFormed(carts, known, nextItemId)
    ensures AllWellFormed(ClearedCarts(carts, user), known, nextItemId)
  {
  }

  /** Storing one well-formed cart, under an id counter that only grows,
      keeps every cart well formed. */
  lemma PutCartWellFormed(carts: map<UserId, seq<CartItem>>, user: UserId, cart: seq<CartItem>,
                          known: set<ProductId>, nextItemId: ItemId, nextItemId': ItemId)
    requires AllWellFormed(carts, known, nextItemId)
    requires WellFormedCart(cart, known, nextItemId') && nextItemId <= nextItemId'
    ensures AllWellFormed(carts[user := cart], known, nextItemId')
  {
  }

  function CartOf(carts: map<UserId, seq<CartItem>>, user: UserId): seq<CartItem> {
    if user in carts then carts[user] else []
  }

  /** What `checkout` decides before anything is stored: an early answer
      (no cart, an empty cart, the first item over its stock, the form on a
      GET, the form's errors), or the cleaned shipping details. */
  function CheckoutGate(cart: Option<seq<CartItem>>, products: map<ProductId, Product>, isPost: bool, input: CheckoutInput)
    : (r: Result<ShippingInfo, CheckoutReply>)
    requires cart.Some? ==> KnownProducts(cart.value, products)
    ensures cart.None? ==> r == Err(CartNotFound)
    ensures cart == Some([]) ==> r == Err(EmptyCart)
    ensures r.Ok? <==>
      && cart.Some? && |cart.value| > 0
      && (forall i :: 0 <= i < |cart.value| ==> !Short(cart.value[i], products))
      && isPost && CleanCheckout(input).Ok?
    ensures r.Ok? ==> r.value == CleanCheckout(input).value
    ensures r.Err? && r.error.InsufficientStock? ==>
      exists i :: 0 <= i < |cart.value| && Short(cart.value[i], products) && r.error.product == cart.value[i].product
    ensures r.Err? && (r.error.ShowForm? || r.error.FormInvalid?) ==>
      cart.Some? && |cart.value| > 0 && forall i :: 0 <= i < |cart.value| ==> !Short(cart.value[i], products)
    ensures r == Err(ShowForm) <==> cart.Some? && |cart.value| > 0 && FirstShort(cart.value, products).None? && !isPost
  {
    match cart
    case None => Err(CartNotFound)
    case Some(items) =>
      if |items| == 0 then Err(EmptyCart)
      else match FirstShort(items, products)
        case Some(k) => Err(InsufficientStock(items[k].product))
        case None =>
          if !isPost then Err(ShowForm)
          else match CleanCheckout(input)
            case Err(fields) => Err(FormInvalid(fields))
            case Ok(info) => Ok(info)
  }

  class Shop {
    var products: map<ProductId, Product>
    var carts: map<UserId, seq<CartItem>>
    var orders: map<OrderId, Order>
    var taxRates: seq<Row<Rate>>
    var shippingFees: seq<Row<ShippingRule>>
    var nextItemId: ItemId
    var nextOrderId: OrderId

    /** The order objects the shop holds. */
    ghost var Repr: set<Order>

    /** The stored invariants: well-formed carts; orders with consistent
        amounts, issued ids and known products; unique order numbers. */
    ghost predicate Valid()
      reads this, Repr
    {
      CartsValid(products.Keys) && OrdersValid(products.Keys)
    }

    /** Every cart is well formed over the products `known`. */
    ghost predicate CartsValid(known: set<ProductId>)
      reads this`carts, this`nextItemId
    {
      AllWellFormed(carts, known, nextItemId)
    }

    /** Every order is held, consistent, has an issued id and lines over the
        products `known`; no two orders share a number. */
    ghost predicate OrdersValid(known: set<ProductId>)
      reads this`orders, this`nextOrderId, this`Repr, Repr`number, Repr`items
      reads Repr`subtotal, Repr`taxRate, Repr`taxAmount, Repr`shippingFee, Repr`totalAmount
    {
      && (forall id :: id in orders ==>
            && orders[id] in Repr && id < nextOrderId
            && orders[id].Valid() && KnownItems(orders[id].items, known))
      && (forall i, j :: i in orders && j in orders && i != j ==> orders[i].number != orders[j].number)
    }

    /** The order `id` as a frame: empty when there is none. */
    function OrderAt(id: OrderId): set<Order>
      reads this
    {
      if id in orders then {orders[id]} else {}
    }

    /** `get_object_or_404(Order, id=order_id, user=request.user)` succeeds. */
    predicate Owns(user: UserId, id: OrderId)
      reads this, orders.Values
    {
      id in orders && orders[id].user == user
    }

    /** A shop with its catalogue and settings, and no carts or orders yet. */
    constructor (products: map<ProductId, Product>, taxRates: seq<Row<Rate>>, shippingFees: seq<Row<ShippingRule>>)
      ensures Valid()
      ensures this.products == products && this.taxRates == taxRates && this.shippingFees == shippingFees
      ensures carts == map[] && orders == map[] && nextItemId == 0 && nextOrderId == 0
    {
      Repr := {};
      this.products := products;
      this.taxRates := taxRates;
      this.shippingFees := shippingFees;
      carts := map[];
      orders := map[];
      nextItemId := 0;
      nextOrderId := 0;
    }

    /** `add_to_cart`: only an available product; the quantity must pass the
        form; then the cart gets a new line or the existing line is raised,
        unless that would exceed the stock. */
    method AddToCart(user: UserId, productId: ProductId, quantity: int) returns (reply: CartReply)
      requires Valid()
      modifies this`carts, this`nextItemId
      ensures Valid()
      ensures !(productId in products && products[productId].isAvailable) ==>
        reply == NotFound && carts == old(carts) && nextItemId == old(nextItemId)
      ensures productId in products && products[productId].isAvailable ==>
        var stock := products[productId].stock;
        var cart := CartOf(old(carts), user);
        match CleanQuantity(quantity, stock)
        case Err(e) => reply == Invalid(e) && carts == old(carts) && nextItemId == old(nextItemId)
        case Ok(q) =>
          match MergeInto(cart, productId, q, stock, old(nextItemId))
          case None => reply == OutOfStock && carts == old(carts) && nextItemId == old(nextItemId)
          case Some(after) =>
            && reply == Done && carts == old(carts)[user := after]
            && nextItemId == old(nextItemId) + (if Find(cart, ByProduct(productId)).None? then 1 else 0)
    {
      if productId !in products || !products[productId].isAvailable {
        return NotFound;
      }
      var product := products[productId];
      var cleaned := CleanQuantity(quantity, product.stock);
      if cleaned.Err? {
        return Invalid(cleaned.error);
      }
      var cart := CartOf(carts, user);
      var k := Find(cart, ByProduct(productId));
      var after, next;
      if k.None? {
        after, next := cart + [CartItem(nextItemId, productId, cleaned.value)], nextItemId + 1;
      } else {
        var merged := cart[k.value].quantity + cleaned.value;
        if product.stock < merged {
          return OutOfStock;
        }
        after, next := cart[k.value := cart[k.value].(quantity := merged)], nextItemId;
      }
      MergeIntoWellFormed(cart, products, nextItemId, productId, cleaned.value);
      PutCartWellFormed(carts, user, after, products.Keys, nextItemId, next);
      carts, nextItemId := carts[user := after], next;
      reply := Done;
    }

    /** `update_cart_item`: a line of the user's own cart gets the quantity
        that passed the form; a rejected quantity changes nothing. */
    method UpdateCartItem(user: UserId, itemId: ItemId, quantity: int) returns (reply: CartReply)
      requires Valid()
      modifies this`carts
      ensures Valid()
      ensures var cart := CartOf(old(carts), user);
        match Find(cart, ById(itemId))
        case None => reply == NotFound && carts == old(carts)
        case Some(k) =>
          match CleanQuantity(quantity, products[cart[k].product].stock)
          case Err(e) => reply == Invalid(e) && carts == old(carts)
          case Ok(q) => reply == Done && carts == old(carts)[user := SetQuantity(cart, k, q)]
    {
      var cart := CartOf(carts, user);
      var k := Find(cart, ById(itemId));
      if k.None? {
        return NotFound;
      }
      var cleaned := CleanQuantity(quantity, products[cart[k.value].product].stock);
      if cleaned.Err? {
        return Invalid(cleaned.error);
      }
      var after := cart[k.value := cart[k.value].(quantity := cleaned.value)];
      EditsKeepWellFormed(cart, products.Keys, nextItemId, k.value, cleaned.value);
      PutCartWellFormed(carts, user, after, products.Keys, nextItemId, nextItemId);
      carts := carts[user := after];
      reply := Done;
    }

    /** `remove_cart_item`: a line of the user's own cart is deleted. */
    method RemoveCartItem(user: UserId, itemId: ItemId) returns (reply: CartReply)
      requires Valid()
      modifies this`carts
      ensures Valid()
      ensures var cart := CartOf(old(carts), user);
        match Find(cart, ById(itemId))
        case None => reply == NotFound && carts == old(carts)
        case Some(k) => reply == Done && carts == old(carts)[user := RemoveAt(cart, k)]
    {
      var cart := CartOf(carts, user);
      var k := Find(cart, ById(itemId));
      if k.None? {
        return NotFound;
      }
      var after := cart[..k.value] + cart[k.value + 1..];
      EditsKeepWellFormed(cart, products.Keys, nextItemId, k.value, 1);
      PutCartWellFormed(carts, user, after, products.Keys, nextItemId, nextItemId);
      carts := carts[user := after];
      reply := Done;
    }

    /** What an order placed for `cart` on `today` freezes: the owner, the
        number, the shipping details, one line per cart item with the price of
        the moment, and the cart's totals of the day. */
    predicate Snapshotted(o: Order, user: UserId, number: string, info: ShippingInfo, cart: seq<CartItem>, today: Date)
      requires KnownProducts(cart, products)
      reads this`products, this`taxRates, this`shippingFees, o`user, o`number, o`shipping, o`items
      reads o`subtotal, o`taxRate, o`taxAmount, o`shippingFee, o`totalAmount
    {
      && o.user == user && o.number == number && o.shipping == info
      && o.items == Snapshot(cart, products)
      && Amounts(o.subtotal, o.taxRate, o.taxAmount, o.shippingFee, o.totalAmount)
         == CartTotalsFor(cart, products, taxRates, shippingFees, today).amounts
    }

    /** The order the checkout placed: frozen from the cart, pending, with
        the gateway session and no payment yet. */
    predicate OrderPlaced(o: Order, user: UserId, number: string, info: ShippingInfo,
                          cart: seq<CartItem>, session: string, today: Date)
      requires KnownProducts(cart, products)
      reads this`products, this`taxRates, this`shippingFees, o
    {
      && Snapshotted(o, user, number, info, cart, today)
      && o.status == Pending && o.sessionId == session && o.paymentIntent == ""
    }

    /** An order already carries `number` (the unique `order_number`). */
    predicate NumberInUse(number: string)
      reads this, orders.Values
    {
      exists j :: j in orders && orders[j].number == number
    }

    /** The effect of creating the order and the gateway session once the
        number is free: an order id is used up, the line items are built, and
        the order is kept with its session id when the gateway creates a
        session and deleted when it fails. */
    twostate predicate SessionOpened(user: UserId, cart: seq<CartItem>, info: ShippingInfo, number: string,
                                     gateway: SessionReply, today: Date, reply: CheckoutReply, lines: seq<LineItem>)
      requires KnownProducts(cart, products)
      reads this, orders.Values
    {
      var id := old(nextOrderId);
      && nextOrderId == id + 1
      && id !in old(orders)
      && lines == SessionLines(cart, products, CurrentTaxRate(taxRates, today),
                               CalculateShippingFee(shippingFees, today, CartSubtotal(cart, products)))
      && match gateway
         case SessionCreationFailed => reply == SessionFailed && orders == old(orders)
         case SessionCreated(sid) =>
           && reply == RedirectToGateway(id, sid)
           && id in orders && fresh(orders[id])
           && orders == old(orders)[id := orders[id]]
           && OrderPlaced(orders[id], user, number, info, cart, sid, today)
    }

    /** The effect of `create_checkout_session_internal`: a clashing order
        number fails before anything is stored (the unique constraint);
        otherwise the order and the session are created. */
    twostate predicate SessionOutcome(user: UserId, cart: seq<CartItem>, info: ShippingInfo, suffix: string,
                                      gateway: SessionReply, today: Date, reply: CheckoutReply, lines: seq<LineItem>)
      requires KnownProducts(cart, products)
      reads this, orders.Values
    {
      if old(NumberInUse(OrderNumber(suffix))) then
        reply == NumberTaken && orders == old(orders) && nextOrderId == old(nextOrderId) && lines == []
      else
        SessionOpened(user, cart, info, OrderNumber(suffix), gateway, today, reply, lines)
    }

    /** The `OrderItem.objects.create` loop: one line per cart item, with the
        product's price of the moment. */
    method SnapshotItems(cart: seq<CartItem>) returns (items: seq<OrderItem>)
      requires KnownProducts(cart, products)
      ensures items == Snapshot(cart, products)
    {
      items := [];
      var i := 0;
      while i < |cart|
        invariant 0 <= i <= |cart|
        invariant items == Snapshot(cart[..i], products)
      {
        var item := cart[i];
        items := items + [OrderItem(item.product, item.quantity, products[item.product].price)];
        i := i + 1;
        assert cart[..i][..i - 1] == cart[..i - 1];
      }
      assert cart[..|cart|] == cart;
    }

    /** The `line_items` loop: tax-inclusive unit prices, then shipping. */
    method BuildLineItems(cart: seq<CartItem>, rate: Rate, shippingFee: int) returns (lines: seq<LineItem>)
      requires KnownProducts(cart, products)
      ensures lines == SessionLines(cart, products, rate, shippingFee)
    {
      lines := [];
      var j := 0;
      while j < |cart|
        invariant 0 <= j <= |cart|
        invariant lines == ProductLines(cart[..j], products, rate)
      {
        var item := cart[j];
        lines := lines + [LineItem(WithTax(products[item.product].price, rate), item.quantity)];
        j := j + 1;
        assert cart[..j][..j - 1] == cart[..j - 1];
      }
      assert cart[..|cart|] == cart;
      if shippingFee > 0 {
        lines := lines + [LineItem(shippingFee, 1)];
      }
    }

    /** `Order.objects.create` with zero amounts, one `OrderItem` per cart
        item, then `calculate_amounts`: a new pending order whose amounts are
        the cart's totals of the day. */
    method PlaceOrder(user: UserId, number: string, info: ShippingInfo, cart: seq<CartItem>, session: string, today: Date)
      returns (order: Order)
      requires KnownProducts(cart, products)
      ensures fresh(order) && order.Valid()
      ensures OrderPlaced(order, user, number, info, cart, session, today)
    {
      order := new Order(user, number, info);
      order.sessionId := session;
      var items := SnapshotItems(cart);
      order.items := items;
      order.CalculateAmounts(taxRates, shippingFees, today);
      SnapshotAmountsMatchCart(cart, products, taxRates, shippingFees, today);
    }

    /** The insert of a new order row: it takes the next id. */
    method InsertOrder(order: Order) returns (id: OrderId)
      requires Valid() && order !in Repr && order.Valid() && KnownItems(order.items, products.Keys)
      requires forall j :: j in orders ==> orders[j].number != order.number
      modifies this`orders, this`nextOrderId, this`Repr
      ensures Valid()
      ensures id == old(nextOrderId) && id !in old(orders) && nextOrderId == id + 1
      ensures orders == old(orders)[id := order] && Repr == old(Repr) + {order}
    {
      id := nextOrderId;
      nextOrderId := nextOrderId + 1;
      orders := orders[id := order];
      Repr := Repr + {order};
      forall i, j | i in orders && j in orders && i != j
        ensures orders[i].number != orders[j].number
      {
        if i != id && j != id {
          assert old(orders[i].number) != old(orders[j].number);
        }
      }
    }

    /** The new order, placed and stored under the next id. */
    method StoreOrder(user: UserId, number: string, info: ShippingInfo, cart: seq<CartItem>, session: string, today: Date)
      returns (id: OrderId)
      requires Valid() && KnownProducts(cart, products) && !NumberInUse(number)
      modifies this`orders, this`nextOrderId, this`Repr
      ensures Valid()
      ensures id == old(nextOrderId) && id !in old(orders) && nextOrderId == id + 1
      ensures id in orders && fresh(orders[id]) && orders == old(orders)[id := orders[id]]
      ensures OrderPlaced(orders[id], user, number, info, cart, session, today)
    {
      var order := PlaceOrder(user, number, info, cart, session, today);
      id := InsertOrder(order);
    }

    /** `order.delete()` */
    method DeleteOrder(id: OrderId)
      requires Valid() && id in orders
      modifies this`orders, this`Repr
      ensures Valid()
      ensures orders == old(orders) - {id} && Repr == old(Repr) - {old(orders[id])}
    {
      Repr := Repr - {orders[id]};
      orders := orders - {id};
      forall k | k in orders
        ensures orders[k] in Repr
      {
        assert orders[k] != old(orders[id]) by {
          assert old(orders[k].number) != old(orders[id].number);
        }
      }
    }

    /** `create_checkout_session_internal` */
    method CreateCheckoutSession(user: UserId, cart: seq<CartItem>, info: ShippingInfo, suffix: string,
                                 gateway: SessionReply, today: Date)
      returns (reply: CheckoutReply, lines: seq<LineItem>)
      requires Valid() && KnownProducts(cart, products) && IsOrderSuffix(suffix)
      modifies this`orders, this`nextOrderId, this`Repr
      ensures Valid()
      ensures SessionOutcome(user, cart, info, suffix, gateway, today, reply, lines)
    {
      var number := OrderNumber(suffix);
      if exists j :: j in orders && orders[j].number == number {
        return NumberTaken, [];
      }
      reply, lines := OpenSession(user, cart, info, number, gateway, today);
    }

    /** The order, its lines and amounts, the line items and the gateway
        session, for a number no order carries. */
    method OpenSession(user: UserId, cart: seq<CartItem>, info: ShippingInfo, number: string,
                       gateway: SessionReply, today: Date)
      returns (reply: CheckoutReply, lines: seq<LineItem>)
      requires Valid() && KnownProducts(cart, products) && !NumberInUse(number)
      modifies this`orders, this`nextOrderId, this`Repr
      ensures Valid()
      ensures SessionOpened(user, cart, info, number, gateway, today, reply, lines)
    {
      var shippingFee := CalculateShippingFee(shippingFees, today, CartSubtotal(cart, products));
      match gateway
      case SessionCreated(sid) =>
        var id := StoreOrder(user, number, info, cart, sid, today);
        lines := BuildLineItems(cart, CurrentTaxRate(taxRates, today), shippingFee);
        reply := RedirectToGateway(id, sid);
      case SessionCreationFailed =>
        var id := StoreOrder(user, number, info, cart, "", today);
        ghost var stored := orders;
        lines := BuildLineItems(cart, CurrentTaxRate(taxRates, today), shippingFee);
        DeleteOrder(id);
        RemoveInserted(old(orders), id, stored[id]);
        reply := SessionFailed;
    }

    /** `checkout`'s stock loop: the first item whose quantity exceeds its
        product's stock. */
    method FindShort(cart: seq<CartItem>) returns (r: Option<nat>)
      requires KnownProducts(cart, products)
      ensures r == FirstShort(cart, products)
    {
      var i := 0;
      while i < |cart|
        invariant 0 <= i <= |cart|
        invariant forall j :: 0 <= j < i ==> !Short(cart[j], products)
      {
        if products[cart[i].product].stock < cart[i].quantity {
          return Some(i);
        }
        i := i + 1;
      }
      return None;
    }

    /** The user's cart, if there is one. */
    function CartFor(user: UserId): (r: Option<seq<CartItem>>)
      reads this`carts
      ensures r.Some? <==> user in carts
      ensures r.Some? ==> r.value == carts[user]
    {
      if user in carts then Some(carts[user]) else None
    }

    /** The checks of `checkout` in the order it makes them: the cart must
        exist and be non-empty, every item must be within stock, and a posted
        form must clean. */
    method CheckCheckout(user: UserId, isPost: bool, input: CheckoutInput) returns (gate: Result<ShippingInfo, CheckoutReply>)
      requires CartsValid(products.Keys)
      ensures gate == CheckoutGate(CartFor(user), products, isPost, input)
    {
      if user !in carts {
        return Err(CartNotFound);
      }
      var cart := carts[user];
      assert KnownProducts(cart, products) by {
        assert WellFormedCart(cart, products.Keys, nextItemId);
      }
      if |cart| == 0 {
        return Err(EmptyCart);
      }
      var short := FindShort(cart);
      if short.Some? {
        return Err(InsufficientStock(cart[short.value].product));
      }
      if !isPost {
        return Err(ShowForm);
      }
      var form := CleanCheckout(input);
      if form.Err? {
        return Err(FormInvalid(form.error));
      }
      return Ok(form.value);
    }

    /** `checkout`: an early answer when a check fails; otherwise the order
        and the gateway session are created. */
    method Checkout(user: UserId, isPost: bool, input: CheckoutInput, suffix: string, gateway: SessionReply, today: Date)
      returns (reply: CheckoutReply, lines: seq<LineItem>)
      requires Valid() && IsOrderSuffix(suffix)
      modifies this`orders, this`nextOrderId, this`Repr
      ensures Valid()
      ensures var gate := CheckoutGate(old(CartFor(user)), old(products), isPost, input);
        && (gate.Err? ==> reply == gate.error && orders == old(orders) && nextOrderId == old(nextOrderId) && lines == [])
        && (gate.Ok? ==> SessionOutcome(user, old(carts[user]), gate.value, suffix, gateway, today, reply, lines))
    {
      var gate := CheckCheckout(user, isPost, input);
      if gate.Err? {
        return gate.error, [];
      }
      reply, lines := CreateCheckoutSession(user, carts[user], gate.value, suffix, gateway, today);
    }

    /** `for item in order.items.all(): product.stock -= item.quantity` */
    method DecrementStock(items: seq<OrderItem>)
      requires KnownItems(items, products.Keys)
      modifies this`products
      ensures products == Decremented(old(products), items)
    {
      var i := 0;
      while i < |items|
        invariant 0 <= i <= |items|
        invariant products == Decremented(old(products), items[..i])
      {
        var item := items[i];
        var product := products[item.product];
        products := products[item.product := product.(stock := product.stock - item.quantity)];
        i := i + 1;
        assert items[..i][..i - 1] == items[..i - 1];
      }
      assert items[..|items|] == items;
    }

    /** `order.status = 'paid'`, the payment intent recorded, then the stock
        decrement over the order's lines: the steps both payment paths run. */
    method MarkPaid(orderId: OrderId, paymentIntent: string)
      requires Valid() && orderId in orders
      modifies this`products, OrderAt(orderId)`status, OrderAt(orderId)`paymentIntent
      ensures Valid()
      ensures orders[orderId].status == Paid && orders[orderId].paymentIntent == paymentIntent
      ensures products == Decremented(old(products), orders[orderId].items)
    {
      SetPaid(orderId, paymentIntent);
      ghost var known := products.Keys;
      DecrementStock(orders[orderId].items);
      assert products.Keys == known;
      assert CartsValid(products.Keys) && OrdersValid(products.Keys);
    }

    /** `order.status = 'paid'` and `order.stripe_payment_intent_id = ...` */
    method SetPaid(orderId: OrderId, paymentIntent: string)
      requires Valid() && orderId in orders
      modifies OrderAt(orderId)`status, OrderAt(orderId)`paymentIntent
      ensures Valid()
      ensures orders[orderId].status == Paid && orders[orderId].paymentIntent == paymentIntent
    {
      orders[orderId].status := Paid;
      orders[orderId].paymentIntent := paymentIntent;
    }

    /** `cart.items.all().delete()` for the user's cart. */
    method ClearCart(user: UserId)
      requires Valid()
      modifies this`carts
      ensures Valid()
      ensures carts == ClearedCarts(old(carts), user)
    {
      ClearedCartsWellFormed(carts, user, products.Keys, nextItemId);
      carts := ClearedCarts(carts, user);
    }

    /** `payment_success`: for the user's own order, when the gateway reports
        the session paid, mark it paid with the payment intent, decrement the
        stock of every line and empty the user's cart. Nothing checks the
        order's status first. */
    method PaymentSuccess(user: UserId, orderId: OrderId, lookup: SessionLookup) returns (reply: PaymentReply)
      requires Valid()
      modifies this`products, this`carts, OrderAt(orderId)`status, OrderAt(orderId)`paymentIntent
      ensures Valid()
      ensures !old(Owns(user, orderId)) ==>
        reply == OrderNotFound && products == old(products) && carts == old(carts) && unchanged(OrderAt(orderId))
      ensures old(Owns(user, orderId)) && lookup.Retrieved? && lookup.paid ==>
        && reply == MarkedPaid
        && orders[orderId].status == Paid && orders[orderId].paymentIntent == lookup.paymentIntent
        && products == Decremented(old(products), orders[orderId].items)
        && carts == ClearedCarts(old(carts), user)
      ensures old(Owns(user, orderId)) && !(lookup.Retrieved? && lookup.paid) ==>
        && reply == (if lookup.RetrieveFailed? then LookupFailed else NotPaid)
        && products == old(products) && carts == old(carts) && unchanged(orders[orderId])
    {
      if orderId !in orders || orders[orderId].user != user {
        return OrderNotFound;
      }
      var order := orders[orderId];
      if lookup.RetrieveFailed? {
        return LookupFailed;
      }
      if !lookup.paid {
        return NotPaid;
      }
      MarkPaid(orderId, lookup.paymentIntent);
      ClearCart(user);
      reply := MarkedPaid;
    }

    /** `payment_cancel`: the user's own order becomes cancelled, whatever its
        status, paid included. */
    method PaymentCancel(user: UserId, orderId: OrderId) returns (reply: PaymentReply)
      requires Valid()
      modifies OrderAt(orderId)`status
      ensures Valid()
      ensures orders == old(orders) && products == old(products) && carts == old(carts)
      ensures !old(Owns(user, orderId)) ==> reply == OrderNotFound && unchanged(OrderAt(orderId))
      ensures old(Owns(user, orderId)) ==>
        && reply == MarkedCancelled
        && Confirmation(orders[orderId].status, products)
           == Cancel(Confirmation(old(orders[orderId].status), old(products)))
    {
      if orderId !in orders || orders[orderId].user != user {
        return OrderNotFound;
      }
      orders[orderId].status := Cancelled;
      reply := MarkedCancelled;
    }

    /** The order a webhook event marks paid, as a frame. */
    function WebhookTarget(event: WebhookEvent): set<Order>
      reads this
    {
      if event.Verified? && event.kind == CheckoutCompleted && event.orderId.Some?
      then OrderAt(event.orderId.value) else {}
    }

    /** `stripe_webhook`: 400 for a payload that does not verify; otherwise
        200, and a completed session whose order exists marks that order paid
        and decrements the stock, without any status check and without
        touching the cart. */
    method StripeWebhook(event: WebhookEvent) returns (code: int)
      requires Valid()
      modifies this`products, WebhookTarget(event)`status, WebhookTarget(event)`paymentIntent
      ensures Valid()
      ensures carts == old(carts)
      ensures code == if event.Verified? then 200 else 400
      ensures old(WebhookTarget(event)) != {} ==>
        var o := orders[event.orderId.value];
        && o.status == Paid && o.paymentIntent == event.paymentIntent
        && products == Decremented(old(products), o.items)
      ensures old(WebhookTarget(event)) == {} ==> products == old(products)
    {
      if event.Malformed? || event.BadSignature? {
        return 400;
      }
      if event.kind == CheckoutCompleted && event.orderId.Some? && event.orderId.value in orders {
        MarkPaid(event.orderId.value, event.paymentIntent);
      }
      code := 200;
    }

    /** The confirmation both payment paths need: gated on the order still
        being pending, so that however many times and by whichever path it
        runs, the stock is decremented once. */
    method ConfirmPayment(orderId: OrderId, paymentIntent: string)
      requires Valid()
      modifies this`products, OrderAt(orderId)`status, OrderAt(orderId)`paymentIntent
      ensures Valid()
      ensures orderId in orders ==>
        Confirmation(orders[orderId].status, products)
        == ConfirmOnce(Confirmation(old(orders[orderId].status), old(products)), orders[orderId].items)
      ensures orderId in orders && old(orders[orderId].status) == Pending ==>
        orders[orderId].paymentIntent == paymentIntent
      ensures orderId !in orders || old(orders[orderId].status) != Pending ==>
        products == old(products) && unchanged(OrderAt(orderId))
    {
      if orderId !in orders || orders[orderId].status != Pending {
        return;
      }
      MarkPaid(orderId, paymentIntent);
    }
  }
}
