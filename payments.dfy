/** What `create_checkout_session_internal` sends to the payment gateway and
    what the payment confirmations of `shop/views.py` do to the stock. */
module Payments {
  import opened Base
  import opened Pricing
  import opened Orders

  /** A `line_items` entry: the unit amount charged and the quantity. */
  datatype LineItem = LineItem(unitAmount: int, quantity: int)

  /** One entry per cart item: the product's tax-inclusive price, computed
      per unit, and the item's quantity. */
  function ProductLines(cart: seq<CartItem>, products: map<ProductId, Product>, rate: Rate): (lines: seq<LineItem>)
    requires KnownProducts(cart, products)
    ensures |lines| == |cart|
    ensures forall i :: 0 <= i < |cart| ==>
      lines[i] == LineItem(WithTax(products[cart[i].product].price, rate), cart[i].quantity)
  {
    if |cart| == 0 then []
    else
      var last := cart[|cart| - 1];
      ProductLines(cart[..|cart| - 1], products, rate) + [LineItem(WithTax(products[last.product].price, rate), last.quantity)]
  }

  /** The product entries, then one shipping entry of quantity 1 when the
      order's shipping fee is positive. */
  function SessionLines(cart: seq<CartItem>, products: map<ProductId, Product>, rate: Rate, shippingFee: int): (lines: seq<LineItem>)
    requires KnownProducts(cart, products)
    ensures |lines| == |cart| + (if shippingFee > 0 then 1 else 0)
    ensures lines[..|cart|] == ProductLines(cart, products, rate)
    ensures shippingFee > 0 ==> lines[|cart|] == LineItem(shippingFee, 1)
  {
    ProductLines(cart, products, rate) + (if shippingFee > 0 then [LineItem(shippingFee, 1)] else [])
  }

  /** The amount the gateway charges for a list of entries. */
  function Charged(lines: seq<LineItem>): int {
    if |lines| == 0 then 0
    else Charged(lines[..|lines| - 1]) + lines[|lines| - 1].unitAmount * lines[|lines| - 1].quantity
  }

  /** Prices and quantities that are not negative. */
  predicate NonNegativeLines(cart: seq<CartItem>, products: map<ProductId, Product>)
    requires KnownProducts(cart, products)
  {
    forall i :: 0 <= i < |cart| ==> products[cart[i].product].price >= 0 && cart[i].quantity >= 0
  }

  /** One more product entry keeps the per-unit tax within the tax on the
      running subtotal. */
  lemma ExcessStep(charged: int, subtotal: int, price: nat, quantity: nat, rate: nat, charged': int, subtotal': int)
    requires subtotal >= 0 && 0 <= charged - subtotal
    requires (charged - subtotal) * Scale <= subtotal * rate
    requires charged' == charged + WithTax(price, rate) * quantity
    requires subtotal' == subtotal + price * quantity
    ensures subtotal' >= 0 && 0 <= charged' - subtotal'
    ensures (charged' - subtotal') * Scale <= subtotal' * rate
  {
    WithTaxIsFloor(price, rate);
    var t := TaxOn(price, rate);
    assert WithTax(price, rate) * quantity == price * quantity + t * quantity;
    assert t * Scale <= price * rate;
    assert 0 <= t;
    assert (price * rate - t * Scale) * quantity >= 0;
    assert (price * rate - t * Scale) * quantity == price * quantity * rate - t * quantity * Scale;
    assert (subtotal + price * quantity) * rate == subtotal * rate + price * quantity * rate;
  }

  /** Tax truncated per unit never exceeds the tax on the whole subtotal:
      what the product entries charge above the subtotal is at most
      subtotal * rate / 100 / 100. */
  lemma {:induction false} ProductLinesExcess(cart: seq<CartItem>, products: map<ProductId, Product>, rate: nat)
    requires KnownProducts(cart, products) && NonNegativeLines(cart, products)
    ensures CartSubtotal(cart, products) >= 0
    ensures 0 <= Charged(ProductLines(cart, products, rate)) - CartSubtotal(cart, products)
    ensures (Charged(ProductLines(cart, products, rate)) - CartSubtotal(cart, products)) * Scale
         <= CartSubtotal(cart, products) * rate
  {
    if |cart| > 0 {
      var init := cart[..|cart| - 1];
      var last := cart[|cart| - 1];
      ProductLinesExcess(init, products, rate);
      var p: nat := products[last.product].price;
      var q: nat := last.quantity;
      assert Charged(ProductLines(cart, products, rate)) == Charged(ProductLines(init, products, rate)) + WithTax(p, rate) * q by {
        var lines := ProductLines(cart, products, rate);
        assert lines[..|lines| - 1] == ProductLines(init, products, rate);
      }
      ExcessStep(Charged(ProductLines(init, products, rate)), CartSubtotal(init, products), p, q, rate,
                 Charged(ProductLines(cart, products, rate)), CartSubtotal(cart, products));
    }
  }

  /** With a non-negative rate and fee, the gateway never charges more than
      the order's subtotal + tax + shipping. */
  lemma ChargedAtMostOrderTotal(cart: seq<CartItem>, products: map<ProductId, Product>, rate: nat, shippingFee: nat)
    requires KnownProducts(cart, products) && NonNegativeLines(cart, products)
    ensures Charged(SessionLines(cart, products, rate, shippingFee))
         <= CartSubtotal(cart, products) + TaxOn(CartSubtotal(cart, products), rate) + shippingFee
  {
    var pl := ProductLines(cart, products, rate);
    var extra := if shippingFee > 0 then [LineItem(shippingFee, 1)] else [];
    var lines := SessionLines(cart, products, rate, shippingFee);
    if shippingFee > 0 {
      assert lines[..|lines| - 1] == pl;
    } else {
      assert lines == pl;
    }
    ProductLinesExcess(cart, products, rate);
    var s := CartSubtotal(cart, products);
    var e := Charged(pl) - s;
    assert s * rate >= 0;
    var tax := TaxOn(s, rate);
    assert e * Scale < (tax + 1) * Scale;
  }

  /** The two totals need not agree: two items of price 5 at 10% are charged
      5 each (5.5 truncated), 10 in all, while the order records a subtotal of
      10 and a tax of 1. */
  lemma ChargedCanFallShortOfOrderTotal()
    ensures var cart := [CartItem(1, 1, 1), CartItem(2, 2, 1)];
            var products := map[1 := Product(1, 5, 10, true), 2 := Product(2, 5, 10, true)];
            && KnownProducts(cart, products)
            && Charged(SessionLines(cart, products, 1000, 0)) == 10
            && CartSubtotal(cart, products) + TaxOn(CartSubtotal(cart, products), 1000) == 11
  {
    var cart := [CartItem(1, 1, 1), CartItem(2, 2, 1)];
    var products := map[1 := Product(1, 5, 10, true), 2 := Product(2, 5, 10, true)];
    assert WithTax(5, 1000) == 5;
    var lines := SessionLines(cart, products, 1000, 0);
    assert lines == [LineItem(5, 1), LineItem(5, 1)];
    assert lines[..1] == [LineItem(5, 1)];
    assert [LineItem(5, 1)][..0] == [];
    assert Charged([LineItem(5, 1)]) == 5;
    assert cart[..1] == [CartItem(1, 1, 1)];
    assert [CartItem(1, 1, 1)][..0] == [];
  }

  /** The products after `product.stock -= item.quantity` for each order line
      in turn; a line whose product is gone leaves the table as it is. */
  function Decremented(products: map<ProductId, Product>, items: seq<OrderItem>): (r: map<ProductId, Product>)
    ensures r.Keys == products.Keys
  {
    if |items| == 0 then products
    else
      var before := Decremented(products, items[..|items| - 1]);
      var item := items[|items| - 1];
      if item.product in before
      then before[item.product := before[item.product].(stock := before[item.product].stock - item.quantity)]
      else before
  }

  /** The quantity of `product` ordered over all lines. */
  function OrderedQuantity(items: seq<OrderItem>, product: ProductId): int {
    if |items| == 0 then 0
    else OrderedQuantity(items[..|items| - 1], product) + (if items[|items| - 1].product == product then items[|items| - 1].quantity else 0)
  }

  /** Decrementing lowers each product's stock by exactly the quantity ordered
      of it, with no clamping at 0, and changes no other field. */
  lemma {:induction false} DecrementedStock(products: map<ProductId, Product>, items: seq<OrderItem>, product: ProductId)
    requires product in products
    ensures Decremented(products, items)[product]
         == products[product].(stock := products[product].stock - OrderedQuantity(items, product))
  {
    if |items| > 0 {
      DecrementedStock(products, items[..|items| - 1], product);
    }
  }

  /** The payment return and the webhook each run the decrement, with no
      status guard: when both fire for one order, every product is
      decremented twice. */
  lemma ConfirmingTwiceDecrementsTwice(products: map<ProductId, Product>, items: seq<OrderItem>, product: ProductId)
    requires product in products
    ensures Decremented(Decremented(products, items), items)[product].stock
         == products[product].stock - 2 * OrderedQuantity(items, product)
  {
    DecrementedStock(products, items, product);
    DecrementedStock(Decremented(products, items), items, product);
  }

  /** A stock of 5 and an order of 3: the two confirmations leave -1. */
  lemma DoubleConfirmationOversells()
    ensures var products := map[7 := Product(1, 500, 5, true)];
            var items := [OrderItem(7, 3, 500)];
            && Decremented(products, items)[7].stock == 2
            && Decremented(Decremented(products, items), items)[7].stock == -1
  {
    var products := map[7 := Product(1, 500, 5, true)];
    var items := [OrderItem(7, 3, 500)];
    DecrementedStock(products, items, 7);
    ConfirmingTwiceDecrementsTwice(products, items, 7);
    assert items[..0] == [];
  }

  /** A confirmation's view of the store: the order's status and the products. */
  datatype Confirmation = Confirmation(status: Status, products: map<ProductId, Product>)

  /** The confirmation the checkout flow needs: only a pending order becomes
      paid and has its stock decremented; any other order is left alone. */
  function ConfirmOnce(c: Confirmation, items: seq<OrderItem>): (r: Confirmation)
    ensures r.status == if c.status == Pending then Paid else c.status
    ensures r.products.Keys == c.products.Keys
  {
    if c.status == Pending then Confirmation(Paid, Decremented(c.products, items)) else c
  }

  /** `n` confirmations of one order, from either trigger, in any mix. */
  function ConfirmTimes(c: Confirmation, items: seq<OrderItem>, n: nat): (r: Confirmation)
    ensures r.products.Keys == c.products.Keys
  {
    if n == 0 then c else ConfirmOnce(ConfirmTimes(c, items, n - 1), items)
  }

  /** Confirming again changes nothing. */
  lemma ConfirmOnceIsIdempotent(c: Confirmation, items: seq<OrderItem>)
    ensures ConfirmOnce(ConfirmOnce(c, items), items) == ConfirmOnce(c, items)
  {
  }

  /** However many times a pending order is confirmed (at least once), it ends
      paid with each product decremented by exactly the quantity ordered. */
  lemma {:induction false} ConfirmTimesDecrementsOnce(c: Confirmation, items: seq<OrderItem>, n: nat, product: ProductId)
    requires c.status == Pending && n >= 1 && product in c.products
    ensures ConfirmTimes(c, items, n).status == Paid
    ensures ConfirmTimes(c, items, n).products[product].stock
         == c.products[product].stock - OrderedQuantity(items, product)
  {
    if n == 1 {
      DecrementedStock(c.products, items, product);
    } else {
      ConfirmTimesDecrementsOnce(c, items, n - 1, product);
    }
  }

  /** `payment_cancel` on the confirmation view: the order becomes cancelled
      whatever its status, and the stock is left as it is. */
  function Cancel(c: Confirmation): (r: Confirmation)
    ensures r.status == Cancelled && r.products == c.products
  {
    c.(status := Cancelled)
  }

  /** Cancelling an order after it was paid does not give its stock back:
      each product stays decremented by the quantity ordered. */
  lemma CancelAfterPaymentKeepsStockTaken(c: Confirmation, items: seq<OrderItem>, product: ProductId)
    requires c.status == Pending && product in c.products
    ensures Cancel(ConfirmOnce(c, items)).status == Cancelled
    ensures Cancel(ConfirmOnce(c, items)).products[product].stock
         == c.products[product].stock - OrderedQuantity(items, product)
  {
    DecrementedStock(c.products, items, product);
  }
}
