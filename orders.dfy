/** Products, carts and orders of `model/models.py`: the live cart totals, the
    frozen order lines, and `Order.calculate_amounts`. */
module Orders {
  import opened Base
  import opened Pricing

  /** A `TeaProduct` row: its tax-exclusive price, its stock and whether it is
      on sale. */
  datatype Product = Product(tea: TeaId, price: int, stock: int, isAvailable: bool)

  /** A `CartItem` row: the cart is the map key it is stored under. */
  datatype CartItem = CartItem(id: ItemId, product: ProductId, quantity: int)

  /** An `OrderItem` row: `price` is the tax-exclusive unit price copied from
      the product when the order was placed. */
  datatype OrderItem = OrderItem(product: ProductId, quantity: int, price: int)

  /** `Order.STATUS_CHOICES` */
  datatype Status = Pending | Paid | Processing | Shipped | Delivered | Cancelled

  /** The cleaned shipping fields of `CheckoutForm`, copied onto the order. */
  datatype ShippingInfo = ShippingInfo(name: string, postalCode: string, address: string, phone: string)

  /** The money fields that `calculate_amounts` assigns. */
  datatype Amounts = Amounts(subtotal: int, taxRate: Rate, taxAmount: int, shippingFee: int, totalAmount: int)

  /** The cart totals of `Cart`: its money fields and `item_count`. */
  datatype CartTotals = CartTotals(amounts: Amounts, itemCount: int)

  /** Every cart item refers to a product row (the foreign key). */
  predicate KnownProducts(cart: seq<CartItem>, products: map<ProductId, Product>) {
    forall i :: 0 <= i < |cart| ==> cart[i].product in products
  }

  /** `OrderItem.subtotal`: frozen price times quantity. */
  function OrderItemSubtotal(item: OrderItem): int {
    item.price * item.quantity
  }

  /** `sum(item.price * item.quantity for item in self.items.all())` */
  function ItemsSubtotal(items: seq<OrderItem>): int {
    if |items| == 0 then 0
    else ItemsSubtotal(items[..|items| - 1]) + OrderItemSubtotal(items[|items| - 1])
  }

  /** `CartItem.subtotal`: the product's live price times the quantity. */
  function CartItemSubtotal(item: CartItem, products: map<ProductId, Product>): int
    requires item.product in products
  {
    products[item.product].price * item.quantity
  }

  /** `Cart.subtotal` */
  function CartSubtotal(cart: seq<CartItem>, products: map<ProductId, Product>): int
    requires KnownProducts(cart, products)
  {
    if |cart| == 0 then 0
    else CartSubtotal(cart[..|cart| - 1], products) + CartItemSubtotal(cart[|cart| - 1], products)
  }

  /** `Cart.item_count`: the sum of the quantities. */
  function ItemCount(cart: seq<CartItem>): int {
    if |cart| == 0 then 0 else ItemCount(cart[..|cart| - 1]) + cart[|cart| - 1].quantity
  }

  /** `CartItem.subtotal_with_tax` and `OrderItem.subtotal_with_tax`. */
  function SubtotalWithTax(subtotal: int, rate: Rate): int {
    WithTax(subtotal, rate)
  }

  /** The amounts for a subtotal under the pricing policy of the day `today`:
      tax truncated on the whole subtotal, shipping from the current rule, and
      the total as their sum. */
  function AmountsFor(subtotal: int, taxRows: seq<Row<Rate>>, feeRows: seq<Row<ShippingRule>>, today: Date): (a: Amounts)
    ensures a.subtotal == subtotal
    ensures a.taxRate == CurrentTaxRate(taxRows, today)
    ensures a.taxAmount == TaxOn(subtotal, a.taxRate)
    ensures a.shippingFee == CalculateShippingFee(feeRows, today, subtotal)
    ensures a.totalAmount == a.subtotal + a.taxAmount + a.shippingFee
  {
    var rate := CurrentTaxRate(taxRows, today);
    var tax := TaxOn(subtotal, rate);
    var shipping := CalculateShippingFee(feeRows, today, subtotal);
    Amounts(subtotal, rate, tax, shipping, subtotal + tax + shipping)
  }

  /** The `Cart` properties, computed live from current prices and the current
      pricing policy. */
  function CartTotalsFor(cart: seq<CartItem>, products: map<ProductId, Product>,
                         taxRows: seq<Row<Rate>>, feeRows: seq<Row<ShippingRule>>, today: Date): (t: CartTotals)
    requires KnownProducts(cart, products)
    ensures t.amounts.totalAmount == t.amounts.subtotal + t.amounts.taxAmount + t.amounts.shippingFee
    ensures t.amounts.taxAmount == TaxOn(t.amounts.subtotal, CurrentTaxRate(taxRows, today))
  {
    CartTotals(AmountsFor(CartSubtotal(cart, products), taxRows, feeRows, today), ItemCount(cart))
  }

  /** The order lines made from a cart: one per cart item, in cart order, with
      the quantity and the product's price at this moment. */
  function Snapshot(cart: seq<CartItem>, products: map<ProductId, Product>): (items: seq<OrderItem>)
    requires KnownProducts(cart, products)
    ensures |items| == |cart|
    ensures forall i :: 0 <= i < |cart| ==>
      items[i] == OrderItem(cart[i].product, cart[i].quantity, products[cart[i].product].price)
  {
    if |cart| == 0 then []
    else
      var last := cart[|cart| - 1];
      Snapshot(cart[..|cart| - 1], products) + [OrderItem(last.product, last.quantity, products[last.product].price)]
  }

  /** The frozen lines add up to the cart's subtotal at the moment they were
      copied. */
  lemma {:induction false} SnapshotSubtotal(cart: seq<CartItem>, products: map<ProductId, Product>)
    requires KnownProducts(cart, products)
    ensures ItemsSubtotal(Snapshot(cart, products)) == CartSubtotal(cart, products)
  {
    if |cart| > 0 {
      var init := cart[..|cart| - 1];
      SnapshotSubtotal(init, products);
      var items := Snapshot(cart, products);
      assert items[..|items| - 1] == Snapshot(init, products);
    }
  }

  /** An order's amounts, computed from its frozen lines, are the cart totals
      at checkout. */
  lemma SnapshotAmountsMatchCart(cart: seq<CartItem>, products: map<ProductId, Product>,
                                 taxRows: seq<Row<Rate>>, feeRows: seq<Row<ShippingRule>>, today: Date)
    requires KnownProducts(cart, products)
    ensures AmountsFor(ItemsSubtotal(Snapshot(cart, products)), taxRows, feeRows, today)
         == CartTotalsFor(cart, products, taxRows, feeRows, today).amounts
  {
    SnapshotSubtotal(cart, products);
  }

  /** An order. Its money fields are frozen once computed; `status` and the
      gateway identifiers are updated in place by the views. */
  class Order {
    var user: UserId
    var number: string
    var status: Status
    var subtotal: int
    var taxRate: Rate
    var taxAmount: int
    var shippingFee: int
    var totalAmount: int
    var sessionId: string
    var paymentIntent: string
    var shipping: ShippingInfo
    var items: seq<OrderItem>

    /** The amounts agree with the frozen lines and the frozen tax rate. */
    ghost predicate Valid()
      reads this`subtotal, this`taxRate, this`taxAmount, this`shippingFee, this`totalAmount, this`items
    {
      && subtotal == ItemsSubtotal(items)
      && taxAmount == TaxOn(subtotal, taxRate)
      && totalAmount == subtotal + taxAmount + shippingFee
    }

    /** `Order.objects.create(...)` with the temporary zero amounts. */
    constructor (user: UserId, number: string, shipping: ShippingInfo)
      ensures Valid()
      ensures this.user == user && this.number == number && this.shipping == shipping
      ensures status == Pending && items == [] && sessionId == "" && paymentIntent == ""
      ensures subtotal == 0 && taxRate == 0 && taxAmount == 0 && shippingFee == 0 && totalAmount == 0
    {
      this.user := user;
      this.number := number;
      this.shipping := shipping;
      status := Pending;
      items := [];
      sessionId := "";
      paymentIntent := "";
      subtotal, taxRate, taxAmount, shippingFee, totalAmount := 0, 0, 0, 0, 0;
    }

    /** `calculate_amounts`: subtotal from the frozen lines, then the rate and
        the shipping fee in force on `today`, then the total. */
    method CalculateAmounts(taxRows: seq<Row<Rate>>, feeRows: seq<Row<ShippingRule>>, today: Date)
      modifies this`subtotal, this`taxRate, this`taxAmount, this`shippingFee, this`totalAmount
      ensures Valid()
      ensures Amounts(subtotal, taxRate, taxAmount, shippingFee, totalAmount)
           == AmountsFor(ItemsSubtotal(items), taxRows, feeRows, today)
    {
      subtotal := ItemsSubtotal(items);
      taxRate := CurrentTaxRate(taxRows, today);
      taxAmount := TaxOn(subtotal, taxRate);
      shippingFee := CalculateShippingFee(feeRows, today, subtotal);
      totalAmount := subtotal + taxAmount + shippingFee;
    }
  }
}
