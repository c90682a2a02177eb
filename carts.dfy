/** The cart edits of `shop/views.py` (`add_to_cart`, `update_cart_item`,
    `remove_cart_item`) on the value of one user's cart, with what they do to
    the quantity held of each product and to `Cart.item_count`. */
module Carts {
  import opened Base
  import opened Orders

  /** The stored invariant of a cart: known products, quantities of at least 1,
      item ids already issued, and at most one line per product
      (`unique_together = ['cart', 'product']`). */
  predicate WellFormedCart(cart: seq<CartItem>, known: set<ProductId>, nextItemId: ItemId) {
    && (forall i :: 0 <= i < |cart| ==> cart[i].product in known)
    && (forall i :: 0 <= i < |cart| ==> 1 <= cart[i].quantity && cart[i].id < nextItemId)
    && (forall i, j :: 0 <= i < j < |cart| ==> cart[i].product != cart[j].product && cart[i].id != cart[j].id)
  }

  /** How a view picks a line of the cart: by product
      (`CartItem.objects.get_or_create(cart=cart, product=product)`) or by
      item id (`get_object_or_404(CartItem, id=item_id, cart__user=request.user)`). */
  datatype LineKey = ByProduct(product: ProductId) | ById(id: ItemId)

  predicate Matches(line: CartItem, key: LineKey) {
    match key
    case ByProduct(product) => line.product == product
    case ById(id) => line.id == id
  }

  /** The line the key picks, or None exactly when no line matches (the
      line `get_or_create` would create, or the 404). */
  function Find(cart: seq<CartItem>, key: LineKey): (r: Option<nat>)
    ensures r.Some? ==> r.value < |cart| && Matches(cart[r.value], key)
    ensures r.None? ==> forall i :: 0 <= i < |cart| ==> !Matches(cart[i], key)
  {
    if |cart| == 0 then None
    else if Matches(cart[|cart| - 1], key) then Some(|cart| - 1)
    else Find(cart[..|cart| - 1], key)
  }

  /** `add_to_cart` once the quantity has passed the form: a new line with the
      quantity, or the existing line raised to old + quantity when that does
      not exceed the stock; None when it would (the stock error). */
  function MergeInto(cart: seq<CartItem>, product: ProductId, quantity: int, stock: int, freshId: ItemId): (r: Option<seq<CartItem>>)
    ensures r.None? ==> exists i :: 0 <= i < |cart| && cart[i].product == product && cart[i].quantity + quantity > stock
    ensures Find(cart, ByProduct(product)).None? ==> r.Some?
    ensures r.Some? && Find(cart, ByProduct(product)).None? ==> r.value == cart + [CartItem(freshId, product, quantity)]
    ensures r.Some? && Find(cart, ByProduct(product)).Some? ==>
      |r.value| == |cart| && forall i :: 0 <= i < |cart| && cart[i].product != product ==> r.value[i] == cart[i]
  {
    match Find(cart, ByProduct(product))
    case None => Some(cart + [CartItem(freshId, product, quantity)])
    case Some(k) =>
      var merged := cart[k].quantity + quantity;
      if stock < merged then None
      else Some(cart[k := cart[k].(quantity := merged)])
  }

  /** `update_cart_item` once the quantity has passed the form. */
  function SetQuantity(cart: seq<CartItem>, k: nat, quantity: int): (r: seq<CartItem>)
    requires k < |cart|
    ensures |r| == |cart|
    ensures r[k].id == cart[k].id && r[k].product == cart[k].product && r[k].quantity == quantity
    ensures forall i :: 0 <= i < |cart| && i != k ==> r[i] == cart[i]
  {
    cart[k := cart[k].(quantity := quantity)]
  }

  /** `cart_item.delete()` */
  function RemoveAt(cart: seq<CartItem>, k: nat): (r: seq<CartItem>)
    requires k < |cart|
    ensures |r| == |cart| - 1
    ensures multiset(r) + multiset{cart[k]} == multiset(cart)
    ensures forall i :: 0 <= i < |r| ==> r[i] == if i < k then cart[i] else cart[i + 1]
  {
    assert cart == cart[..k] + [cart[k]] + cart[k + 1..];
    cart[..k] + cart[k + 1..]
  }

  /** The quantity of `product` held in the cart. */
  function QuantityOf(cart: seq<CartItem>, product: ProductId): int {
    if |cart| == 0 then 0
    else QuantityOf(cart[..|cart| - 1], product) + (if cart[|cart| - 1].product == product then cart[|cart| - 1].quantity else 0)
  }

  lemma {:induction false} QuantityOfConcat(a: seq<CartItem>, b: seq<CartItem>, product: ProductId)
    ensures QuantityOf(a + b, product) == QuantityOf(a, product) + QuantityOf(b, product)
    ensures ItemCount(a + b) == ItemCount(a) + ItemCount(b)
  {
    if |b| == 0 {
      assert a + b == a;
    } else {
      var b' := b[..|b| - 1];
      assert (a + b)[..|a + b| - 1] == a + b';
      QuantityOfConcat(a, b', product);
    }
  }

  lemma QuantityOfSingle(x: CartItem, product: ProductId)
    ensures QuantityOf([x], product) == (if x.product == product then x.quantity else 0)
    ensures ItemCount([x]) == x.quantity
  {
    assert [x][..0] == [];
  }

  /** Replacing line k changes the held quantities by the difference between
      the new line and the old one. */
  lemma ReplaceLine(cart: seq<CartItem>, k: nat, x: CartItem, product: ProductId)
    requires k < |cart|
    ensures QuantityOf(cart[k := x], product) == QuantityOf(cart, product)
      - (if cart[k].product == product then cart[k].quantity else 0)
      + (if x.product == product then x.quantity else 0)
    ensures ItemCount(cart[k := x]) == ItemCount(cart) - cart[k].quantity + x.quantity
  {
    assert cart == cart[..k] + [cart[k]] + cart[k + 1..];
    assert cart[k := x] == cart[..k] + [x] + cart[k + 1..];
    QuantityOfConcat(cart[..k] + [cart[k]], cart[k + 1..], product);
    QuantityOfConcat(cart[..k], [cart[k]], product);
    QuantityOfConcat(cart[..k] + [x], cart[k + 1..], product);
    QuantityOfConcat(cart[..k], [x], product);
    QuantityOfSingle(cart[k], product);
    QuantityOfSingle(x, product);
  }

  /** A product the cart has no line for is held in quantity 0. */
  lemma {:induction false} AbsentProductQuantity(cart: seq<CartItem>, product: ProductId)
    requires Find(cart, ByProduct(product)).None?
    ensures QuantityOf(cart, product) == 0
  {
    if |cart| > 0 {
      AbsentProductQuantity(cart[..|cart| - 1], product);
    }
  }

  /** In a well-formed cart the quantity held of a product is that of its one line. */
  lemma {:induction false} SingleLineQuantity(cart: seq<CartItem>, k: nat)
    requires k < |cart|
    requires forall i, j :: 0 <= i < j < |cart| ==> cart[i].product != cart[j].product
    ensures QuantityOf(cart, cart[k].product) == cart[k].quantity
  {
    var p := cart[k].product;
    var init := cart[..|cart| - 1];
    if k == |cart| - 1 {
      assert forall i :: 0 <= i < |init| ==> init[i].product != p;
      AbsentProductQuantity(init, p);
    } else {
      SingleLineQuantity(init, k);
    }
  }

  /** Adding: the quantity held of the product grows by exactly the added
      quantity and every other product is untouched; the merge is refused only
      when an existing line would go past the stock. */
  lemma MergeIntoQuantities(cart: seq<CartItem>, product: ProductId, quantity: int, stock: int, freshId: ItemId, other: ProductId)
    requires forall i, j :: 0 <= i < j < |cart| ==> cart[i].product != cart[j].product
    requires other != product
    ensures MergeInto(cart, product, quantity, stock, freshId).None? <==>
      Find(cart, ByProduct(product)).Some? && QuantityOf(cart, product) + quantity > stock
    ensures MergeInto(cart, product, quantity, stock, freshId).Some? ==>
      var after := MergeInto(cart, product, quantity, stock, freshId).value;
      && QuantityOf(after, product) == QuantityOf(cart, product) + quantity
      && QuantityOf(after, other) == QuantityOf(cart, other)
      && ItemCount(after) == ItemCount(cart) + quantity
  {
    var x := CartItem(freshId, product, quantity);
    match Find(cart, ByProduct(product))
    case None =>
      AbsentProductQuantity(cart, product);
      QuantityOfConcat(cart, [x], product);
      QuantityOfConcat(cart, [x], other);
      QuantityOfSingle(x, product);
      QuantityOfSingle(x, other);
    case Some(k) =>
      SingleLineQuantity(cart, k);
      var y := cart[k].(quantity := cart[k].quantity + quantity);
      ReplaceLine(cart, k, y, product);
      ReplaceLine(cart, k, y, other);
  }

  /** Adding keeps the cart well formed; a new line uses up the fresh id. */
  lemma MergeIntoWellFormed(cart: seq<CartItem>, products: map<ProductId, Product>, nextItemId: ItemId,
                            product: ProductId, quantity: int)
    requires WellFormedCart(cart, products.Keys, nextItemId)
    requires product in products && quantity >= 1
    requires MergeInto(cart, product, quantity, products[product].stock, nextItemId).Some?
    ensures WellFormedCart(MergeInto(cart, product, quantity, products[product].stock, nextItemId).value, products.Keys,
                           nextItemId + (if Find(cart, ByProduct(product)).None? then 1 else 0))
  {
  }

  /** Updating line k sets the quantity of its product and nothing else. */
  lemma SetQuantityQuantities(cart: seq<CartItem>, k: nat, quantity: int, other: ProductId)
    requires k < |cart|
    requires forall i, j :: 0 <= i < j < |cart| ==> cart[i].product != cart[j].product
    requires other != cart[k].product
    ensures QuantityOf(SetQuantity(cart, k, quantity), cart[k].product) == quantity
    ensures QuantityOf(SetQuantity(cart, k, quantity), other) == QuantityOf(cart, other)
    ensures ItemCount(SetQuantity(cart, k, quantity)) == ItemCount(cart) - cart[k].quantity + quantity
  {
    var y := cart[k].(quantity := quantity);
    SingleLineQuantity(cart, k);
    ReplaceLine(cart, k, y, cart[k].product);
    ReplaceLine(cart, k, y, other);
  }

  /** Removing line k drops its product from the cart and nothing else. */
  lemma RemoveAtQuantities(cart: seq<CartItem>, k: nat, other: ProductId)
    requires k < |cart|
    requires forall i, j :: 0 <= i < j < |cart| ==> cart[i].product != cart[j].product
    requires other != cart[k].product
    ensures QuantityOf(RemoveAt(cart, k), cart[k].product) == 0
    ensures QuantityOf(RemoveAt(cart, k), other) == QuantityOf(cart, other)
    ensures ItemCount(RemoveAt(cart, k)) == ItemCount(cart) - cart[k].quantity
  {
    var p := cart[k].product;
    assert cart == cart[..k] + [cart[k]] + cart[k + 1..];
    QuantityOfConcat(cart[..k] + [cart[k]], cart[k + 1..], p);
    QuantityOfConcat(cart[..k], [cart[k]], p);
    QuantityOfConcat(cart[..k] + [cart[k]], cart[k + 1..], other);
    QuantityOfConcat(cart[..k], [cart[k]], other);
    QuantityOfConcat(cart[..k], cart[k + 1..], p);
    QuantityOfConcat(cart[..k], cart[k + 1..], other);
    QuantityOfSingle(cart[k], p);
    QuantityOfSingle(cart[k], other);
    SingleLineQuantity(cart, k);
  }

  /** Updating and removing keep the cart well formed. */
  lemma EditsKeepWellFormed(cart: seq<CartItem>, known: set<ProductId>, nextItemId: ItemId, k: nat, quantity: int)
    requires WellFormedCart(cart, known, nextItemId) && k < |cart| && quantity >= 1
    ensures WellFormedCart(SetQuantity(cart, k, quantity), known, nextItemId)
    ensures WellFormedCart(RemoveAt(cart, k), known, nextItemId)
  {
    var r := RemoveAt(cart, k);
    forall i, j | 0 <= i < j < |r|
      ensures r[i].product != r[j].product && r[i].id != r[j].id
    {
      var i' := if i < k then i else i + 1;
      var j' := if j < k then j else j + 1;
      assert r[i] == cart[i'] && r[j] == cart[j'];
    }
  }
}
