/** The shopper-facing product handler that fills the cart. */
module ProductsController {
  import opened Outcomes
  import opened Entities
  import opened CartEngine

  /** `parseInt(quantity) || 1`: NaN and 0 are falsy and become 1; every
      other integer, negative ones included, is kept. */
  function EffectiveQuantity(parsed: Option<int>): (q: int)
    ensures q != 0
    ensures parsed.None? || parsed == Some(0) ==> q == 1
    ensures parsed.Some? && parsed.value != 0 ==> q == parsed.value
  {
    if parsed.None? || parsed.value == 0 then 1 else parsed.value
  }

  /** The cart after storing `product` with quantity `q`: the existing
      line for the product id gets the quantity (its snapshot is kept),
      or a fresh snapshot line is appended. */
  function AddOrOverwrite(c: Cart, product: Product, q: int): (c': Cart)
    ensures HasLine(c, product.id) ==> |c'| == |c|
    ensures HasLine(c, product.id) ==>
      forall i :: IsFirst(c, product.id, i) ==> c' == c[i := c[i].(quantity := q)]
    ensures !HasLine(c, product.id) ==> c' == c + [CartLine(product, q)]
    ensures Find(c', product.id).Some? && c'[Find(c', product.id).value].quantity == q
  {
    if HasLine(c, product.id) then SetQuantity(c, product.id, q)
    else
      var c' := c + [CartLine(product, q)];
      assert IsFirst(c', product.id, |c|);
      c'
  }

  /** POST /add-to-cart/:id. The product row comes from a lookup that may
      fail or find nothing (`None`); then the cart is left alone and the
      user goes back to the shop. Otherwise an absent cart starts empty,
      the product is stored with the effective quantity, and the user
      goes to the cart. */
  function AddToCart(s: Session, quantity: Option<int>, lookup: Option<Product>): (r: Reply)
    ensures lookup.None? ==> r == Reply(s, Redirect("/shopping"))
    ensures lookup.Some? ==>
      && r.outcome == Redirect("/cart")
      && r.session.user == s.user
      && r.session.cart == Some(AddOrOverwrite(s.CartOrEmpty(), lookup.value, EffectiveQuantity(quantity)))
  {
    var q := EffectiveQuantity(quantity);
    match lookup
    case None => Reply(s, Redirect("/shopping"))
    case Some(product) =>
      var c := s.CartOrEmpty();
      Reply(s.(cart := Some(AddOrOverwrite(c, product, q))), Redirect("/cart"))
  }

  /** Adding keeps at most one line per product id. */
  lemma AddKeepsUniqueIds(c: Cart, product: Product, q: int)
    requires UniqueIds(c)
    ensures UniqueIds(AddOrOverwrite(c, product, q))
  {
    if HasLine(c, product.id) {
      SetQuantityKeepsUniqueIds(c, product.id, q);
    } else {
      var c' := c + [CartLine(product, q)];
      forall i, j | 0 <= i < j < |c'| ensures c'[i].Id() != c'[j].Id() {
        if j == |c| {
          assert c'[i] == c[i];
        }
      }
    }
  }

  /** Adding the same product twice leaves one line with the second
      quantity: overwrite, not sum, and the second add is as if the first
      had not happened. */
  lemma {:induction false} AddTwiceLastWins(s: Session, q1: Option<int>, q2: Option<int>, product: Product)
    ensures var once := AddToCart(s, q2, Some(product));
      AddToCart(AddToCart(s, q1, Some(product)).session, q2, Some(product)) == once
  {
    var c := s.CartOrEmpty();
    var a, b := EffectiveQuantity(q1), EffectiveQuantity(q2);
    var c1 := AddOrOverwrite(c, product, a);
    assert HasLine(c1, product.id) by {
      var k := Find(c1, product.id).value;
      assert c1[k].Id() == product.id;
    }
    if HasLine(c, product.id) {
      var i := Find(c, product.id).value;
      assert c1 == c[i := c[i].(quantity := a)];
      assert IsFirst(c1, product.id, i);
      assert AddOrOverwrite(c1, product, b) == c[i := c[i].(quantity := b)];
    } else {
      assert c1 == c + [CartLine(product, a)];
      assert IsFirst(c1, product.id, |c|);
      assert AddOrOverwrite(c1, product, b) == c + [CartLine(product, b)];
    }
  }

  /** On an empty or absent cart, adding gives exactly one line. */
  lemma AddToEmptyCart(s: Session, quantity: Option<int>, product: Product)
    requires s.CartOrEmpty() == []
    ensures AddToCart(s, quantity, Some(product)).session.cart
      == Some([CartLine(product, EffectiveQuantity(quantity))])
  {
    var x := CartLine(product, EffectiveQuantity(quantity));
    assert !HasLine([], product.id);
    assert [] + [x] == [x];
  }

  /** Unlike the update route, add does not reject non-positive input: a
      quantity of -3 is stored as is. */
  lemma AddStoresNegativeQuantity(s: Session, product: Product)
    requires s.CartOrEmpty() == []
    ensures var c := AddToCart(s, Some(-3), Some(product)).session.cart.value;
      c == [CartLine(product, -3)] && !PositiveQuantities(c)
  {
    var c := AddToCart(s, Some(-3), Some(product)).session.cart.value;
    assert c[0].quantity == -3;
  }
}
