/** The cart routes of the application: view, update, remove, clear,
    the checkout page and placing the order. Each runs behind
    `checkAuthenticated` (see `Guards.Route`); here they are the handlers. */
module App {
  import opened Outcomes
  import opened Entities
  import opened CartEngine

  /** GET /cart: the cart shown to the user; an absent cart shows empty. */
  function ViewCart(s: Session): (c: Cart)
    ensures s.cart.None? ==> c == []
    ensures s.cart.Some? ==> c == s.cart.value
  {
    s.CartOrEmpty()
  }

  /** The quantity update applies: the route id and the quantity both
      parsed, and the quantity is positive. */
  predicate UpdateApplies(productId: Option<int>, quantity: Option<int>) {
    productId.Some? && quantity.Some? && quantity.value > 0
  }

  /** POST /update-cart/:id. Both the route id and the body quantity go
      through `parseInt` (`None` is NaN, which equals nothing and is not
      positive). The first line with the id gets the quantity when it is
      positive; otherwise the cart is stored back unchanged. */
  function UpdateCart(s: Session, productId: Option<int>, quantity: Option<int>): (r: Reply)
    ensures r.outcome == Redirect("/cart")
    ensures r.session.user == s.user && r.session.cart.Some?
    ensures var c, c' := s.CartOrEmpty(), r.session.cart.value;
      && |c'| == |c|
      && (forall j :: 0 <= j < |c| ==> c'[j].product == c[j].product)
      && (UpdateApplies(productId, quantity) ==>
            forall i :: IsFirst(c, productId.value, i) ==>
              c' == c[i := c[i].(quantity := quantity.value)])
      && (!UpdateApplies(productId, quantity) ==> c' == c)
      && (productId.Some? && !HasLine(c, productId.value) ==> c' == c)
  {
    var c := s.CartOrEmpty();
    var c' := if UpdateApplies(productId, quantity)
      then SetQuantity(c, productId.value, quantity.value) else c;
    Reply(s.(cart := Some(c')), Redirect("/cart"))
  }

  /** POST /remove-from-cart/:id. Every line with the parsed id is
      filtered out; an id that parsed to NaN matches no line. */
  function RemoveFromCart(s: Session, productId: Option<int>): (r: Reply)
    ensures r.outcome == Redirect("/cart")
    ensures r.session.user == s.user && r.session.cart.Some?
    ensures var c, c' := s.CartOrEmpty(), r.session.cart.value;
      && |c'| <= |c|
      && (forall l :: l in c' <==> l in c && (productId.None? || l.Id() != productId.value))
      && (productId.Some? ==> !HasLine(c', productId.value))
      && (productId.None? || !HasLine(c, productId.value) ==> c' == c)
      && (productId.Some? ==> c' == Without(c, productId.value))
  {
    var c := s.CartOrEmpty();
    var c' := if productId.Some? then Without(c, productId.value) else c;
    assert productId.Some? ==> !HasLine(c', productId.value) by {
      if productId.Some? {
        forall j | 0 <= j < |c'| ensures c'[j].Id() != productId.value {
          assert c'[j] in c';
        }
      }
    }
    Reply(s.(cart := Some(c')), Redirect("/cart"))
  }

  /** POST /cart/clear: the cart becomes empty, whatever it held. */
  function ClearCart(s: Session): (r: Reply)
    ensures r.session.cart == Some([]) && r.session.user == s.user
    ensures r.outcome == Redirect("/cart")
  {
    Reply(s.(cart := Some([])), Redirect("/cart"))
  }

  /** POST /checkout: nothing is persisted; the cart is emptied and the
      order is reported as placed, unconditionally. */
  function PlaceOrder(s: Session): (r: Reply)
    ensures r.session == ClearCart(s).session
    ensures Subtotal(r.session.CartOrEmpty()) == 0.0
    ensures r.outcome == Redirect("/shopping")
  {
    Reply(s.(cart := Some([])), Redirect("/shopping"))
  }

  /** GET /checkout: the subtotal is accumulated line by line, front to
      back, as `forEach` does; tax is 8% of it and the total their sum. */
  method CheckoutTotals(s: Session) returns (t: Totals)
    ensures t.subtotal == Subtotal(s.CartOrEmpty())
    ensures t.tax == t.subtotal * TaxRate
    ensures t.total == t.subtotal + t.tax
    ensures |s.CartOrEmpty()| == 0 ==> t == Totals(0.0, 0.0, 0.0)
    ensures NonNegativeLines(s.CartOrEmpty()) ==> 0.0 <= t.subtotal <= t.total
  {
    var c := s.CartOrEmpty();
    var subtotal := 0.0;
    var i := 0;
    while i < |c|
      invariant 0 <= i <= |c|
      invariant subtotal == Subtotal(c[..i])
    {
      assert c[..i + 1][..i] == c[..i];
      subtotal := subtotal + c[i].product.price * (c[i].quantity as real);
      i := i + 1;
    }
    assert c[..|c|] == c;
    var tax := subtotal * TaxRate;
    t := Totals(subtotal, tax, subtotal + tax);
    if NonNegativeLines(c) {
      SubtotalNonNegative(c);
    }
  }

  /** Every cart route reads an absent cart exactly as an empty one. */
  lemma AbsentCartReadsAsEmpty(s: Session, productId: Option<int>, quantity: Option<int>)
    requires s.cart.None?
    ensures var e := s.(cart := Some([]));
      && ViewCart(s) == ViewCart(e) == []
      && UpdateCart(s, productId, quantity) == UpdateCart(e, productId, quantity)
      && RemoveFromCart(s, productId) == RemoveFromCart(e, productId)
      && Subtotal(s.CartOrEmpty()) == 0.0
  {
  }

  /** The route handlers keep the at-most-one-line-per-product invariant. */
  lemma CartRoutesKeepUniqueIds(s: Session, productId: Option<int>, quantity: Option<int>)
    requires UniqueIds(s.CartOrEmpty())
    ensures UniqueIds(UpdateCart(s, productId, quantity).session.cart.value)
    ensures UniqueIds(RemoveFromCart(s, productId).session.cart.value)
    ensures UniqueIds(ClearCart(s).session.cart.value)
    ensures UniqueIds(PlaceOrder(s).session.cart.value)
  {
    if UpdateApplies(productId, quantity) {
      SetQuantityKeepsUniqueIds(s.CartOrEmpty(), productId.value, quantity.value);
    }
    if productId.Some? {
      WithoutKeepsUniqueIds(s.CartOrEmpty(), productId.value);
    }
  }

  /** Update never stores a non-positive quantity, nor does removal, so
      these routes keep every quantity positive. */
  lemma CartRoutesKeepPositiveQuantities(s: Session, productId: Option<int>, quantity: Option<int>)
    requires PositiveQuantities(s.CartOrEmpty())
    ensures PositiveQuantities(UpdateCart(s, productId, quantity).session.cart.value)
    ensures PositiveQuantities(RemoveFromCart(s, productId).session.cart.value)
  {
    if productId.Some? {
      WithoutKeepsPositive(s.CartOrEmpty(), productId.value);
    }
  }

  /** With unique ids, removing a product that is in the cart deletes its
      one line, keeps the others in order, and takes exactly its amount
      off the subtotal. */
  lemma RemovePresentProduct(s: Session, id: int, i: int)
    requires UniqueIds(s.CartOrEmpty()) && IsFirst(s.CartOrEmpty(), id, i)
    ensures var c, c' := s.CartOrEmpty(), RemoveFromCart(s, Some(id)).session.cart.value;
      && |c'| == |c| - 1
      && c' == c[..i] + c[i + 1..]
      && Subtotal(c') == Subtotal(c) - c[i].Amount()
  {
    WithoutUniqueDropsOne(s.CartOrEmpty(), id);
    WithoutUniqueIsDeleteAt(s.CartOrEmpty(), id, i);
    SubtotalAfterWithout(s.CartOrEmpty(), id, i);
  }

  /** The worked example: 2 x 10.00 and 3 x 5.00 give 35.00, 2.80, 37.80. */
  lemma CheckoutExample(p1: Product, p2: Product)
    requires p1.id == 1 && p1.price == 10.0 && p2.id == 2 && p2.price == 5.0
    ensures var c := [CartLine(p1, 2), CartLine(p2, 3)];
      && Subtotal(c) == 35.0
      && Subtotal(c) * TaxRate == 2.8
      && Subtotal(c) + Subtotal(c) * TaxRate == 37.8
  {
    var c := [CartLine(p1, 2), CartLine(p2, 3)];
    assert c[..1] == [CartLine(p1, 2)];
    assert Subtotal(c[..1]) == 20.0 by { assert c[..1][..0] == []; }
    assert CartLine(p2, 3).Amount() == 15.0;
  }
}
