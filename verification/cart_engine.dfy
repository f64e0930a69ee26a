/** The session cart as a sequence of lines keyed by product id, and the
    checkout arithmetic over it. */
module CartEngine {
  import opened Outcomes
  import opened Entities
  import Search

  /** Line `i` is the first line of `c` whose id is `id`: the one `find` returns. */
  predicate IsFirst(c: Cart, id: int, i: int) {
    && 0 <= i < |c|
    && c[i].Id() == id
    && forall j :: 0 <= j < i ==> c[j].Id() != id
  }

  /** `cart.find(item => item.id === id)`, as an index. */
  function Find(c: Cart, id: int): (r: Option<nat>)
    ensures r.Some? ==> IsFirst(c, id, r.value)
    ensures r.None? <==> !HasLine(c, id)
  {
    Search.FirstIndex(c, (l: CartLine) => l.Id() == id)
  }

  /** Assigning to the `quantity` of the line `find` returned: that line
      alone gets quantity `q`, its snapshot and every other line stay. */
  function SetQuantity(c: Cart, id: int, q: int): (r: Cart)
    ensures |r| == |c|
    ensures forall j :: 0 <= j < |c| ==> r[j].product == c[j].product
    ensures forall i :: IsFirst(c, id, i) ==> r == c[i := c[i].(quantity := q)]
    ensures !HasLine(c, id) ==> r == c
  {
    match Find(c, id)
    case None => c
    case Some(i) => c[i := c[i].(quantity := q)]
  }

  /** In a cart with unique ids, every line with the id ends with
      quantity `q` and every line with another id is untouched. */
  lemma SetQuantityUnique(c: Cart, id: int, q: int)
    requires UniqueIds(c)
    ensures var r := SetQuantity(c, id, q);
      forall j :: 0 <= j < |c| ==>
        r[j] == (if c[j].Id() == id then c[j].(quantity := q) else c[j])
  {
    var r := SetQuantity(c, id, q);
    if HasLine(c, id) {
      var i := Find(c, id).value;
      forall j | 0 <= j < |c|
        ensures r[j] == (if c[j].Id() == id then c[j].(quantity := q) else c[j])
      {
        if c[j].Id() == id {
          assert j == i;
        }
      }
    }
  }

  /** `SetQuantity` keeps the ids, hence their uniqueness. */
  lemma SetQuantityKeepsUniqueIds(c: Cart, id: int, q: int)
    requires UniqueIds(c)
    ensures UniqueIds(SetQuantity(c, id, q))
  {
    var r := SetQuantity(c, id, q);
    assert forall j :: 0 <= j < |c| ==> r[j].Id() == c[j].Id();
  }

  /** `cart.filter(item => item.id !== id)`: every line with the id is
      dropped, every other line is kept. */
  function Without(c: Cart, id: int): (r: Cart)
    ensures |r| <= |c|
    ensures forall l :: l in r <==> l in c && l.Id() != id
    ensures !HasLine(c, id) ==> r == c
  {
    if |c| == 0 then []
    else
      assert !HasLine(c, id) ==> !HasLine(c[1..], id) by {
        if HasLine(c[1..], id) {
          var j :| 0 <= j < |c| - 1 && c[1..][j].Id() == id;
          assert c[j + 1].Id() == id;
        }
      }
      assert c == [c[0]] + c[1..];
      if c[0].Id() != id then [c[0]] + Without(c[1..], id)
      else Without(c[1..], id)
  }

  /** Removal keeps relative order: it distributes over concatenation. */
  lemma {:induction false} WithoutConcat(a: Cart, b: Cart, id: int)
    ensures Without(a + b, id) == Without(a, id) + Without(b, id)
  {
    if |a| == 0 {
      assert a + b == b;
    } else {
      assert (a + b)[1..] == a[1..] + b;
      WithoutConcat(a[1..], b, id);
    }
  }

  /** Removing an id that is present in a cart with unique ids drops
      exactly one line. */
  lemma {:induction false} WithoutUniqueDropsOne(c: Cart, id: int)
    requires UniqueIds(c)
    requires HasLine(c, id)
    ensures |Without(c, id)| == |c| - 1
  {
    if c[0].Id() == id {
      forall j | 0 <= j < |c| - 1 ensures c[1..][j].Id() != id {
        assert c[0].Id() != c[j + 1].Id();
      }
    } else {
      var j :| 0 <= j < |c| && c[j].Id() == id;
      assert c[1..][j - 1].Id() == id;
      assert UniqueIds(c[1..]) by {
        forall a, b | 0 <= a < b < |c| - 1 ensures c[1..][a].Id() != c[1..][b].Id() {
          assert c[a + 1].Id() != c[b + 1].Id();
        }
      }
      WithoutUniqueDropsOne(c[1..], id);
    }
  }

  /** Removal keeps ids unique. */
  lemma {:induction false} WithoutKeepsUniqueIds(c: Cart, id: int)
    requires UniqueIds(c)
    ensures UniqueIds(Without(c, id))
  {
    if |c| > 0 {
      var t := c[1..];
      assert UniqueIds(t) by {
        forall a, b | 0 <= a < b < |t| ensures t[a].Id() != t[b].Id() {
          assert c[a + 1].Id() != c[b + 1].Id();
        }
      }
      WithoutKeepsUniqueIds(t, id);
      if c[0].Id() != id {
        var w := Without(t, id);
        var r := [c[0]] + w;
        forall a, b | 0 <= a < b < |r| ensures r[a].Id() != r[b].Id() {
          if a == 0 {
            assert r[b] in t;
            var k :| 0 <= k < |t| && t[k] == r[b];
            assert c[0].Id() != c[k + 1].Id();
          } else {
            assert r[a] == w[a - 1] && r[b] == w[b - 1];
          }
        }
      }
    }
  }

  /** Setting a positive quantity keeps every quantity positive. */
  lemma SetQuantityKeepsPositive(c: Cart, id: int, q: int)
    requires PositiveQuantities(c) && q > 0
    ensures PositiveQuantities(SetQuantity(c, id, q))
  {
  }

  /** Removal keeps every quantity positive: it only drops lines. */
  lemma WithoutKeepsPositive(c: Cart, id: int)
    requires PositiveQuantities(c)
    ensures PositiveQuantities(Without(c, id))
  {
    var r := Without(c, id);
    forall j | 0 <= j < |r| ensures r[j].quantity > 0 {
      assert r[j] in c;
    }
  }

  /** The fixed sales tax rate: exactly 8/100. */
  const TaxRate: real := 0.08

  /** The figures the checkout page shows. */
  datatype Totals = Totals(subtotal: real, tax: real, total: real)

  /** Sum of price times quantity over the lines, accumulated front to back. */
  function Subtotal(c: Cart): real {
    if |c| == 0 then 0.0 else Subtotal(c[..|c| - 1]) + c[|c| - 1].Amount()
  }

  /** The subtotal of two carts put end to end is the sum of their subtotals. */
  lemma {:induction false} SubtotalAppend(a: Cart, b: Cart)
    ensures Subtotal(a + b) == Subtotal(a) + Subtotal(b)
  {
    if |b| > 0 {
      var b' := b[..|b| - 1];
      assert (a + b)[..|a + b| - 1] == a + b';
      SubtotalAppend(a, b');
    } else {
      assert a + b == a;
    }
  }

  /** Every line has a non-negative price and quantity. */
  predicate NonNegativeLines(c: Cart) {
    forall j :: 0 <= j < |c| ==> c[j].product.price >= 0.0 && c[j].quantity >= 0
  }

  lemma {:induction false} SubtotalNonNegative(c: Cart)
    requires NonNegativeLines(c)
    ensures Subtotal(c) >= 0.0
  {
    if |c| > 0 {
      var p := c[..|c| - 1];
      assert NonNegativeLines(p) by {
        forall j | 0 <= j < |p| ensures p[j].product.price >= 0.0 && p[j].quantity >= 0 {
          assert p[j] == c[j];
        }
      }
      SubtotalNonNegative(p);
      var l := c[|c| - 1];
      assert l.product.price * (l.quantity as real) >= 0.0;
    }
  }

  /** The subtotal of a cart split around one line. */
  lemma SubtotalSplice(a: Cart, x: CartLine, b: Cart)
    ensures Subtotal(a + [x] + b) == Subtotal(a) + x.Amount() + Subtotal(b)
  {
    SubtotalAppend(a + [x], b);
    SubtotalAppend(a, [x]);
    assert [x][..0] == [];
  }

  /** Replacing one line changes the subtotal by the difference of amounts. */
  lemma SubtotalReplace(c: Cart, i: int, y: CartLine)
    requires 0 <= i < |c|
    ensures Subtotal(c[i := y]) == Subtotal(c) - c[i].Amount() + y.Amount()
  {
    assert c == c[..i] + [c[i]] + c[i + 1..];
    assert c[i := y] == c[..i] + [y] + c[i + 1..];
    SubtotalSplice(c[..i], c[i], c[i + 1..]);
    SubtotalSplice(c[..i], y, c[i + 1..]);
  }

  /** A new quantity changes a line's amount by its price times the change. */
  lemma AmountDifference(x: CartLine, q: int)
    ensures x.(quantity := q).Amount() - x.Amount()
      == x.product.price * ((q - x.quantity) as real)
  {
    var pr, a, d := x.product.price, x.quantity as real, (q - x.quantity) as real;
    assert q as real == a + d;
    assert pr * (a + d) == pr * a + pr * d;
  }

  /** A total that moves by a line's change of amount moves by its price
      times the change of its quantity. */
  lemma ShiftByAmountChange(x: CartLine, q: int, before: real, after: real)
    requires after == before - x.Amount() + x.(quantity := q).Amount()
    ensures after == before + x.product.price * ((q - x.quantity) as real)
  {
    AmountDifference(x, q);
  }

  /** Giving line `i` quantity `q` moves the subtotal by its price times
      the change of its quantity. */
  lemma SubtotalRequantify(c: Cart, i: int, q: int)
    requires 0 <= i < |c|
    ensures Subtotal(c[i := c[i].(quantity := q)])
      == Subtotal(c) + c[i].product.price * ((q - c[i].quantity) as real)
  {
    var y := c[i].(quantity := q);
    SubtotalReplace(c, i, y);
    ShiftByAmountChange(c[i], q, Subtotal(c), Subtotal(c[i := y]));
  }

  /** Setting the quantity of the line for `id` moves the subtotal by the
      price of that line times the change of its quantity. */
  lemma SubtotalAfterSetQuantity(c: Cart, id: int, q: int, i: int)
    requires IsFirst(c, id, i)
    ensures Subtotal(SetQuantity(c, id, q))
      == Subtotal(c) + c[i].product.price * ((q - c[i].quantity) as real)
  {
    assert SetQuantity(c, id, q) == c[i := c[i].(quantity := q)];
    SubtotalRequantify(c, i, q);
  }

  /** In a cart with unique ids, filtering out a present id deletes just
      the line at its position, keeping the others in order: the filter
      agrees with removing the one line `find` would return. */
  lemma WithoutUniqueIsDeleteAt(c: Cart, id: int, i: int)
    requires UniqueIds(c) && IsFirst(c, id, i)
    ensures Without(c, id) == c[..i] + c[i + 1..]
  {
    var a, b := c[..i], c[i + 1..];
    assert c == a + [c[i]] + b;
    assert !HasLine(a, id);
    forall j | 0 <= j < |b| ensures b[j].Id() != id {
      assert c[i].Id() != c[i + 1 + j].Id();
    }
    WithoutConcat(a + [c[i]], b, id);
    WithoutConcat(a, [c[i]], id);
    assert Without([c[i]], id) == [] by {
      assert [c[i]][1..] == [];
    }
  }

  /** Removing the single line for `id` takes its amount off the subtotal. */
  lemma SubtotalAfterWithout(c: Cart, id: int, i: int)
    requires UniqueIds(c) && IsFirst(c, id, i)
    ensures Subtotal(Without(c, id)) == Subtotal(c) - c[i].Amount()
  {
    var a, b := c[..i], c[i + 1..];
    assert c == a + [c[i]] + b;
    WithoutUniqueIsDeleteAt(c, id, i);
    SubtotalSplice(a, c[i], b);
    SubtotalAppend(a, b);
  }
}
