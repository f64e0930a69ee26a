/** The records the handlers work on: catalog products, cart lines,
    users and the per-session state. */
module Entities {
  import opened Outcomes

  /** A row of the `products` table. */
  datatype Product = Product(
    id: int,
    productName: string,
    price: real,
    stock: int,
    image: Option<string>,
    category: string)

  /** A cart entry: a copy of the product row taken when it was first
      added, plus the quantity the shopper asked for. */
  datatype CartLine = CartLine(product: Product, quantity: int) {

    /** The key of the line inside a cart. */
    function Id(): int {
      product.id
    }

    /** What the line contributes to the subtotal. */
    function Amount(): real {
      product.price * (quantity as real)
    }
  }

  type Cart = seq<CartLine>

  /** A row of the `users` table, as copied into the session at login.
      Address and contact may be absent: a profile update copies them
      from the form even when the browser did not send them. */
  datatype User = User(
    id: int,
    username: string,
    email: string,
    password: string,
    address: Option<string>,
    contact: Option<string>,
    role: string)

  /** The session: an optional logged-in user and an optional cart
      (the cart is absent until the first handler stores one). */
  datatype Session = Session(user: Option<User>, cart: Option<Cart>) {

    /** The cart every reader uses: an absent cart reads as empty. */
    function CartOrEmpty(): Cart {
      cart.GetOr([])
    }
  }

  /** The session a handler leaves behind and what it answers. */
  datatype Reply = Reply(session: Session, outcome: Outcome)

  /** No two lines of the cart share a product id. */
  predicate UniqueIds(c: Cart) {
    forall i, j :: 0 <= i < j < |c| ==> c[i].Id() != c[j].Id()
  }

  /** Some line of the cart has product id `id`. */
  predicate HasLine(c: Cart, id: int) {
    exists j :: 0 <= j < |c| && c[j].Id() == id
  }

  /** Every line has a positive quantity. */
  predicate PositiveQuantities(c: Cart) {
    forall j :: 0 <= j < |c| ==> c[j].quantity > 0
  }
}
