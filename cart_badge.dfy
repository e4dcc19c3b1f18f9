/**
 The shopping-cart view component that renders the cart count in the page
 header. It serves the count from the session when one is cached, fills the
 cache from the cart table when none is, and clears the session when nobody
 is signed in.
 */
module CartBadge {
  import opened Repository
  import opened Sessions
  import opened Cart

  class ShoppingCartViewComponent {
    const carts: CartRepository

    constructor(carts: CartRepository)
      ensures this.carts == carts
    {
      this.carts := carts;
    }

    /** `InvokeAsync()`: `userId` is the signed-in user's id claim, None for an
        anonymous request; the result is the number the view shows. */
    method InvokeAsync(userId: Option<string>, session: Session) returns (shown: int)
      modifies session
      ensures userId.None? ==> session.cartCount == None && shown == 0
      ensures userId.Some? && old(session.cartCount).Some? ==>
        shown == old(session.cartCount).value && session.cartCount == old(session.cartCount)
      ensures userId.Some? && old(session.cartCount).None? ==>
        shown == CountRows(carts.rows, userId.value) && session.cartCount == Some(shown)
      ensures userId.Some? ==> session.cartCount == Some(shown)
    {
      if userId.Some? {
        if session.cartCount.Some? {
          shown := session.cartCount.value;
        } else {
          session.SetCartCount(CountRows(carts.rows, userId.value));
          shown := session.cartCount.value;
        }
      } else {
        session.Clear();
        shown := 0;
      }
    }
  }

  /** A product added to the cart and the header rendered next, in one
      session and for the same user: the header shows how many distinct
      products the user's cart holds. */
  method AddThenRender(home: HomeController, badge: ShoppingCartViewComponent,
                       userId: string, shoppingCart: ShoppingCart, session: Session)
    returns (shown: int)
    requires home.carts == badge.carts && UniquePairs(home.carts.rows)
    modifies home.carts, session
    ensures home.carts.rows == AddOrIncrement(old(home.carts.rows), userId, shoppingCart)
    ensures UniquePairs(home.carts.rows)
    ensures session.cartCount == Some(shown)
    ensures shown == |ProductsOf(home.carts.rows, userId)|
  {
    home.AddToCart(userId, shoppingCart, session);
    shown := badge.InvokeAsync(Some(userId), session);
    CountRowsIsDistinctProducts(home.carts.rows, userId);
  }
}
