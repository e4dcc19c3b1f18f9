/**
 The per-session store of the web request, reduced to the one key the cart
 uses: the cached number of cart rows shown in the page header.
 */
module Sessions {
  import opened Repository

  class Session {
    /** The integer under the shopping-cart key, or None when it is absent. */
    var cartCount: Option<int>

    constructor()
      ensures cartCount == None
    {
      cartCount := None;
    }

    /** `SetInt32(SessionShoppingCart, n)`. */
    method SetCartCount(n: int)
      modifies this
      ensures cartCount == Some(n)
    {
      cartCount := Some(n);
    }

    /** `Clear()`: removes every key, the cart count among them. */
    method Clear()
      modifies this
      ensures cartCount == None
    {
      cartCount := None;
    }
  }
}
