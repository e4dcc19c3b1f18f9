/**
 The customer home controller's product details: the GET builds a fresh cart
 entry for one product, and the POST adds it to the caller's cart, either as
 a new row or by incrementing the row the caller already has for that
 product, then refreshes the session's cart count.
 */
module Cart {
  import opened Repository
  import opened Sessions

  /** A row of the shopping cart table (the product navigation property is
      not modelled). The empty user id stands for the unset user id of an
      entry that has not been posted yet. */
  datatype ShoppingCart = ShoppingCart(applicationUserId: string, productId: int, count: int)

  function OwnedBy(userId: string): ShoppingCart -> bool
  {
    (c: ShoppingCart) => c.applicationUserId == userId
  }

  function SamePair(userId: string, productId: int): ShoppingCart -> bool
  {
    (c: ShoppingCart) => c.applicationUserId == userId && c.productId == productId
  }

  /** At most one row per (user, product) pair. */
  ghost predicate UniquePairs(rows: seq<ShoppingCart>)
  {
    forall i, j :: 0 <= i < j < |rows| ==>
      rows[i].applicationUserId != rows[j].applicationUserId || rows[i].productId != rows[j].productId
  }

  /** The number of rows `GetAll(u => u.ApplicationUserId == userId)` returns. */
  function CountRows(rows: seq<ShoppingCart>, userId: string): (n: nat)
    ensures n <= |rows|
    ensures n == 0 <==> forall k :: 0 <= k < |rows| ==> rows[k].applicationUserId != userId
  {
    var r := Where(rows, OwnedBy(userId));
    SubsequenceLength(r, rows);
    assert r != [] ==> r[0] in rows && OwnedBy(userId)(r[0]);
    assert forall k :: 0 <= k < |rows| && OwnedBy(userId)(rows[k]) ==> rows[k] in r;
    |r|
  }

  ghost function ProductsOf(rows: seq<ShoppingCart>, userId: string): set<int>
  {
    set c | c in rows && c.applicationUserId == userId :: c.productId
  }

  lemma ProductsOfCons(x: ShoppingCart, rest: seq<ShoppingCart>, userId: string)
    ensures ProductsOf([x] + rest, userId) ==
      (if x.applicationUserId == userId then {x.productId} else {}) + ProductsOf(rest, userId)
  {
    var rows := [x] + rest;
    forall c | c in rows ensures c == x || c in rest { }
  }

  lemma UniquePairsTail(x: ShoppingCart, rest: seq<ShoppingCart>)
    requires UniquePairs([x] + rest)
    ensures UniquePairs(rest)
    ensures forall c :: c in rest ==> c.applicationUserId != x.applicationUserId || c.productId != x.productId
  {
    var rows := [x] + rest;
    forall i, j | 0 <= i < j < |rest|
      ensures rest[i].applicationUserId != rest[j].applicationUserId || rest[i].productId != rest[j].productId
    {
      assert rest[i] == rows[i + 1] && rest[j] == rows[j + 1];
    }
    forall c | c in rest
      ensures c.applicationUserId != x.applicationUserId || c.productId != x.productId
    {
      var j :| 0 <= j < |rest| && rest[j] == c;
      assert rows[j + 1] == c && rows[0] == x;
    }
  }

  /** In a table with one row per pair, a user's row count is the number of
      distinct products in that user's cart (not the sum of their counts). */
  lemma {:induction false} CountRowsIsDistinctProducts(rows: seq<ShoppingCart>, userId: string)
    requires UniquePairs(rows)
    ensures CountRows(rows, userId) == |ProductsOf(rows, userId)|
    decreases |rows|
  {
    if rows == [] {
      assert ProductsOf(rows, userId) == {};
    } else {
      var x, rest := rows[0], rows[1..];
      assert rows == [x] + rest;
      UniquePairsTail(x, rest);
      CountRowsIsDistinctProducts(rest, userId);
      WhereCons(x, rest, OwnedBy(userId));
      ProductsOfCons(x, rest, userId);
    }
  }

  /** GET `Details(productId)`: a one-copy entry for the requested product. */
  function NewCartEntry(productId: int): ShoppingCart
  {
    ShoppingCart("", productId, 1)
  }

  /** The cart table after POST `Details(shoppingCart)` by `userId`: a caller
      without a row for the product gets one, stamped with the caller's id
      whatever id was posted; a caller with one has its count raised by the
      posted count; no other row changes, and a table with one row per pair
      keeps that property. */
  function AddOrIncrement(rows: seq<ShoppingCart>, userId: string, shoppingCart: ShoppingCart)
    : (r: seq<ShoppingCart>)
    ensures |rows| <= |r|
    ensures forall k :: 0 <= k < |rows| && !SamePair(userId, shoppingCart.productId)(rows[k]) ==>
      r[k] == rows[k]
    ensures (forall k :: 0 <= k < |rows| ==> !SamePair(userId, shoppingCart.productId)(rows[k])) ==>
      r == rows + [ShoppingCart(userId, shoppingCart.productId, shoppingCart.count)]
    ensures UniquePairs(rows) ==>
      forall k :: 0 <= k < |rows| && SamePair(userId, shoppingCart.productId)(rows[k]) ==>
        r == rows[k := ShoppingCart(userId, shoppingCart.productId, rows[k].count + shoppingCart.count)]
    ensures UniquePairs(rows) ==> UniquePairs(r)
  {
    match FirstWhere(rows, SamePair(userId, shoppingCart.productId))
    case None => rows + [shoppingCart.(applicationUserId := userId)]
    case Some(i) => rows[i := rows[i].(count := rows[i].count + shoppingCart.count)]
  }

  /** The caller's row count after the POST grows by one exactly when a row was
      inserted; every other user's count stays as it was. */
  lemma AddOrIncrementCounts(rows: seq<ShoppingCart>, userId: string, shoppingCart: ShoppingCart,
                             other: string)
    ensures CountRows(AddOrIncrement(rows, userId, shoppingCart), userId) ==
      CountRows(rows, userId) +
      (if FirstWhere(rows, SamePair(userId, shoppingCart.productId)).None? then 1 else 0)
    ensures other != userId ==>
      CountRows(AddOrIncrement(rows, userId, shoppingCart), other) == CountRows(rows, other)
  {
    var r := AddOrIncrement(rows, userId, shoppingCart);
    var found := FirstWhere(rows, SamePair(userId, shoppingCart.productId));
    if found.None? {
      var x := shoppingCart.(applicationUserId := userId);
      assert r == rows + [x];
      WhereAppend(rows, x, OwnedBy(userId));
      WhereAppend(rows, x, OwnedBy(other));
    } else {
      var i := found.value;
      var y := rows[i].(count := rows[i].count + shoppingCart.count);
      assert r == rows[i := y];
      assert OwnedBy(userId)(y) == OwnedBy(userId)(rows[i]);
      assert OwnedBy(other)(y) == OwnedBy(other)(rows[i]);
      WhereUpdateLength(rows, i, y, OwnedBy(userId));
      WhereUpdateLength(rows, i, y, OwnedBy(other));
    }
  }

  /** Posting the entry the GET built inserts a one-copy row for a new
      product and adds one to the count of an existing row. */
  lemma NewEntryThenAdd(rows: seq<ShoppingCart>, userId: string, productId: int)
    requires UniquePairs(rows)
    ensures var r := AddOrIncrement(rows, userId, NewCartEntry(productId));
      ((forall k :: 0 <= k < |rows| ==> !SamePair(userId, productId)(rows[k])) ==>
        r == rows + [ShoppingCart(userId, productId, 1)]) &&
      (forall k :: 0 <= k < |rows| && SamePair(userId, productId)(rows[k]) ==>
        r == rows[k := ShoppingCart(userId, productId, rows[k].count + 1)])
  {
  }

  /** Adding one product twice, starting from no row for it, leaves a single
      row for the pair whose count is the sum of both posted counts. */
  lemma AddTwiceIncrements(rows: seq<ShoppingCart>, userId: string, first: ShoppingCart,
                           second: ShoppingCart)
    requires first.productId == second.productId
    requires forall k :: 0 <= k < |rows| ==> !SamePair(userId, first.productId)(rows[k])
    ensures var r := AddOrIncrement(AddOrIncrement(rows, userId, first), userId, second);
      |r| == |rows| + 1 && r[..|rows|] == rows &&
      r[|rows|] == ShoppingCart(userId, first.productId, first.count + second.count)
  {
    var once := AddOrIncrement(rows, userId, first);
    assert once == rows + [ShoppingCart(userId, first.productId, first.count)];
    var found := FirstWhere(once, SamePair(userId, second.productId));
    assert SamePair(userId, second.productId)(once[|rows|]);
    assert found == Some(|rows|) by {
      forall k | 0 <= k < |rows| ensures !SamePair(userId, second.productId)(once[k]) {
        assert once[k] == rows[k];
      }
    }
  }

  /** The cart repository (with `Save()` taken as immediate). */
  class CartRepository {
    var rows: seq<ShoppingCart>

    constructor(rows: seq<ShoppingCart>)
      ensures this.rows == rows
    {
      this.rows := rows;
    }

    /** `Add(cart)`: a new row at the end of the table. */
    method Add(cart: ShoppingCart)
      modifies this
      ensures rows == old(rows) + [cart]
    {
      rows := rows + [cart];
    }

    /** `IncrementCount(row, n)`: adds `n` to the count of row `i`. */
    method IncrementCount(i: nat, n: int)
      requires i < |rows|
      modifies this
      ensures rows == old(rows)[i := old(rows)[i].(count := old(rows)[i].count + n)]
    {
      rows := rows[i := rows[i].(count := rows[i].count + n)];
    }
  }

  class HomeController {
    const carts: CartRepository

    constructor(carts: CartRepository)
      ensures this.carts == carts
    {
      this.carts := carts;
    }

    /** POST `Details(shoppingCart)` by the signed-in user `userId`. */
    method AddToCart(userId: string, shoppingCart: ShoppingCart, session: Session)
      modifies carts, session
      ensures carts.rows == AddOrIncrement(old(carts.rows), userId, shoppingCart)
      ensures session.cartCount == Some(CountRows(carts.rows, userId))
      ensures UniquePairs(old(carts.rows)) ==> UniquePairs(carts.rows)
    {
      var stamped := shoppingCart.(applicationUserId := userId);
      var fromDb := FirstWhere(carts.rows, SamePair(userId, stamped.productId));
      if fromDb.None? {
        carts.Add(stamped);
      } else {
        carts.IncrementCount(fromDb.value, stamped.count);
      }
      session.SetCartCount(CountRows(carts.rows, userId));
    }
  }
}
