/**
 * CartService: binds one cart to each HTTP session, reloads a user's durable
 * copy when a session has no cart yet, and offers its own cart mutators, which
 * refresh the stored totals and (for additions) the durable copy.
 */
module CartSessions {
  import opened Wrappers
  import opened Text
  import opened Domain
  import opened CartLines
  import opened Cart
  import opened Stores

  /**
   * The attributes of one HTTP session that the shop uses: "myCart",
   * "userId" (nothing in the core sets it) and "lastOrderedCart".
   */
  class Session {
    var cart: Option<CartInfo>
    var userId: Option<UserId>
    var lastOrdered: Option<CartInfo>

    constructor (userId: Option<UserId>)
      ensures cart.None? && lastOrdered.None? && this.userId == userId
    {
      cart := None;
      this.userId := userId;
      lastOrdered := None;
    }

    /** The cart object bound to the session, if any. */
    function CartObjects(): set<object>
      reads this
    {
      if cart.Some? then {cart.value} else {}
    }
  }

  /**
   * loadCartFromPersistentStorage: the user's stored cart, or None when there
   * is no row or its data does not deserialise.
   */
  function LoadCart(rows: map<UserId, StoredCart>, userId: UserId): (r: Option<CartData>)
    ensures r.Some? <==> userId in rows && rows[userId].Readable?
  {
    if userId in rows && rows[userId].Readable? then Some(rows[userId].data) else None
  }

  /** The cart a session without one gets: the durable copy if the session has a user and it loads, else an empty cart. */
  function Restored(rows: map<UserId, StoredCart>, userId: Option<UserId>): CartData {
    if userId.Some? && LoadCart(rows, userId.value).Some? then LoadCart(rows, userId.value).value else EmptyCart
  }

  /** The cart getCartInSession yields for this session: the bound one, or the one it would bind. */
  function SessionCart(session: Session, rows: map<UserId, StoredCart>): CartData
    reads session, session.CartObjects()
  {
    if session.cart.Some? then session.cart.value.Data() else Restored(rows, session.userId)
  }

  /** A cart after a service edit of its lines: the totals are refreshed, the rest is kept. */
  function WithLines(d: CartData, lines: seq<CartLine>): (r: CartData)
    ensures r.lines == lines && r.orderNum == d.orderNum && r.customerInfo == d.customerInfo
    ensures r.totalQuantity == TotalQuantity(lines) && r.totalAmount == TotalAmount(lines)
  {
    d.(lines := lines, totalAmount := TotalAmount(lines), totalQuantity := TotalQuantity(lines))
  }

  class CartService {
    const products: ProductRepository
    const durable: PersistentCartRepository

    constructor (products: ProductRepository, durable: PersistentCartRepository)
      ensures this.products == products && this.durable == durable
    {
      this.products := products;
      this.durable := durable;
    }

    /**
     * getCartInSession: get-or-create. A bound cart is returned as it is;
     * otherwise the restored or a fresh empty cart is bound and returned.
     */
    method GetCartInSession(session: Session) returns (cart: CartInfo)
      modifies session`cart
      ensures session.cart == Some(cart)
      ensures old(session.cart).Some? ==> cart == old(session.cart.value)
      ensures old(session.cart).None? ==> fresh(cart)
      ensures cart.Data() == old(SessionCart(session, durable.rows))
    {
      if session.cart.Some? {
        cart := session.cart.value;
      } else {
        var loaded: Option<CartData> := None;
        if session.userId.Some? {
          loaded := LoadCart(durable.rows, session.userId.value);
        }
        if loaded.Some? {
          cart := new CartInfo.FromData(loaded.value);
        } else {
          cart := new CartInfo();
        }
        session.cart := Some(cart);
      }
    }

    /**
     * saveCartToPersistentStorage: upsert the user's row. `saved` says whether
     * serialisation and the repository save succeed; a failure is swallowed.
     */
    method SaveCartToPersistentStorage(userId: UserId, cart: CartInfo, saved: bool)
      modifies durable`rows
      ensures durable.rows == if saved then old(durable.rows)[userId := Readable(cart.Data())] else old(durable.rows)
    {
      if saved {
        durable.rows := durable.rows[userId := Readable(cart.Data())];
      }
    }

    /** removeCartInSession: delete the user's durable copy, then unbind the session cart. */
    method RemoveCartInSession(session: Session)
      modifies session`cart, durable`rows
      ensures session.cart.None?
      ensures durable.rows == if session.userId.Some? then old(durable.rows) - {session.userId.value} else old(durable.rows)
      ensures SessionCart(session, durable.rows) == EmptyCart
    {
      if session.userId.Some? {
        durable.rows := durable.rows - {session.userId.value};
      }
      session.cart := None;
    }

    /** storeLastOrderedCartInSession. */
    method StoreLastOrderedCartInSession(session: Session, cart: CartInfo)
      modifies session`lastOrdered
      ensures session.lastOrdered == Some(cart)
    {
      session.lastOrdered := Some(cart);
    }

    /** getLastOrderedCartInSession: the cart stored last, or None. */
    function GetLastOrderedCartInSession(session: Session): Option<CartInfo>
      reads session
    {
      session.lastOrdered
    }

    /** updateCartTotals: recompute both stored totals from the lines. */
    method UpdateCartTotals(cart: CartInfo)
      modifies cart`totalAmount, cart`totalQuantity
      ensures cart.totalAmount == TotalAmount(cart.lines)
      ensures cart.totalQuantity == TotalQuantity(cart.lines)
    {
      var total := 0;
      var quantity := 0;
      var k := 0;
      while k < |cart.lines|
        invariant 0 <= k <= |cart.lines|
        invariant total == TotalAmount(cart.lines[..k])
        invariant quantity == TotalQuantity(cart.lines[..k])
      {
        assert cart.lines[..k + 1][..k] == cart.lines[..k];
        total := total + Amount(cart.lines[k]);
        quantity := quantity + cart.lines[k].quantity;
        k := k + 1;
      }
      assert cart.lines[..k] == cart.lines;
      cart.totalAmount := total;
      cart.totalQuantity := quantity;
    }

    /** findLineByCode of the service (a stream's findFirst). */
    method FindLine(cart: CartInfo, code: string) returns (i: int)
      ensures i == IndexOf(cart.lines, code)
      ensures i >= 0 <==> HasCode(cart.lines, code)
    {
      i := cart.FindLineByCode(code);
    }

    /** The cart edit of addProductToCart: append or add the delta, then refresh the totals. */
    method AddToLines(cart: CartInfo, info: ProductInfo, quantity: int)
      modifies cart`lines, cart`totalAmount, cart`totalQuantity
      ensures cart.Data() == WithLines(old(cart.Data()), AfterServiceAdd(old(cart.lines), info, quantity))
    {
      var i := FindLine(cart, info.code);
      if i < 0 {
        cart.lines := cart.lines + [CartLine(info, quantity)];
      } else {
        cart.lines := cart.lines[i := cart.lines[i].(quantity := cart.lines[i].quantity + quantity)];
      }
      UpdateCartTotals(cart);
    }

    /**
     * addProductToCart. An unknown code throws before the cart is even
     * fetched. Otherwise the line is appended or gets the delta (never
     * removed), the totals are refreshed and, for a session with a user, the
     * durable copy is saved.
     */
    method AddProductToCart(session: Session, code: string, quantity: int, saved: bool) returns (result: Outcome<Error>)
      requires products.Valid()
      modifies session`cart, session.CartObjects(), durable`rows
      ensures code !in products.rows ==>
        && result == Fail(Runtime("Product not found: " + code))
        && session.cart == old(session.cart) && unchanged(session.CartObjects()) && durable.rows == old(durable.rows)
      ensures code in products.rows ==>
        && result == Pass
        && session.cart.Some?
        && (old(session.cart).Some? ==> session.cart == old(session.cart))
        && var before := old(SessionCart(session, durable.rows));
           var after := WithLines(before, AfterServiceAdd(before.lines, InfoOf(products.rows[code]), quantity));
           && session.cart.value.Data() == after
           && durable.rows == (if session.userId.Some? && saved
                               then old(durable.rows)[session.userId.value := Readable(after)]
                               else old(durable.rows))
    {
      if code !in products.rows {
        return Fail(Runtime("Product not found: " + code));
      }
      ghost var before := SessionCart(session, durable.rows);
      var cart := GetCartInSession(session);
      AddToLines(cart, InfoOf(products.rows[code]), quantity);
      assert cart.Data() == WithLines(before, AfterServiceAdd(before.lines, InfoOf(products.rows[code]), quantity));
      if session.userId.Some? {
        SaveCartToPersistentStorage(session.userId.value, cart, saved);
      }
      result := Pass;
    }

    /**
     * updateProductQuantity: only a code that has a line does anything; then
     * <= 0 removes the line, otherwise the quantity is set, and the totals
     * are refreshed. The durable copy is not touched.
     */
    method UpdateProductQuantity(session: Session, code: string, quantity: int)
      modifies session`cart, session.CartObjects()
      ensures session.cart.Some?
      ensures old(session.cart).Some? ==> session.cart == old(session.cart)
      ensures var before := old(SessionCart(session, durable.rows));
        session.cart.value.Data() ==
          if HasCode(before.lines, code) then WithLines(before, AfterUpdate(before.lines, code, quantity)) else before
    {
      var cart := GetCartInSession(session);
      var i := FindLine(cart, code);
      if i >= 0 {
        if quantity <= 0 {
          cart.lines := cart.lines[..i] + cart.lines[i + 1..];
        } else {
          cart.lines := cart.lines[i := cart.lines[i].(quantity := quantity)];
        }
        UpdateCartTotals(cart);
      }
    }

    /**
     * removeProduct: strict. A null or blank code throws before the cart is
     * fetched; a code without a line throws; only otherwise is the line
     * removed and the totals refreshed. The durable copy is not touched.
     */
    method RemoveProduct(session: Session, code: Option<string>) returns (result: Outcome<Error>)
      modifies session`cart, session.CartObjects()
      ensures IsNullOrBlank(code) ==>
        result == Fail(IllegalArgument("Product code cannot be null or empty"))
        && session.cart == old(session.cart) && unchanged(session.CartObjects())
      ensures !IsNullOrBlank(code) ==>
        && session.cart.Some?
        && (old(session.cart).Some? ==> session.cart == old(session.cart))
        && var before := old(SessionCart(session, durable.rows));
           if HasCode(before.lines, code.value) then
             result == Pass && session.cart.value.Data() == WithLines(before, AfterRemove(before.lines, code.value))
           else
             result == Fail(IllegalArgument("Product not found in cart: " + code.value))
             && session.cart.value.Data() == before
    {
      if IsNullOrBlank(code) {
        return Fail(IllegalArgument("Product code cannot be null or empty"));
      }
      ghost var before := SessionCart(session, durable.rows);
      var cart := GetCartInSession(session);
      assert cart.Data() == before;
      var i := FindLine(cart, code.value);
      if i < 0 {
        return Fail(IllegalArgument("Product not found in cart: " + code.value));
      }
      cart.lines := cart.lines[..i] + cart.lines[i + 1..];
      UpdateCartTotals(cart);
      result := Pass;
    }
  }
}
