/**
 * CartController: the REST cart endpoints. Each one guards its request, then
 * works on the session cart through the cart service; any exception becomes
 * a 500 response. Error responses carry the endpoint's own error text.
 */
module CartEndpoints {
  import opened Wrappers
  import opened Text
  import opened Domain
  import opened CartLines
  import opened Cart
  import opened Stores
  import opened CartSessions

  class CartController {
    const service: CartService

    constructor (service: CartService)
      ensures this.service == service
    {
      this.service := service;
    }

    /** GET /api/cart: the session cart, created if need be. */
    method GetCart(session: Session) returns (r: Response<CartData>)
      modifies session`cart
      ensures session.cart.Some?
      ensures old(session.cart).Some? ==> session.cart == old(session.cart)
      ensures r == Ok(old(SessionCart(session, service.durable.rows)))
    {
      var cart := service.GetCartInSession(session);
      r := Ok(cart.Data());
    }

    /**
     * POST /api/cart/add. `quantity` is None when the request has no integer
     * under "quantity" (the cast then throws); `code` is None when "code" is
     * missing (the repository lookup then throws). Both failures, and an
     * unknown product, leave the session as it was and answer 500. On success
     * only the session user's durable copy is rewritten, when `saved` says
     * the service's save went through.
     */
    method AddToCart(session: Session, code: Option<string>, quantity: Option<int>, saved: bool)
      returns (r: Response<CartData>)
      requires service.products.Valid()
      modifies session`cart, session.CartObjects(), service.durable`rows
      ensures (quantity.None? || code.None? || code.value !in service.products.rows) ==>
        && r == ServerError("Failed to add to cart")
        && session.cart == old(session.cart) && unchanged(session.CartObjects())
        && service.durable.rows == old(service.durable.rows)
      ensures (quantity.Some? && code.Some? && code.value in service.products.rows) ==>
        && session.cart.Some?
        && var before := old(SessionCart(session, service.durable.rows));
           var info := InfoOf(service.products.rows[code.value]);
           var after := WithLines(before, AfterServiceAdd(before.lines, info, quantity.value));
           && session.cart.value.Data() == after
           && r == Ok(session.cart.value.Data())
           && service.durable.rows == (if session.userId.Some? && saved
                                       then old(service.durable.rows)[session.userId.value := Readable(after)]
                                       else old(service.durable.rows))
    {
      if quantity.None? || code.None? {
        return ServerError("Failed to add to cart");
      }
      var outcome := service.AddProductToCart(session, code.value, quantity.value, saved);
      if outcome.Fail? {
        return ServerError("Failed to add to cart");
      }
      var cart := service.GetCartInSession(session);
      r := Ok(cart.Data());
    }

    /**
     * POST /api/cart/update. A missing quantity answers 500 before the cart
     * is touched; a missing code matches no line, so the cart is returned
     * unchanged.
     */
    method UpdateCart(session: Session, code: Option<string>, quantity: Option<int>)
      returns (r: Response<CartData>)
      modifies session`cart, session.CartObjects()
      ensures quantity.None? ==>
        r == ServerError("Failed to update cart")
        && session.cart == old(session.cart) && unchanged(session.CartObjects())
      ensures quantity.Some? ==>
        && session.cart.Some?
        && var before := old(SessionCart(session, service.durable.rows));
           && session.cart.value.Data() ==
                (if code.Some? && HasCode(before.lines, code.value)
                 then WithLines(before, AfterUpdate(before.lines, code.value, quantity.value))
                 else before)
           && r == Ok(session.cart.value.Data())
    {
      if quantity.None? {
        return ServerError("Failed to update cart");
      }
      if code.Some? {
        service.UpdateProductQuantity(session, code.value, quantity.value);
      } else {
        var _ := service.GetCartInSession(session);
      }
      var cart := service.GetCartInSession(session);
      r := Ok(cart.Data());
    }

    /**
     * POST /api/cart/remove: a null or blank code answers 400 without
     * touching the session; an empty cart answers 400 "Cart is empty"; a code
     * not in the cart makes the service throw, answered with 500 and the cart
     * unchanged; otherwise the line is removed.
     */
    method RemoveFromCart(session: Session, code: Option<string>) returns (r: Response<CartData>)
      modifies session`cart, session.CartObjects()
      ensures IsNullOrBlank(code) ==>
        r == BadRequest("Product code is required")
        && session.cart == old(session.cart) && unchanged(session.CartObjects())
      ensures !IsNullOrBlank(code) ==>
        && session.cart.Some?
        && var before := old(SessionCart(session, service.durable.rows));
           if before.lines == [] then
             r == BadRequest("Cart is empty") && session.cart.value.Data() == before
           else if !HasCode(before.lines, code.value) then
             r == ServerError("Failed to remove from cart") && session.cart.value.Data() == before
           else
             && session.cart.value.Data() == WithLines(before, AfterRemove(before.lines, code.value))
             && r == Ok(session.cart.value.Data())
    {
      if IsNullOrBlank(code) {
        return BadRequest("Product code is required");
      }
      var cart := service.GetCartInSession(session);
      if cart.IsEmpty() {
        return BadRequest("Cart is empty");
      }
      var outcome := service.RemoveProduct(session, code);
      if outcome.Fail? {
        return ServerError("Failed to remove from cart");
      }
      cart := service.GetCartInSession(session);
      r := Ok(cart.Data());
    }

    /**
     * DELETE /api/cart: unbind the session cart and delete only the session
     * user's durable copy; the next cart is empty.
     */
    method ClearCart(session: Session) returns (r: Response<string>)
      modifies session`cart, service.durable`rows
      ensures r == Ok("Cart cleared successfully")
      ensures session.cart.None? && SessionCart(session, service.durable.rows) == EmptyCart
      ensures service.durable.rows == if session.userId.Some? then old(service.durable.rows) - {session.userId.value}
                                      else old(service.durable.rows)
    {
      service.RemoveCartInSession(session);
      r := Ok("Cart cleared successfully");
    }

    /**
     * POST /api/cart/checkout: a cart with no lines answers 400 and stays
     * bound; otherwise the cart is cleared (no order is recorded).
     */
    method Checkout(session: Session) returns (r: Response<string>)
      modifies session`cart, service.durable`rows
      ensures var before := old(SessionCart(session, service.durable.rows));
        if before.lines == [] then
          r == BadRequest("Cart is empty") && session.cart.Some? && session.cart.value.Data() == before
          && service.durable.rows == old(service.durable.rows)
        else
          r == Ok("Checkout successful") && session.cart.None?
          && service.durable.rows == (if session.userId.Some? then old(service.durable.rows) - {session.userId.value}
                                      else old(service.durable.rows))
    {
      var cart := service.GetCartInSession(session);
      if cart.lines == [] {
        return BadRequest("Cart is empty");
      }
      service.RemoveCartInSession(session);
      r := Ok("Checkout successful");
    }
  }
}
