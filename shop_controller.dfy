/**
 * MainController: the server-rendered shop. Its cart handlers edit the
 * session cart directly through CartInfo (so the stored totals are not
 * refreshed and nothing is written to the durable copy); its checkout takes
 * the customer, confirms, stores an order and keeps the ordered cart for the
 * final page.
 */
module Shop {
  import opened Wrappers
  import opened Domain
  import opened CartLines
  import opened Cart
  import opened Stores
  import opened CartSessions
  import opened Orders

  const CART_PAGE: string := "/shoppingCart"
  const CUSTOMER_PAGE: string := "/shoppingCartCustomer"
  const CONFIRMATION_VIEW: string := "shoppingCartConfirmation"

  /**
   * The guard both confirmation handlers apply, in this order: an empty cart
   * goes back to the cart page, a cart without a valid customer to the
   * customer form; None lets the handler go on.
   */
  function ConfirmationGuard(d: CartData): (r: Option<View>)
    ensures d.lines == [] <==> r == Some(Redirect(CART_PAGE))
    ensures r == Some(Redirect(CUSTOMER_PAGE)) <==>
      d.lines != [] && !(d.customerInfo.Some? && d.customerInfo.value.valid)
    ensures r.None? <==> d.lines != [] && d.customerInfo.Some? && d.customerInfo.value.valid
  {
    if d.lines == [] then Some(Redirect(CART_PAGE))
    else if !(d.customerInfo.Some? && d.customerInfo.value.valid) then Some(Redirect(CUSTOMER_PAGE))
    else None
  }

  /**
   * The checkout numbers its order with the cart's orderNum rather than
   * allocating one; a cart nobody numbered carries 0, so two such checkouts
   * store orders with the same number.
   */
  lemma UnnumberedCheckoutsCollide(now1: Timestamp, c1: CustomerInfo, lines1: seq<CartLine>,
                                   now2: Timestamp, c2: CustomerInfo, lines2: seq<CartLine>)
    ensures EmptyCart.orderNum == 0
    ensures !UniqueOrderNums([OrderFrom(EmptyCart.orderNum, now1, c1, lines1), OrderFrom(EmptyCart.orderNum, now2, c2, lines2)])
  {
    var orders := [OrderFrom(EmptyCart.orderNum, now1, c1, lines1), OrderFrom(EmptyCart.orderNum, now2, c2, lines2)];
    assert orders[0].orderNum == orders[1].orderNum;
  }

  class MainController {
    const orders: OrderRepository
    const products: ProductRepository
    const carts: CartService

    constructor (orders: OrderRepository, products: ProductRepository, carts: CartService)
      ensures this.orders == orders && this.products == products && this.carts == carts
    {
      this.orders := orders;
      this.products := products;
      this.carts := carts;
    }

    /**
     * /buyProduct: an empty or unknown code changes nothing; a known product
     * is added to the session cart once.
     */
    method BuyProduct(session: Session, code: string) returns (v: View)
      modifies session`cart, session.CartObjects()
      ensures v == Redirect(CART_PAGE)
      ensures (code == "" || code !in products.rows) ==>
        session.cart == old(session.cart) && unchanged(session.CartObjects())
      ensures code != "" && code in products.rows ==>
        && session.cart.Some?
        && (old(session.cart).Some? ==> session.cart == old(session.cart))
        && var before := old(SessionCart(session, carts.durable.rows));
           session.cart.value.Data() == before.(lines := AfterAdd(before.lines, InfoOf(products.rows[code]), 1))
    {
      if code != "" && code in products.rows {
        var info := InfoOf(products.rows[code]);
        var cart := carts.GetCartInSession(session);
        cart.AddProduct(info, 1);
      }
      v := Redirect(CART_PAGE);
    }

    /**
     * /shoppingCartRemoveProduct: lenient. An empty or unknown code changes
     * nothing; a known product loses its line if the cart has one.
     */
    method RemoveProductHandler(session: Session, code: string) returns (v: View)
      modifies session`cart, session.CartObjects()
      ensures v == Redirect(CART_PAGE)
      ensures (code == "" || code !in products.rows) ==>
        session.cart == old(session.cart) && unchanged(session.CartObjects())
      ensures code != "" && code in products.rows ==>
        && session.cart.Some?
        && (old(session.cart).Some? ==> session.cart == old(session.cart))
        && var before := old(SessionCart(session, carts.durable.rows));
           session.cart.value.Data() == before.(lines := AfterRemove(before.lines, products.rows[code].code))
    {
      if code != "" && code in products.rows {
        var info := InfoOf(products.rows[code]);
        var cart := carts.GetCartInSession(session);
        cart.RemoveProduct(info);
      }
      v := Redirect(CART_PAGE);
    }

    /** POST /shoppingCart: the submitted cart form updates the session cart's quantities. */
    method ShoppingCartUpdateQty(session: Session, form: Option<seq<Option<FormLine>>>) returns (v: View)
      modifies session`cart, session.CartObjects()
      ensures v == Redirect(CART_PAGE)
      ensures session.cart.Some?
      ensures old(session.cart).Some? ==> session.cart == old(session.cart)
      ensures var before := old(SessionCart(session, carts.durable.rows));
        session.cart.value.Data() == before.(lines := AfterUpdateQuantity(before.lines, form))
    {
      var cart := carts.GetCartInSession(session);
      cart.UpdateQuantity(form);
      v := Redirect(CART_PAGE);
    }

    /** GET /shoppingCart: the cart page, with the session cart as its form. */
    method ShoppingCartHandler(session: Session) returns (v: View, cartForm: CartData)
      modifies session`cart
      ensures v == Render("shoppingCart")
      ensures session.cart.Some? && cartForm == session.cart.value.Data()
      ensures cartForm == old(SessionCart(session, carts.durable.rows))
    {
      var cart := carts.GetCartInSession(session);
      v := Render("shoppingCart");
      cartForm := cart.Data();
    }

    /**
     * GET /shoppingCartCustomer: an empty cart goes back to the cart page;
     * otherwise the form is shown, prefilled from the cart's customer.
     */
    method ShoppingCartCustomerForm(session: Session) returns (v: View, prefill: Option<CustomerInfo>)
      modifies session`cart
      ensures session.cart.Some? && session.cart.value.Data() == old(SessionCart(session, carts.durable.rows))
      ensures session.cart.value.lines == [] ==> v == Redirect(CART_PAGE)
      ensures session.cart.value.lines != [] ==>
        v == Render("shoppingCartCustomer") && prefill == session.cart.value.customerInfo
    {
      var cart := carts.GetCartInSession(session);
      if cart.IsEmpty() {
        return Redirect(CART_PAGE), None;
      }
      v := Render("shoppingCartCustomer");
      prefill := cart.customerInfo;
    }

    /**
     * POST /shoppingCartCustomer: a form with binding errors is shown again,
     * marked invalid, and the cart is not touched; otherwise the customer,
     * marked valid, becomes the cart's customer.
     */
    method ShoppingCartCustomerSave(session: Session, customer: Customer, hasErrors: bool)
      returns (v: View, shown: Customer)
      modifies session`cart, session.CartObjects()
      ensures hasErrors ==>
        && v == Render("shoppingCartCustomer") && shown == customer.(valid := false)
        && session.cart == old(session.cart) && unchanged(session.CartObjects())
      ensures !hasErrors ==>
        && v == Redirect("/shoppingCartConfirmation") && shown == customer.(valid := true)
        && session.cart.Some?
        && (old(session.cart).Some? ==> session.cart == old(session.cart))
        && var before := old(SessionCart(session, carts.durable.rows));
           session.cart.value.Data() == before.(customerInfo := Some(CustomerInfoOf(customer.(valid := true))))
    {
      if hasErrors {
        return Render("shoppingCartCustomer"), customer.(valid := false);
      }
      shown := customer.(valid := true);
      var cart := carts.GetCartInSession(session);
      cart.customerInfo := Some(CustomerInfoOf(shown));
      v := Redirect("/shoppingCartConfirmation");
    }

    /** GET /shoppingCartConfirmation: the guard, then the review page. */
    method ShoppingCartConfirmationReview(session: Session) returns (v: View)
      modifies session`cart
      ensures session.cart.Some? && session.cart.value.Data() == old(SessionCart(session, carts.durable.rows))
      ensures var guard := ConfirmationGuard(session.cart.value.Data());
        v == if guard.Some? then guard.value else Render(CONFIRMATION_VIEW)
    {
      var cart := carts.GetCartInSession(session);
      if cart.IsEmpty() {
        return Redirect(CART_PAGE);
      } else if !cart.IsValidCustomer() {
        return Redirect(CUSTOMER_PAGE);
      }
      v := Render(CONFIRMATION_VIEW);
    }

    /**
     * POST /shoppingCartConfirmation: the guard, then an order numbered with
     * the cart's own orderNum, one detail per line, is saved at clock reading
     * `now`. A failed save (`saveOk` false) shows the confirmation page again
     * and keeps everything; a stored order removes the session cart (and its
     * durable copy) and keeps it as the last ordered cart.
     */
    method ShoppingCartConfirmationSave(session: Session, now: Timestamp, saveOk: bool) returns (v: View)
      modifies session`cart, session`lastOrdered, carts.durable`rows, orders`orders
      ensures var before := old(SessionCart(session, carts.durable.rows));
        ConfirmationGuard(before).Some? ==>
          && v == ConfirmationGuard(before).value
          && session.cart.Some? && session.cart.value.Data() == before
          && session.lastOrdered == old(session.lastOrdered)
          && carts.durable.rows == old(carts.durable.rows) && orders.orders == old(orders.orders)
      ensures var before := old(SessionCart(session, carts.durable.rows));
        ConfirmationGuard(before).None? && !saveOk ==>
          && v == Render(CONFIRMATION_VIEW)
          && session.cart.Some? && session.cart.value.Data() == before
          && session.lastOrdered == old(session.lastOrdered)
          && carts.durable.rows == old(carts.durable.rows) && orders.orders == old(orders.orders)
      ensures var before := old(SessionCart(session, carts.durable.rows));
        ConfirmationGuard(before).None? && saveOk ==>
          && v == Redirect("/shoppingCartFinalize")
          && orders.orders == old(orders.orders) + [OrderFrom(before.orderNum, now, before.customerInfo.value, before.lines)]
          && session.cart.None? && SessionCart(session, carts.durable.rows) == EmptyCart
          && carts.durable.rows == (if session.userId.Some? then old(carts.durable.rows) - {session.userId.value}
                                    else old(carts.durable.rows))
          && session.lastOrdered.Some? && session.lastOrdered.value.Data() == before
    {
      var cart := carts.GetCartInSession(session);
      if cart.IsEmpty() {
        return Redirect(CART_PAGE);
      } else if !cart.IsValidCustomer() {
        return Redirect(CUSTOMER_PAGE);
      }
      var customer := cart.customerInfo.value;
      var amount := cart.GetAmountTotal();
      var details := SnapshotLines(cart.lines);
      var order := Order(cart.orderNum, now, amount, customer.name, customer.address, customer.email, customer.phone, details);
      if !saveOk {
        return Render(CONFIRMATION_VIEW);
      }
      orders.orders := orders.orders + [order];
      carts.RemoveCartInSession(session);
      carts.StoreLastOrderedCartInSession(session, cart);
      v := Redirect("/shoppingCartFinalize");
    }

    /** GET /shoppingCartFinalize: the last ordered cart, or back to the cart page without one. */
    method ShoppingCartFinalize(session: Session) returns (v: View, lastOrderedCart: Option<CartData>)
      ensures session.lastOrdered.None? ==> v == Redirect(CART_PAGE) && lastOrderedCart.None?
      ensures session.lastOrdered.Some? ==>
        v == Render("shoppingCartFinalize") && lastOrderedCart == Some(session.lastOrdered.value.Data())
    {
      var last := carts.GetLastOrderedCartInSession(session);
      if last.None? {
        return Redirect(CART_PAGE), None;
      }
      v := Render("shoppingCartFinalize");
      lastOrderedCart := Some(last.value.Data());
    }
  }
}
