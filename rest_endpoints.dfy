/**
 * RestApiController: the public product lookup and the reservation of the
 * session cart's pets by the signed-in customer.
 */
module RestEndpoints {
  import opened Wrappers
  import opened Domain
  import opened CartLines
  import opened Cart
  import opened Reservations
  import opened Stores
  import opened CartSessions
  import opened ReservationServices

  class RestApiController {
    const products: ProductRepository
    const carts: CartService
    const reservations: ReservationService

    constructor (products: ProductRepository, carts: CartService, reservations: ReservationService)
      ensures this.products == products && this.carts == carts && this.reservations == reservations
    {
      this.products := products;
      this.carts := carts;
      this.reservations := reservations;
    }

    /** GET /api/products/{code}: 404 for an unknown code, else the product's summary. */
    method GetProduct(code: string) returns (r: Response<ProductInfo>)
      ensures code !in products.rows ==> r == NotFound
      ensures code in products.rows ==> r == Ok(InfoOf(products.rows[code]))
    {
      if code !in products.rows {
        return NotFound;
      }
      r := Ok(InfoOf(products.rows[code]));
    }

    /**
     * POST /api/reservations. The session cart (fetched or created) must hold
     * a line; the reservation is then built from it and the submitted
     * customer at clock reading `now`. Only when that succeeds is the session
     * cart, with its durable copy, cleared; a refusal, or a failing save with
     * message `saveError`, answers 500 with the exception's text and keeps the
     * cart.
     */
    method CreateReservation(session: Session, customer: CustomerInfo, now: Timestamp, saveError: Option<string>)
      returns (r: Response<ReservationData>)
      modifies session`cart, carts.durable`rows, reservations.reservations
      ensures old(reservations.reservations.Valid()) ==> reservations.reservations.Valid()
      ensures old(SessionCart(session, carts.durable.rows)).lines == [] ==>
        && r == BadRequest("Cart is empty. Cannot create a reservation.")
        && session.cart.Some? && session.cart.value.Data() == old(SessionCart(session, carts.durable.rows))
        && carts.durable.rows == old(carts.durable.rows)
        && reservations.reservations.rows == old(reservations.reservations.rows)
      ensures old(SessionCart(session, carts.durable.rows)).lines != [] && !customer.valid ==>
        && r == ServerError("Error creating reservation: " + INVALID_CUSTOMER)
        && session.cart.Some? && session.cart.value.Data() == old(SessionCart(session, carts.durable.rows))
        && carts.durable.rows == old(carts.durable.rows)
        && reservations.reservations.rows == old(reservations.reservations.rows)
      ensures old(SessionCart(session, carts.durable.rows)).lines != [] && customer.valid && saveError.Some? ==>
        && r == ServerError("Error creating reservation: " + saveError.value)
        && session.cart.Some? && session.cart.value.Data() == old(SessionCart(session, carts.durable.rows))
        && carts.durable.rows == old(carts.durable.rows)
        && reservations.reservations.rows == old(reservations.reservations.rows)
      ensures old(SessionCart(session, carts.durable.rows)).lines != [] && customer.valid && saveError.None? ==>
        && r.Ok?
        && r.body.id == Some(old(reservations.reservations.nextId))
        && reservations.reservations.rows == old(reservations.reservations.rows)[old(reservations.reservations.nextId) := r.body]
        && r.body.status == Some(PENDING) && r.body.reservationDate == Some(now)
        && r.body.customerName == customer.name && r.body.customerEmail == customer.email
        && r.body.customerPhone == customer.phone && r.body.customerAddress == customer.address
        && r.body.preferredVisitDate == customer.preferredVisitDate && r.body.message == customer.message
        && r.body.reservedItemsDetails == Some(old(SessionCart(session, carts.durable.rows)).lines)
        && r.body.product == LinkedProduct(old(SessionCart(session, carts.durable.rows)).lines, reservations.products.rows)
        && session.cart.None? && SessionCart(session, carts.durable.rows) == EmptyCart
        && carts.durable.rows == (if session.userId.Some? then old(carts.durable.rows) - {session.userId.value}
                                  else old(carts.durable.rows))
    {
      ghost var before := SessionCart(session, carts.durable.rows);
      var cart := carts.GetCartInSession(session);
      assert cart.lines == before.lines;
      if cart.IsEmpty() {
        return BadRequest("Cart is empty. Cannot create a reservation.");
      }
      var created := reservations.CreateReservationFromCart(Some(cart), Some(customer), now, saveError);
      if created.Failure? {
        return ServerError("Error creating reservation: " + MessageOf(created.error));
      }
      carts.RemoveCartInSession(session);
      r := Ok(created.value);
    }
  }
}
