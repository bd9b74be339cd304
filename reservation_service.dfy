/**
 * ReservationService: turns a session cart and a customer into a stored,
 * pending reservation, and looks up, re-saves, re-statuses, lists and
 * deletes reservations. Each call is one transaction: a call that fails
 * leaves the table as it was.
 */
module ReservationServices {
  import opened Wrappers
  import opened Text
  import opened Domain
  import opened CartLines
  import opened Cart
  import opened Reservations
  import opened Stores

  const CART_EMPTY: string := "Cart is empty."
  const INVALID_CUSTOMER: string := "Invalid customer information."

  /** The text of the exception for an unknown reservation id. */
  function NotFoundMessage(id: int): string {
    "Reservation not found with ID: " + IntString(id)
  }

  /** The product a new reservation links: the first line's, when it is still a product. */
  function LinkedProduct(lines: seq<CartLine>, products: map<string, Product>): (r: Option<string>)
    ensures r.Some? <==> |lines| > 0 && CodeOf(lines[0]) in products
    ensures r.Some? ==> r.value == CodeOf(lines[0])
  {
    if |lines| > 0 && CodeOf(lines[0]) in products then Some(CodeOf(lines[0])) else None
  }

  /** findByCustomerEmail: the rows whose customer email is exactly `email`. */
  function ByEmail(rows: map<int, ReservationData>, email: string): (r: map<int, ReservationData>)
    ensures forall id :: id in r <==> id in rows && rows[id].customerEmail == email
    ensures forall id :: id in r ==> r[id] == rows[id]
  {
    map id | id in rows && rows[id].customerEmail == email :: rows[id]
  }

  /**
   * The entity createReservationFromCart fills in through its setters
   * before saving: customer details, date, PENDING, items and product.
   */
  method NewPendingReservation(c: CustomerInfo, now: Timestamp, lines: seq<CartLine>, product: Option<string>)
    returns (reservation: Reservation)
    ensures fresh(reservation)
    ensures reservation.Data() == ReservationData(None, c.name, c.email, c.phone, c.address,
      c.preferredVisitDate, c.message, Some(now), Some(PENDING), product, Some(lines))
  {
    reservation := new Reservation();
    reservation.SetCustomerName(c.name);
    reservation.SetCustomerEmail(c.email);
    reservation.SetCustomerPhone(c.phone);
    reservation.SetCustomerAddress(c.address);
    reservation.SetPreferredVisitDate(c.preferredVisitDate);
    reservation.SetMessage(c.message);
    reservation.SetReservationDate(Some(now));
    var _ := reservation.SetStatus(EnumArg(PENDING));
    reservation.SetReservedItemsDetails(Some(lines));
    reservation.SetProduct(product);
  }

  class ReservationService {
    const reservations: ReservationRepository
    const products: ProductRepository

    constructor (reservations: ReservationRepository, products: ProductRepository)
      ensures this.reservations == reservations && this.products == products
    {
      this.reservations := reservations;
      this.products := products;
    }

    /**
     * createReservationFromCart: a missing or empty cart and then a missing
     * or invalid customer are refused; otherwise a PENDING reservation is
     * stored under a new id with the customer's details, the clock reading
     * `now`, all the cart lines and a link to the first line's product. No
     * product is changed. `saveError` is the message of the exception a
     * failing reservationRepository.save throws; it propagates and nothing is
     * stored.
     */
    method CreateReservationFromCart(cart: Option<CartInfo>, customer: Option<CustomerInfo>, now: Timestamp,
                                     saveError: Option<string>)
      returns (result: Result<ReservationData, Error>)
      modifies reservations
      ensures (cart.None? || cart.value.lines == []) ==>
        result == Failure(IllegalArgument(CART_EMPTY)) && reservations.rows == old(reservations.rows)
        && reservations.nextId == old(reservations.nextId)
      ensures cart.Some? && cart.value.lines != [] && (customer.None? || !customer.value.valid) ==>
        result == Failure(IllegalArgument(INVALID_CUSTOMER))
        && reservations.rows == old(reservations.rows) && reservations.nextId == old(reservations.nextId)
      ensures cart.Some? && cart.value.lines != [] && customer.Some? && customer.value.valid && saveError.Some? ==>
        result == Failure(Runtime(saveError.value))
        && reservations.rows == old(reservations.rows) && reservations.nextId == old(reservations.nextId)
      ensures cart.Some? && cart.value.lines != [] && customer.Some? && customer.value.valid && saveError.None? ==>
        && result.Success?
        && var r := result.value;
           var c := customer.value;
           && r.id == Some(old(reservations.nextId))
           && reservations.rows == old(reservations.rows)[old(reservations.nextId) := r]
           && r.customerName == c.name && r.customerEmail == c.email
           && r.customerPhone == c.phone && r.customerAddress == c.address
           && r.preferredVisitDate == c.preferredVisitDate && r.message == c.message
           && r.reservationDate == Some(now) && r.status == Some(PENDING)
           && r.reservedItemsDetails == Some(cart.value.lines)
           && r.product == LinkedProduct(cart.value.lines, products.rows)
      ensures old(reservations.Valid()) ==> reservations.Valid()
    {
      if cart.None? || cart.value.IsEmpty() {
        return Failure(IllegalArgument(CART_EMPTY));
      }
      if customer.None? || !customer.value.valid {
        return Failure(IllegalArgument(INVALID_CUSTOMER));
      }
      var lines := cart.value.lines;
      var product: Option<string> := None;
      if lines != [] {
        var code := CodeOf(lines[0]);
        product := if code in products.rows then Some(code) else None;
      }
      var reservation := NewPendingReservation(customer.value, now, lines, product);
      if saveError.Some? {
        return Failure(Runtime(saveError.value));
      }
      var saved := reservations.Save(reservation);
      result := Success(saved);
    }

    /** getReservationById: a fresh entity loaded from the row, or an exception for an unknown id. */
    method GetReservationById(id: int) returns (result: Result<Reservation, Error>)
      ensures id in reservations.rows ==>
        result.Success? && fresh(result.value) && result.value.Data() == reservations.rows[id]
      ensures id !in reservations.rows ==> result == Failure(IllegalArgument(NotFoundMessage(id)))
    {
      if id !in reservations.rows {
        return Failure(IllegalArgument(NotFoundMessage(id)));
      }
      var r := new Reservation.Load(reservations.rows[id]);
      result := Success(r);
    }

    /** updateReservation: save the entity as it is. */
    method UpdateReservation(r: Reservation) returns (saved: ReservationData)
      requires r.id.Some?
      modifies reservations, r`id
      ensures r.id == old(r.id)
      ensures saved == r.Data() && reservations.rows == old(reservations.rows)[r.id.value := saved]
      ensures reservations.nextId == old(reservations.nextId)
      ensures old(reservations.Valid()) && r.id.value in old(reservations.rows) ==> reservations.Valid()
    {
      saved := reservations.Save(r);
    }

    /**
     * updateReservationStatus: an unknown id, then a null status, throw and
     * change nothing; otherwise the status is overwritten whatever it was.
     */
    method UpdateReservationStatus(id: int, status: Option<ReservationStatus>)
      returns (result: Result<ReservationData, Error>)
      requires reservations.Valid()
      modifies reservations
      ensures reservations.Valid() && reservations.nextId == old(reservations.nextId)
      ensures id !in old(reservations.rows) ==>
        result == Failure(IllegalArgument(NotFoundMessage(id))) && reservations.rows == old(reservations.rows)
      ensures id in old(reservations.rows) && status.None? ==>
        result == Failure(IllegalArgument(NOT_A_STATUS)) && reservations.rows == old(reservations.rows)
      ensures id in old(reservations.rows) && status.Some? ==>
        && result == Success(old(reservations.rows)[id].(status := status))
        && reservations.rows == old(reservations.rows)[id := result.value]
    {
      var found := GetReservationById(id);
      if found.Failure? {
        return Failure(found.error);
      }
      var reservation := found.value;
      var outcome := reservation.SetStatus(ArgOf(status));
      if outcome.Fail? {
        return Failure(outcome.error);
      }
      var saved := reservations.Save(reservation);
      result := Success(saved);
    }

    /** getReservationsByCustomerEmail. */
    function GetReservationsByCustomerEmail(email: string): (r: map<int, ReservationData>)
      reads reservations
      ensures forall id :: id in r ==> id in reservations.rows && r[id].customerEmail == email
    {
      ByEmail(reservations.rows, email)
    }

    /** deleteReservation: an unknown id throws; otherwise exactly that row goes. */
    method DeleteReservation(id: int) returns (result: Outcome<Error>)
      modifies reservations`rows
      ensures id !in old(reservations.rows) ==>
        result == Fail(IllegalArgument(NotFoundMessage(id))) && reservations.rows == old(reservations.rows)
      ensures id in old(reservations.rows) ==> result == Pass && reservations.rows == old(reservations.rows) - {id}
      ensures old(reservations.Valid()) ==> reservations.Valid()
    {
      var found := GetReservationById(id);
      if found.Failure? {
        return Fail(found.error);
      }
      reservations.rows := reservations.rows - {id};
      result := Pass;
    }
  }
}
