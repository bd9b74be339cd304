/**
 * ReservationController: the admin endpoints over reservations. The status
 * update saves the reservation first and then moves the linked product's
 * status along with it; nothing stops a settled reservation from being
 * re-opened or flipped.
 */
module ReservationEndpoints {
  import opened Wrappers
  import opened Text
  import opened Domain
  import opened Reservations
  import opened Stores
  import opened ReservationServices

  /**
   * The product status an admin decision leaves behind: accepted pets are
   * adopted, rejected ones available again, and a pending decision keeps
   * whatever the product had.
   */
  function ProductStatusAfter(st: ReservationStatus, current: string): (r: string)
    ensures st == ACCEPTED ==> r == "ADOPTED"
    ensures st == REJECTED ==> r == "AVAILABLE"
    ensures st == PENDING ==> r == current
  {
    match st
    case ACCEPTED => "ADOPTED"
    case REJECTED => "AVAILABLE"
    case PENDING => current
  }

  const UPDATE_FAILED: string := "Failed to update reservation status"

  class ReservationController {
    const service: ReservationService

    constructor (service: ReservationService)
      ensures this.service == service
    {
      this.service := service;
    }

    /** GET /api/admin/reservations: every reservation. */
    method GetAllReservations() returns (r: Response<map<int, ReservationData>>)
      ensures r == Ok(service.reservations.rows)
    {
      r := Ok(service.reservations.rows);
    }

    /** GET /api/admin/reservations/{id}: 404 for an unknown id. */
    method GetReservationById(id: int) returns (r: Response<ReservationData>)
      ensures id in service.reservations.rows <==> r.Ok?
      ensures id in service.reservations.rows ==> r.body == service.reservations.rows[id]
      ensures id !in service.reservations.rows ==> r == NotFound
    {
      var found := service.GetReservationById(id);
      if found.Failure? {
        return NotFound;
      }
      r := Ok(found.value.Data());
    }

    /**
     * The product step of the status update: the linked product, if it is
     * still there, takes the status the decision implies, tested with
     * equalsIgnoreCase as the endpoint does; `productSaved` is whether the
     * save succeeds.
     */
    method FollowProduct(code: string, newStatus: string, productSaved: bool) returns (saved: bool)
      requires ParseStatus(newStatus).Some?
      modifies service.products`rows
      ensures saved <==> code in old(service.products.rows) && productSaved
      ensures !saved ==> service.products.rows == old(service.products.rows)
      ensures saved ==>
        var p := old(service.products.rows)[code];
        service.products.rows == old(service.products.rows)[code := p.(status := ProductStatusAfter(ParseStatus(newStatus).value, p.status))]
    {
      if code !in service.products.rows {
        return false;
      }
      var product := service.products.rows[code];
      IgnoreCaseMatchesParse(ACCEPTED, newStatus);
      IgnoreCaseMatchesParse(REJECTED, newStatus);
      if EqualsIgnoreCase("ACCEPTED", newStatus) {
        product := product.(status := "ADOPTED");
      } else if EqualsIgnoreCase("REJECTED", newStatus) {
        product := product.(status := "AVAILABLE");
      }
      if !productSaved {
        return false;
      }
      service.products.rows := service.products.rows[code := product];
      saved := true;
    }

    /**
     * PUT /api/admin/reservations/{id}/status. A missing status is a 400;
     * an unknown id and an unparsable status both surface as the
     * IllegalArgumentException answer, 400 "Invalid status", before anything
     * is saved. Otherwise the reservation is saved with the parsed status,
     * whatever its old one; then a linked product gets the matching status.
     * A linked product that is gone, or a product save that fails
     * (`productSaved` false), answers 500 with the reservation change kept.
     */
    method UpdateReservationStatus(id: int, newStatus: Option<string>, productSaved: bool)
      returns (r: Response<ReservationData>)
      requires service.reservations.Valid()
      modifies service.reservations, service.products`rows
      ensures service.reservations.Valid()
      ensures (newStatus.None? || id !in old(service.reservations.rows) || ParseStatus(newStatus.value).None?) ==>
        && r == (if newStatus.None? then BadRequest("Status is required") else BadRequest("Invalid status"))
        && service.reservations.rows == old(service.reservations.rows)
        && service.products.rows == old(service.products.rows)
      ensures newStatus.Some? && id in old(service.reservations.rows) && ParseStatus(newStatus.value).Some? ==>
        var st := ParseStatus(newStatus.value).value;
        var row := old(service.reservations.rows)[id].(status := Some(st));
        && service.reservations.rows == old(service.reservations.rows)[id := row]
        && if row.product.None? then
             r == Ok(row) && service.products.rows == old(service.products.rows)
           else if row.product.value !in old(service.products.rows) || !productSaved then
             r == ServerError(UPDATE_FAILED) && service.products.rows == old(service.products.rows)
           else
             var code := row.product.value;
             var p := old(service.products.rows)[code];
             && r == Ok(row)
             && service.products.rows == old(service.products.rows)[code := p.(status := ProductStatusAfter(st, p.status))]
    {
      if newStatus.None? {
        return BadRequest("Status is required");
      }
      var found := service.GetReservationById(id);
      if found.Failure? {
        return BadRequest("Invalid status");
      }
      var reservation := found.value;
      ghost var rows0 := service.reservations.rows;
      var outcome := reservation.SetStatus(StringArg(newStatus.value));
      if outcome.Fail? {
        return BadRequest("Invalid status");
      }
      ghost var st := ParseStatus(newStatus.value).value;
      assert reservation.Data() == rows0[id].(status := Some(st));
      var updated := service.UpdateReservation(reservation);
      assert service.reservations.rows == rows0[id := updated];
      if reservation.product.Some? {
        var saved := FollowProduct(reservation.product.value, newStatus.value, productSaved);
        if !saved {
          return ServerError(UPDATE_FAILED);
        }
      }
      r := Ok(updated);
    }
  }
}
