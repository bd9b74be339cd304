/**
 * The Reservation entity: a customer's request to adopt the pets in a cart,
 * with a three-valued status that an admin moves on. The status can be set
 * from the enum itself or from a string, matched without regard to case.
 */
module Reservations {
  import opened Wrappers
  import opened Text
  import opened Domain
  import opened CartLines

  /** Reservation.ReservationStatus. */
  datatype ReservationStatus = PENDING | ACCEPTED | REJECTED

  /** Enum.name() of a status. */
  function StatusName(st: ReservationStatus): string {
    match st
    case PENDING => "PENDING"
    case ACCEPTED => "ACCEPTED"
    case REJECTED => "REJECTED"
  }

  /**
   * `ReservationStatus.valueOf(s.toUpperCase())`: the status whose name is
   * the upper case of `s`; None stands for the exception valueOf throws.
   */
  function ParseStatus(s: string): (r: Option<ReservationStatus>)
    ensures forall st :: r == Some(st) <==> JavaUpper(s) == StatusName(st)
  {
    var u := JavaUpper(s);
    if u == "PENDING" then Some(PENDING)
    else if u == "ACCEPTED" then Some(ACCEPTED)
    else if u == "REJECTED" then Some(REJECTED)
    else None
  }

  /** The text of the IllegalArgumentException for an unknown status string. */
  function InvalidStatusMessage(s: string): string {
    "Invalid status: " + s + ". Must be one of: PENDING, ACCEPTED, REJECTED"
  }

  const NOT_A_STATUS: string := "Status must be either ReservationStatus enum or String"

  /**
   * The argument of setStatus(Object): an enum constant, a string, or
   * anything else (null included).
   */
  datatype StatusArg = EnumArg(status: ReservationStatus) | StringArg(text: string) | OtherArg

  /** The status an enum reference stands for: null is not an enum constant. */
  function ArgOf(status: Option<ReservationStatus>): (a: StatusArg)
    ensures status.Some? <==> a.EnumArg?
    ensures status.Some? ==> a.status == status.value
  {
    if status.Some? then EnumArg(status.value) else OtherArg
  }

  /** The stored form of a reservation: one row of the reservations table. */
  datatype ReservationData = ReservationData(
    id: Option<int>,
    customerName: string,
    customerEmail: string,
    customerPhone: string,
    customerAddress: string,
    preferredVisitDate: Option<string>,
    message: Option<string>,
    reservationDate: Option<Timestamp>,
    status: Option<ReservationStatus>,
    product: Option<string>,
    reservedItemsDetails: Option<seq<CartLine>>)

  /**
   * A loaded or new Reservation entity. The linked product is held by its
   * code; the reserved items are kept as the cart lines they serialise.
   */
  class Reservation {
    var id: Option<int>
    var customerName: string
    var customerEmail: string
    var customerPhone: string
    var customerAddress: string
    var preferredVisitDate: Option<string>
    var message: Option<string>
    var reservationDate: Option<Timestamp>
    var status: Option<ReservationStatus>
    var product: Option<string>
    var reservedItemsDetails: Option<seq<CartLine>>

    /** `new Reservation()`: nothing set yet (unset strings are empty here). */
    constructor ()
      ensures Data() == ReservationData(None, "", "", "", "", None, None, None, None, None, None)
    {
      id := None;
      customerName := "";
      customerEmail := "";
      customerPhone := "";
      customerAddress := "";
      preferredVisitDate := None;
      message := None;
      reservationDate := None;
      status := None;
      product := None;
      reservedItemsDetails := None;
    }

    /** An entity loaded from its row. */
    constructor Load(d: ReservationData)
      ensures Data() == d
    {
      id := d.id;
      customerName := d.customerName;
      customerEmail := d.customerEmail;
      customerPhone := d.customerPhone;
      customerAddress := d.customerAddress;
      preferredVisitDate := d.preferredVisitDate;
      message := d.message;
      reservationDate := d.reservationDate;
      status := d.status;
      product := d.product;
      reservedItemsDetails := d.reservedItemsDetails;
    }

    function Data(): ReservationData
      reads this
    {
      ReservationData(id, customerName, customerEmail, customerPhone, customerAddress,
        preferredVisitDate, message, reservationDate, status, product, reservedItemsDetails)
    }

    method SetCustomerName(v: string)
      modifies this`customerName
      ensures customerName == v
    {
      customerName := v;
    }

    method SetCustomerEmail(v: string)
      modifies this`customerEmail
      ensures customerEmail == v
    {
      customerEmail := v;
    }

    method SetCustomerPhone(v: string)
      modifies this`customerPhone
      ensures customerPhone == v
    {
      customerPhone := v;
    }

    method SetCustomerAddress(v: string)
      modifies this`customerAddress
      ensures customerAddress == v
    {
      customerAddress := v;
    }

    method SetPreferredVisitDate(v: Option<string>)
      modifies this`preferredVisitDate
      ensures preferredVisitDate == v
    {
      preferredVisitDate := v;
    }

    method SetMessage(v: Option<string>)
      modifies this`message
      ensures message == v
    {
      message := v;
    }

    method SetReservationDate(v: Option<Timestamp>)
      modifies this`reservationDate
      ensures reservationDate == v
    {
      reservationDate := v;
    }

    method SetProduct(v: Option<string>)
      modifies this`product
      ensures product == v
    {
      product := v;
    }

    method SetReservedItemsDetails(v: Option<seq<CartLine>>)
      modifies this`reservedItemsDetails
      ensures reservedItemsDetails == v
    {
      reservedItemsDetails := v;
    }

    /**
     * setStatus(Object): an enum is stored; a string is parsed without regard
     * to case, and an unknown one throws with the status unchanged; any other
     * argument throws.
     */
    method SetStatus(arg: StatusArg) returns (result: Outcome<Error>)
      modifies this`status
      ensures arg.EnumArg? ==> result == Pass && status == Some(arg.status)
      ensures arg.StringArg? && ParseStatus(arg.text).Some? ==>
        result == Pass && status == ParseStatus(arg.text)
      ensures arg.StringArg? && ParseStatus(arg.text).None? ==>
        result == Fail(IllegalArgument(InvalidStatusMessage(arg.text))) && status == old(status)
      ensures arg.OtherArg? ==> result == Fail(IllegalArgument(NOT_A_STATUS)) && status == old(status)
    {
      match arg
      case EnumArg(st) =>
        status := Some(st);
        result := Pass;
      case StringArg(t) =>
        var parsed := ParseStatus(t);
        if parsed.None? {
          return Fail(IllegalArgument(InvalidStatusMessage(t)));
        }
        status := parsed;
        result := Pass;
      case OtherArg =>
        result := Fail(IllegalArgument(NOT_A_STATUS));
    }
  }

  /** Every status name, in any mix of ASCII cases, parses back to its status. */
  lemma ParseStatusAnyCase(st: ReservationStatus, s: string)
    requires |s| == |StatusName(st)|
    requires forall k :: 0 <= k < |s| ==> s[k] == StatusName(st)[k] || s[k] == LowerChar(StatusName(st)[k])
    ensures ParseStatus(s) == Some(st)
  {
    var name := StatusName(st);
    assert forall k :: 0 <= k < |name| ==> 'A' <= name[k] <= 'Z';
    assert JavaUpper(s) == name;
  }

  /**
   * A character matches an upper-case ASCII letter other than I, K and S
   * under equalsIgnoreCase exactly when its upper case is that letter.
   */
  lemma PlainLetterMatch(letter: char, c: char)
    requires 'A' <= letter <= 'Z' && letter != 'I' && letter != 'K' && letter != 'S'
    ensures CharEqualsIgnoreCase(letter, c) <==> JavaUpperChar(c) == letter
  {
  }

  /**
   * "ACCEPTED".equalsIgnoreCase(s) holds exactly when s parses to ACCEPTED,
   * and likewise for REJECTED: the controller's own string test and the
   * entity's parser agree.
   */
  lemma {:induction false} IgnoreCaseMatchesParse(st: ReservationStatus, s: string)
    requires st != PENDING
    ensures EqualsIgnoreCase(StatusName(st), s) <==> ParseStatus(s) == Some(st)
  {
    var name := StatusName(st);
    assert forall k :: 0 <= k < |name| ==> 'A' <= name[k] <= 'Z' && name[k] != 'I' && name[k] != 'K' && name[k] != 'S';
    if EqualsIgnoreCase(name, s) {
      forall k | 0 <= k < |s|
        ensures JavaUpper(s)[k] == name[k]
      {
        PlainLetterMatch(name[k], s[k]);
      }
      assert JavaUpper(s) == name;
    }
    if ParseStatus(s) == Some(st) {
      assert JavaUpper(s) == name;
      forall k | 0 <= k < |name|
        ensures CharEqualsIgnoreCase(name[k], s[k])
      {
        assert JavaUpper(s)[k] == name[k];
        PlainLetterMatch(name[k], s[k]);
      }
    }
  }
}
