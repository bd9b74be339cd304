/**
 * ApiController: sign-up through the REST API and the signed-in customer's
 * own reservation endpoints (active list, withdraw, clear the settled ones).
 * The caller's email is what authentication names; it is a parameter here.
 */
module ApiEndpoints {
  import opened Wrappers
  import opened Text
  import opened Domain
  import opened Reservations
  import opened Stores
  import opened ReservationServices

  /** One of the five required sign-up fields is null or blank. */
  predicate MissingRequired(email: Option<string>, password: Option<string>, firstName: Option<string>,
                            lastName: Option<string>, phone: Option<string>) {
    IsNullOrBlank(email) || IsNullOrBlank(password) || IsNullOrBlank(firstName)
    || IsNullOrBlank(lastName) || IsNullOrBlank(phone)
  }

  /** The role a REST sign-up gets: admin only for an admin role name together with the right key. */
  function RegisteredRole(role: string, secretKey: Option<string>, adminSecretKey: string): (r: string)
    ensures r == ROLE_ADMIN <==>
      (EqualsIgnoreCase(role, "ADMIN") || EqualsIgnoreCase(role, "ROLE_ADMIN")) && secretKey == Some(adminSecretKey)
    ensures r == ROLE_ADMIN || r == ROLE_USER
  {
    if (EqualsIgnoreCase(role, "ADMIN") || EqualsIgnoreCase(role, "ROLE_ADMIN")) && secretKey == Some(adminSecretKey)
    then ROLE_ADMIN else ROLE_USER
  }

  /** Any mix of ASCII cases of "admin" asks for the admin role. */
  lemma AdminRoleAnyCase(role: string)
    requires |role| == 5
    requires forall k :: 0 <= k < 5 ==> role[k] == "ADMIN"[k] || role[k] == "admin"[k]
    ensures EqualsIgnoreCase(role, "ADMIN")
  {
  }

  /** A status the customer can clear: settled one way or the other. */
  predicate IsSettled(status: Option<ReservationStatus>) {
    status == Some(ACCEPTED) || status == Some(REJECTED)
  }

  /** The customer's reservations still waiting for a decision. */
  function ActiveOf(rows: map<int, ReservationData>, email: string): (r: map<int, ReservationData>)
    ensures forall id :: id in r <==> id in rows && rows[id].customerEmail == email && rows[id].status == Some(PENDING)
    ensures forall id :: id in r ==> r[id] == rows[id]
  {
    var mine := ByEmail(rows, email);
    map id | id in mine && mine[id].status == Some(PENDING) :: mine[id]
  }

  /** The ids of the customer's settled reservations. */
  function SettledIds(rows: map<int, ReservationData>, email: string): (r: set<int>)
    ensures forall id :: id in r <==> id in rows && rows[id].customerEmail == email && IsSettled(rows[id].status)
  {
    set id | id in ByEmail(rows, email) && IsSettled(rows[id].status)
  }

  /** Clearing settled reservations keeps every active one of the customer. */
  lemma ClearKeepsActive(rows: map<int, ReservationData>, email: string)
    ensures ActiveOf(rows - SettledIds(rows, email), email) == ActiveOf(rows, email)
  {
    var after := rows - SettledIds(rows, email);
    assert forall id :: id in ActiveOf(rows, email) ==> id in after;
  }

  /** Clearing one customer's settled reservations leaves every other customer's untouched. */
  lemma ClearKeepsOthers(rows: map<int, ReservationData>, email: string, other: string)
    requires other != email
    ensures ByEmail(rows - SettledIds(rows, email), other) == ByEmail(rows, other)
  {
    var after := rows - SettledIds(rows, email);
    assert forall id :: id in ByEmail(rows, other) ==> id in after;
  }

  /** After clearing, the customer has no settled reservation left. */
  lemma ClearLeavesNoSettled(rows: map<int, ReservationData>, email: string)
    ensures SettledIds(rows - SettledIds(rows, email), email) == {}
  {
  }

  /** A non-empty set has a member. */
  lemma MemberOf(s: set<int>) returns (x: int)
    requires |s| > 0
    ensures x in s
  {
    if forall y :: y !in s {
      assert false;
    }
    x :| x in s;
  }

  class ApiController {
    const accounts: AccountRepository
    const service: ReservationService
    const adminSecretKey: string

    constructor (accounts: AccountRepository, service: ReservationService, adminSecretKey: string)
      ensures this.accounts == accounts && this.service == service && this.adminSecretKey == adminSecretKey
    {
      this.accounts := accounts;
      this.service := service;
      this.adminSecretKey := adminSecretKey;
    }

    /**
     * POST /api/register. Any of the five required fields missing or blank
     * is a 400; so is a known email. A missing role makes the role test
     * throw, answered with "Registration failed: ". A failing save, whose
     * exception has the message `saveError`, is answered the same way with
     * that message and stores nothing. Otherwise an active account is stored
     * with the encoder's output for the password.
     */
    method RegisterUser(email: Option<string>, password: Option<string>, firstName: Option<string>,
                        lastName: Option<string>, phone: Option<string>, role: Option<string>,
                        secretKey: Option<string>, encodedPassword: string, saveError: Option<string>)
      returns (r: Response<string>)
      modifies accounts
      ensures MissingRequired(email, password, firstName, lastName, phone) ==>
        r == BadRequest("All fields are required") && accounts.rows == old(accounts.rows)
      ensures !MissingRequired(email, password, firstName, lastName, phone) ==>
        if email.value in old(accounts.rows) then
          r == BadRequest("Email already exists") && accounts.rows == old(accounts.rows)
        else if role.None? then
          r == BadRequest("Registration failed: " + MessageOf(NullReference)) && accounts.rows == old(accounts.rows)
        else if saveError.Some? then
          r == BadRequest("Registration failed: " + saveError.value) && accounts.rows == old(accounts.rows)
        else
          && r == Ok("User registered successfully")
          && accounts.rows == old(accounts.rows)[email.value := Account(email.value, encodedPassword,
               firstName.value, lastName.value, phone.value,
               RegisteredRole(role.value, secretKey, adminSecretKey), true)]
    {
      if MissingRequired(email, password, firstName, lastName, phone) {
        return BadRequest("All fields are required");
      }
      if email.value in accounts.rows {
        return BadRequest("Email already exists");
      }
      if role.None? {
        return BadRequest("Registration failed: " + MessageOf(NullReference));
      }
      var accountRole := if (EqualsIgnoreCase(role.value, "ADMIN") || EqualsIgnoreCase(role.value, "ROLE_ADMIN"))
                            && secretKey == Some(adminSecretKey)
                         then ROLE_ADMIN else ROLE_USER;
      var account := Account(email.value, encodedPassword, firstName.value, lastName.value, phone.value, accountRole, true);
      if saveError.Some? {
        return BadRequest("Registration failed: " + saveError.value);
      }
      accounts.rows := accounts.rows[email.value := account];
      r := Ok("User registered successfully");
    }

    /** GET /api/reservations/me/active: the caller's PENDING reservations. */
    method GetUserActiveReservations(userEmail: string) returns (r: Response<map<int, ReservationData>>)
      ensures r.Ok?
      ensures forall id :: id in r.body <==>
        (id in service.reservations.rows
         && service.reservations.rows[id].customerEmail == userEmail
         && service.reservations.rows[id].status == Some(PENDING))
      ensures forall id :: id in r.body ==> r.body[id] == service.reservations.rows[id]
    {
      var mine := service.GetReservationsByCustomerEmail(userEmail);
      r := Ok(map id | id in mine && mine[id].status == Some(PENDING) :: mine[id]);
    }

    /**
     * DELETE /api/reservations/{id}: an unknown id is a 500; someone else's
     * reservation a 403; a settled one a 400; otherwise it is deleted.
     */
    method WithdrawReservation(id: int, userEmail: string) returns (r: Response<string>)
      requires service.reservations.Valid()
      modifies service.reservations`rows
      ensures service.reservations.Valid()
      ensures id !in old(service.reservations.rows) ==>
        r == ServerError("Failed to withdraw reservation") && service.reservations.rows == old(service.reservations.rows)
      ensures id in old(service.reservations.rows) ==>
        var row := old(service.reservations.rows)[id];
        if row.customerEmail != userEmail then
          r == Forbidden("You are not authorized to withdraw this reservation")
          && service.reservations.rows == old(service.reservations.rows)
        else if row.status != Some(PENDING) then
          r == BadRequest("Only pending reservations can be withdrawn")
          && service.reservations.rows == old(service.reservations.rows)
        else
          r == Ok("Reservation withdrawn successfully")
          && service.reservations.rows == old(service.reservations.rows) - {id}
    {
      var found := service.GetReservationById(id);
      if found.Failure? {
        return ServerError("Failed to withdraw reservation");
      }
      var reservation := found.value;
      if reservation.customerEmail != userEmail {
        return Forbidden("You are not authorized to withdraw this reservation");
      }
      if reservation.status != Some(PENDING) {
        return BadRequest("Only pending reservations can be withdrawn");
      }
      var _ := service.DeleteReservation(id);
      r := Ok("Reservation withdrawn successfully");
    }

    /**
     * DELETE /api/reservations/clear: delete each of the caller's ACCEPTED
     * or REJECTED reservations, one at a time.
     */
    method ClearCompletedReservations(userEmail: string) returns (r: Response<string>)
      requires service.reservations.Valid()
      modifies service.reservations`rows
      ensures service.reservations.Valid()
      ensures r == Ok("Completed reservations cleared successfully")
      ensures service.reservations.rows == old(service.reservations.rows) - SettledIds(old(service.reservations.rows), userEmail)
    {
      var mine := service.GetReservationsByCustomerEmail(userEmail);
      var todo := set id | id in mine && IsSettled(mine[id].status);
      ghost var all := todo;
      assert all == SettledIds(old(service.reservations.rows), userEmail);
      while |todo| > 0
        invariant todo <= all
        invariant service.reservations.Valid()
        invariant service.reservations.rows == old(service.reservations.rows) - (all - todo)
        decreases |todo|
      {
        ghost var member := MemberOf(todo);
        var id :| id in todo;
        var _ := service.DeleteReservation(id);
        todo := todo - {id};
      }
      r := Ok("Completed reservations cleared successfully");
    }
  }
}
