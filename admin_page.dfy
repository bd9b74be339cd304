/**
 * The admin dashboard page: the pet counters, the reservation list order,
 * the badge colour and the actions of a reservation, and the edit form a
 * pet opens. Reservation dates are the millisecond values `new Date(...)`
 * parses them to.
 */
module AdminPage {
  import opened Wrappers
  import opened Text

  /** A pet as the dashboard receives it; absent fields are None. */
  datatype AdminPet = AdminPet(
    code: string,
    name: Option<string>,
    petType: Option<string>,
    breed: Option<string>,
    age: Option<string>,
    gender: Option<string>,
    description: Option<string>,
    price: Option<int>,
    imagePath: Option<string>,
    status: Option<string>)

  /** A reservation row: its id, its status name and its parsed date. */
  datatype AdminReservation = AdminReservation(id: int, status: string, reservationDate: int)

  /** The four counters of the overview tab. */
  datatype Stats = Stats(totalPets: nat, available: nat, adopted: nat, pending: nat)

  /** The product form of the add and edit dialogs. */
  datatype PetForm = PetForm(
    name: string,
    petType: string,
    breed: string,
    age: string,
    gender: string,
    description: string,
    price: int,
    image: string,
    status: string,
    fileData: Option<string>)

  /** The dialog's blank form. The page starts its price as the empty string; 0 stands for it here. */
  const EMPTY_PET_FORM: PetForm := PetForm("", "DOG", "", "", "Male", "", 0, "", "available", None)

  /** How many pets have exactly the status `st`. */
  function CountStatus(pets: seq<AdminPet>, st: string): (n: nat)
    ensures n <= |pets|
    ensures n == 0 <==> forall k :: 0 <= k < |pets| ==> pets[k].status != Some(st)
    ensures n == |pets| <==> forall k :: 0 <= k < |pets| ==> pets[k].status == Some(st)
  {
    if pets == [] then 0
    else
      var rest := CountStatus(pets[1..], st);
      assert forall k :: 1 <= k < |pets| ==> pets[k] == pets[1..][k - 1];
      (if pets[0].status == Some(st) then 1 else 0) + rest
  }

  /** The counters: all pets, then those whose status is exactly "available", "adopted" and "pending". */
  function StatsOf(pets: seq<AdminPet>): (r: Stats)
    ensures r.totalPets == |pets|
    ensures r.available == CountStatus(pets, "available")
    ensures r.adopted == CountStatus(pets, "adopted")
    ensures r.pending == CountStatus(pets, "pending")
  {
    Stats(|pets|, CountStatus(pets, "available"), CountStatus(pets, "adopted"), CountStatus(pets, "pending"))
  }

  /** A pet has one status, so the three counters together never exceed the total. */
  lemma {:induction false} CountersWithinTotal(pets: seq<AdminPet>)
    ensures CountStatus(pets, "available") + CountStatus(pets, "adopted") + CountStatus(pets, "pending") <= |pets|
  {
    if pets != [] {
      CountersWithinTotal(pets[1..]);
      assert "available" != "adopted" && "available" != "pending" && "adopted" != "pending" by {
        assert "available"[1] != "adopted"[1];
        assert "available"[0] != "pending"[0];
        assert "adopted"[0] != "pending"[0];
      }
    }
  }

  /** Pets whose status is written in capitals are in the total and in none of the three counters. */
  lemma CapitalStatusesNotCounted(pets: seq<AdminPet>)
    requires forall k :: 0 <= k < |pets| ==>
      pets[k].status == Some("AVAILABLE") || pets[k].status == Some("ADOPTED") || pets[k].status == Some("PENDING")
    ensures StatsOf(pets) == Stats(|pets|, 0, 0, 0)
  {
    assert forall k :: 0 <= k < |pets| ==> pets[k].status != Some("available") by {
      forall k | 0 <= k < |pets|
        ensures pets[k].status != Some("available")
      {
        assert "available"[0] != "AVAILABLE"[0];
        assert "available"[0] != "ADOPTED"[0];
        assert "available"[0] != "PENDING"[0];
      }
    }
    assert forall k :: 0 <= k < |pets| ==> pets[k].status != Some("adopted") by {
      forall k | 0 <= k < |pets|
        ensures pets[k].status != Some("adopted")
      {
        assert "adopted"[0] != "AVAILABLE"[0];
        assert "adopted"[0] != "ADOPTED"[0];
        assert "adopted"[0] != "PENDING"[0];
      }
    }
    assert forall k :: 0 <= k < |pets| ==> pets[k].status != Some("pending") by {
      forall k | 0 <= k < |pets|
        ensures pets[k].status != Some("pending")
      {
        assert "pending"[0] != "AVAILABLE"[0];
        assert "pending"[0] != "ADOPTED"[0];
        assert "pending"[0] != "PENDING"[0];
      }
    }
  }

  /** The badge colour of a reservation status. */
  function StatusColor(status: string): (r: string)
    ensures status == "PENDING" <==> r == "warning"
    ensures status == "ACCEPTED" <==> r == "success"
    ensures status == "REJECTED" <==> r == "danger"
    ensures r == "secondary" <==> status != "PENDING" && status != "ACCEPTED" && status != "REJECTED"
  {
    if status == "PENDING" then "warning"
    else if status == "ACCEPTED" then "success"
    else if status == "REJECTED" then "danger"
    else "secondary"
  }

  /** The statuses the row's buttons can set: accept or reject, for a pending reservation only. */
  function ActionsFor(r: AdminReservation): (actions: seq<string>)
    ensures actions != [] <==> r.status == "PENDING"
    ensures actions != [] ==> actions == ["ACCEPTED", "REJECTED"]
  {
    if r.status == "PENDING" then ["ACCEPTED", "REJECTED"] else []
  }

  /** The sort comparator: negative when `a` goes first. */
  function Compare(a: AdminReservation, b: AdminReservation): int {
    if a.status == "PENDING" && b.status != "PENDING" then -1
    else if a.status != "PENDING" && b.status == "PENDING" then 1
    else b.reservationDate - a.reservationDate
  }

  /** `a` may stand before `b`: pending before the rest, then newer before older. */
  predicate Precedes(a: AdminReservation, b: AdminReservation) {
    || (a.status == "PENDING" && b.status != "PENDING")
    || ((a.status == "PENDING") == (b.status == "PENDING") && a.reservationDate >= b.reservationDate)
  }

  /** The comparator puts `a` no later than `b` exactly when `a` may precede `b`. */
  lemma CompareMeansPrecedes(a: AdminReservation, b: AdminReservation)
    ensures Compare(a, b) <= 0 <==> Precedes(a, b)
  {
  }

  /** Any two reservations can be ordered one way or the other. */
  lemma PrecedesTotal(a: AdminReservation, b: AdminReservation)
    ensures Precedes(a, b) || Precedes(b, a)
  {
  }

  /** Each reservation may precede every one after it. */
  predicate InListOrder(s: seq<AdminReservation>) {
    forall i, j :: 0 <= i < j < |s| ==> Precedes(s[i], s[j])
  }

  /** Every pending reservation is listed before every other one. */
  lemma PendingFirst(s: seq<AdminReservation>, i: int, j: int)
    requires InListOrder(s)
    requires 0 <= i < |s| && 0 <= j < |s|
    requires s[i].status == "PENDING" && s[j].status != "PENDING"
    ensures i < j
  {
  }

  /** `r` placed before the first entry it may precede. */
  function Insert(r: AdminReservation, s: seq<AdminReservation>): (out: seq<AdminReservation>)
    requires InListOrder(s)
    ensures InListOrder(out)
    ensures multiset(out) == multiset(s) + multiset{r}
    ensures |out| == |s| + 1
  {
    if |s| == 0 || Precedes(r, s[0]) then
      [r] + s
    else
      var rest := Insert(r, s[1..]);
      assert s == [s[0]] + s[1..];
      PrecedesTotal(r, s[0]);
      forall k | 0 <= k < |rest|
        ensures Precedes(s[0], rest[k])
      {
        assert rest[k] in multiset(rest);
        if rest[k] != r {
          assert rest[k] in multiset(s[1..]);
          var j :| 0 <= j < |s[1..]| && s[1..][j] == rest[k];
          assert s[j + 1] == rest[k];
        }
      }
      [s[0]] + rest
  }

  /** The reservations as the list shows them: in list order and the same reservations. */
  function SortReservations(s: seq<AdminReservation>): (out: seq<AdminReservation>)
    ensures InListOrder(out)
    ensures multiset(out) == multiset(s)
    ensures |out| == |s|
  {
    if |s| == 0 then []
    else
      assert s == [s[0]] + s[1..];
      Insert(s[0], SortReservations(s[1..]))
  }

  /** `x ?? fallback`. */
  function OrElse<T>(x: Option<T>, fallback: T): (r: T)
    ensures x.Some? ==> r == x.value
    ensures x.None? ==> r == fallback
  {
    if x.Some? then x.value else fallback
  }

  /** The edit form of a pet: absent fields take the add form's defaults; a status that is absent or empty becomes "available", any other is lower-cased. */
  function EditFormOf(pet: AdminPet): (f: PetForm)
    ensures f.status == (if pet.status.None? || pet.status.value == "" then "available" else Lower(pet.status.value))
    ensures f.name == OrElse(pet.name, "") && f.petType == OrElse(pet.petType, "DOG")
    ensures f.gender == OrElse(pet.gender, "Male") && f.price == OrElse(pet.price, 0)
    ensures f.breed == OrElse(pet.breed, "") && f.age == OrElse(pet.age, "")
    ensures f.description == OrElse(pet.description, "") && f.image == OrElse(pet.imagePath, "")
    ensures f.fileData.None?
  {
    PetForm(OrElse(pet.name, ""), OrElse(pet.petType, "DOG"), OrElse(pet.breed, ""), OrElse(pet.age, ""),
            OrElse(pet.gender, "Male"), OrElse(pet.description, ""), OrElse(pet.price, 0),
            OrElse(pet.imagePath, ""),
            if pet.status.Some? && pet.status.value != "" then Lower(pet.status.value) else "available",
            None)
  }

  /** A stored "AVAILABLE" opens the edit form as "available". */
  lemma EditFormLowersStatus(pet: AdminPet)
    requires pet.status == Some("AVAILABLE")
    ensures EditFormOf(pet).status == "available"
  {
    assert Lower("AVAILABLE") == "available";
  }

  class Dashboard {
    var pets: seq<AdminPet>
    var reservations: seq<AdminReservation>
    var selectedPet: Option<AdminPet>
    var formData: PetForm
    var showEditModal: bool

    constructor ()
      ensures pets == [] && reservations == [] && selectedPet.None?
      ensures formData == EMPTY_PET_FORM && !showEditModal
    {
      pets := [];
      reservations := [];
      selectedPet := None;
      formData := EMPTY_PET_FORM;
      showEditModal := false;
    }

    /** The overview counters of the loaded pets. */
    function Counters(): (r: Stats)
      reads this
      ensures r.totalPets == |pets|
      ensures r.available + r.adopted + r.pending <= r.totalPets
    {
      CountersWithinTotal(pets);
      StatsOf(pets)
    }

    /** fetchReservations, on success: the fetched rows in list order. */
    method FetchReservations(fetched: seq<AdminReservation>)
      modifies this`reservations
      ensures reservations == SortReservations(fetched)
      ensures InListOrder(reservations) && multiset(reservations) == multiset(fetched)
    {
      reservations := SortReservations(fetched);
    }

    /** handleEdit: the pet is selected, its edit form filled in, and the dialog opened. */
    method HandleEdit(pet: AdminPet)
      modifies this`selectedPet, this`formData, this`showEditModal
      ensures selectedPet == Some(pet) && formData == EditFormOf(pet) && showEditModal
    {
      selectedPet := Some(pet);
      formData := EditFormOf(pet);
      showEditModal := true;
    }
  }
}
