/** The document store the routes share: the records kept in each collection,
    the in-memory database that holds the collections, the per-browser session,
    and the link invariants the booking routes keep. */
module Store {

  /** Document identifiers. Every insert draws a fresh one from one counter,
      as object ids are unique across the whole database. */
  type Id = nat

  datatype Option<T> = None | Some(value: T)

  datatype Status = Pending | Approved | Rejected

  /** Values the routes store in a booking's `booking_type` field. */
  const HallType: string := "hall"
  const FoodType: string := "food"

  /** `doc.get(field, 0)` for a price, and `float(form.get(field) or 0)`
      for a price typed into a form: a missing or blank value reads as zero. */
  function OrZero(x: Option<real>): real {
    if x.Some? then x.value else 0.0
  }

  /** A request for a hall (collection `bookings`). A missing or null
      `linked_food_booking` are both `None`: every reader treats them alike. */
  datatype HallBooking = HallBooking(
    orgId: Id,
    hallId: Id,
    fromDate: string,
    toDate: string,
    numPeople: int,
    eventName: string,
    description: string,
    foodRequired: bool,
    status: Status,
    totalHours: real,
    totalPrice: Option<real>,
    bookingType: string,
    linkedFood: Option<Id>)

  /** A request for a food package (collection `food_bookings`). */
  datatype FoodBooking = FoodBooking(
    orgId: Id,
    packageId: Id,
    plates: int,
    totalPrice: Option<real>,
    status: Status,
    bookingType: string,
    linkedHall: Option<Id>)

  datatype Hall = Hall(title: string, capacity: int, price: real, address: string,
                       location: string, description: string)

  datatype FoodPackage = FoodPackage(name: string, price: real, description: string,
                                     breakfast: bool, lunch: bool, dinner: bool)

  datatype Organizer = Organizer(id: Id, name: string, phone: string, email: string,
                                 passwordHash: string, address: string)

  /** An admin account; `status` is `None` for an account stored without one. */
  datatype Admin = Admin(id: Id, username: string, passwordHash: string, status: Option<Status>)

  /** Position of the first document (in natural order) that `matches` accepts:
      what `find_one` with a filter returns. */
  function FindOne<T>(docs: seq<T>, matches: T -> bool): (r: Option<nat>)
    ensures r.Some? ==> r.value < |docs| && matches(docs[r.value])
    ensures r.Some? ==> forall j :: 0 <= j < r.value ==> !matches(docs[j])
    ensures r.None? ==> forall j :: 0 <= j < |docs| ==> !matches(docs[j])
  {
    if |docs| == 0 then None
    else if matches(docs[0]) then Some(0)
    else match FindOne(docs[1..], matches)
      case None => None
      case Some(k) => Some(k + 1)
  }

  /** Position `j` holds the first organizer, in natural order, whose `_id` is `id`. */
  ghost predicate FirstWithId(organizers: seq<Organizer>, id: Id, j: int) {
    0 <= j < |organizers| && organizers[j].id == id &&
    forall i :: 0 <= i < j ==> organizers[i].id != id
  }

  /** The organizer whose `_id` is `id`, if any: the first one in natural order. */
  function FindOrganizer(organizers: seq<Organizer>, id: Id): (r: Option<nat>)
    ensures r.Some? ==> FirstWithId(organizers, id, r.value)
    ensures r.None? ==> forall j :: 0 <= j < |organizers| ==> organizers[j].id != id
  {
    FindOne(organizers, (o: Organizer) => o.id == id)
  }

  /** The two booking collections, as a value. */
  datatype Tables = Tables(bookings: map<Id, HallBooking>, foodBookings: map<Id, FoodBooking>)

  /** Every link that is set resolves, and the record it names links back. */
  ghost predicate LinksConsistent(t: Tables) {
    && (forall h :: h in t.bookings && t.bookings[h].linkedFood.Some? ==>
          t.bookings[h].linkedFood.value in t.foodBookings &&
          t.foodBookings[t.bookings[h].linkedFood.value].linkedHall == Some(h))
    && (forall f :: f in t.foodBookings && t.foodBookings[f].linkedHall.Some? ==>
          t.foodBookings[f].linkedHall.value in t.bookings &&
          t.bookings[t.foodBookings[f].linkedHall.value].linkedFood == Some(f))
  }

  /** Each collection holds only records of its own booking type. */
  ghost predicate Typed(t: Tables) {
    && (forall h :: h in t.bookings ==> t.bookings[h].bookingType == HallType)
    && (forall f :: f in t.foodBookings ==> t.foodBookings[f].bookingType == FoodType)
  }

  /** A hall booking waiting in the session to be linked exists and has no food link yet. */
  ghost predicate SlotReady(t: Tables, slot: Option<Id>) {
    slot.Some? ==> slot.value in t.bookings && t.bookings[slot.value].linkedFood.None?
  }

  /** The state the booking routes keep: consistent links, typed collections, a ready slot. */
  ghost predicate Coherent(t: Tables, slot: Option<Id>) {
    LinksConsistent(t) && Typed(t) && SlotReady(t, slot)
  }

  /** Ids already handed out are below `next`, and the two booking collections
      share no id. */
  ghost predicate IdsIssued(admins: seq<Admin>, organizers: seq<Organizer>, t: Tables, next: Id) {
    && (forall k :: k in t.bookings ==> k < next)
    && (forall k :: k in t.foodBookings ==> k < next)
    && (forall i :: 0 <= i < |admins| ==> admins[i].id < next)
    && (forall i :: 0 <= i < |organizers| ==> organizers[i].id < next)
    && t.bookings.Keys !! t.foodBookings.Keys
  }

  /** Writes that keep both key sets keep the ids issued. */
  lemma SameKeysKeepIdsIssued(admins: seq<Admin>, organizers: seq<Organizer>, t: Tables, r: Tables, next: Id)
    requires IdsIssued(admins, organizers, t, next)
    requires r.bookings.Keys == t.bookings.Keys && r.foodBookings.Keys == t.foodBookings.Keys
    ensures IdsIssued(admins, organizers, r, next)
  {
  }

  /** The database: one field per collection the core reads or writes. */
  class Database {
    var admins: seq<Admin>
    var organizers: seq<Organizer>
    var halls: map<Id, Hall>
    var packages: map<Id, FoodPackage>
    var bookings: map<Id, HallBooking>
    var foodBookings: map<Id, FoodBooking>
    var nextId: Id

    /** Every stored account and booking id was drawn before `nextId`, and no id
        names both a hall booking and a food booking. */
    ghost predicate Valid()
      reads this
    {
      IdsIssued(admins, organizers, BookingTables(), nextId)
    }

    function BookingTables(): Tables
      reads this
    {
      Tables(bookings, foodBookings)
    }

    /** A database whose catalogue holds `halls` and `packages` and nothing else. */
    constructor (halls: map<Id, Hall>, packages: map<Id, FoodPackage>)
      ensures Valid()
      ensures this.halls == halls && this.packages == packages
      ensures admins == [] && organizers == [] && bookings == map[] && foodBookings == map[]
      ensures nextId == 0
    {
      this.halls := halls;
      this.packages := packages;
      admins, organizers := [], [];
      bookings, foodBookings := map[], map[];
      nextId := 0;
    }

    /** The `inserted_id` of the next `insert_one`. */
    method NewId() returns (id: Id)
      modifies this`nextId
      ensures id == old(nextId) && nextId == id + 1
    {
      id := nextId;
      nextId := nextId + 1;
    }
  }

  datatype Role = AdminRole | OrganizerRole

  /** The signed-cookie session of one browser. */
  class Session {
    var userId: Option<Id>
    var role: Option<Role>
    var username: Option<string>
    var entryMode: Option<string>
    /** `hall_booking_id`: the hall booking waiting to be linked to a food booking. */
    var hallBookingId: Option<Id>

    constructor ()
      ensures userId == None && role == None && username == None
      ensures entryMode == None && hallBookingId == None
    {
      userId, role, username := None, None, None;
      entryMode, hallBookingId := None, None;
    }
  }
}
