/** Booking a hall, then food, by an organizer (organizer_routes.py): the
    two-step protocol that links the food booking to the hall booking through
    the session slot `hall_booking_id`. */
module OrganizerRoutes {
  import opened Store
  import AuthRoutes

  /** The hall booking form; an optional field is `None` when missing or blank. */
  datatype HallForm = HallForm(
    fromDate: string,
    toDate: string,
    numPeople: int,
    eventName: string,
    description: Option<string>,
    foodRequired: Option<string>,
    totalHours: Option<real>,
    totalPrice: Option<real>)

  datatype Reply =
    | LoginFirst
    | HallNotFound
    | PackageNotFound
    | HallBooked(bookingId: Id)
    | FoodBooked(foodBookingId: Id)

  /** The record `book_hall` stores: a pending hall booking for the signed-in
      organizer, with no food link, and blank numbers read as zero. */
  function NewHallBooking(orgId: Id, hallId: Id, form: HallForm): (b: HallBooking)
    ensures b.status == Pending && b.bookingType == HallType && b.linkedFood.None?
    ensures b.orgId == orgId && b.hallId == hallId
    ensures b.fromDate == form.fromDate && b.toDate == form.toDate
    ensures b.numPeople == form.numPeople && b.eventName == form.eventName
    ensures b.description == (if form.description.Some? then form.description.value else "")
    ensures b.totalPrice == Some(OrZero(form.totalPrice)) && b.totalHours == OrZero(form.totalHours)
    ensures b.foodRequired <==> form.foodRequired == Some("yes")
  {
    HallBooking(
      orgId, hallId, form.fromDate, form.toDate, form.numPeople, form.eventName,
      if form.description.Some? then form.description.value else "",
      form.foodRequired == Some("yes"),
      Pending,
      OrZero(form.totalHours),
      Some(OrZero(form.totalPrice)),
      HallType,
      None)
  }

  /** The record `book_food` stores before any link is added: a pending food
      booking whose plate count and price read blank as zero. */
  function NewFoodBooking(orgId: Id, packageId: Id, plates: Option<int>, totalPrice: Option<real>)
    : (f: FoodBooking)
    ensures f.status == Pending && f.bookingType == FoodType && f.linkedHall.None?
    ensures f.orgId == orgId && f.packageId == packageId
    ensures f.plates == (if plates.Some? then plates.value else 0)
    ensures f.totalPrice == Some(OrZero(totalPrice))
  {
    FoodBooking(orgId, packageId, if plates.Some? then plates.value else 0,
                Some(OrZero(totalPrice)), Pending, FoodType, None)
  }

  /** The end state of a successful `book_food`: the new food booking `f`
      carries the slot as its hall link, the hall booking the slot names (if it
      exists) links forward to `f`, and nothing else changes. */
  function BookFoodTables(t: Tables, slot: Option<Id>, f: Id, rec: FoodBooking): (r: Tables)
    ensures r.foodBookings.Keys == t.foodBookings.Keys + {f}
    ensures r.foodBookings[f] == rec.(linkedHall := slot)
    ensures forall k :: k in t.foodBookings && k != f ==> r.foodBookings[k] == t.foodBookings[k]
    ensures r.bookings.Keys == t.bookings.Keys
    ensures forall k :: k in t.bookings ==>
      r.bookings[k] == if slot == Some(k) then t.bookings[k].(linkedFood := Some(f)) else t.bookings[k]
  {
    var bookings :=
      if slot.Some? && slot.value in t.bookings
      then t.bookings[slot.value := t.bookings[slot.value].(linkedFood := Some(f))]
      else t.bookings;
    Tables(bookings, t.foodBookings[f := rec.(linkedHall := slot)])
  }

  /** `update_one` setting a hall booking's food link: no effect when no
      hall booking has the id. */
  function SetFoodLink(bookings: map<Id, HallBooking>, h: Id, link: Option<Id>)
    : (r: map<Id, HallBooking>)
    ensures r.Keys == bookings.Keys
    ensures forall k :: k in bookings ==>
      r[k] == if k == h then bookings[k].(linkedFood := link) else bookings[k]
  {
    if h in bookings then bookings[h := bookings[h].(linkedFood := link)] else bookings
  }

  /** `book_hall`: an unknown hall changes nothing; otherwise exactly one pending
      hall booking is inserted and the session slot is set to it, overwriting
      whatever the slot held. No availability check is made. */
  method BookHall(db: Database, session: Session, hallId: Id, form: HallForm)
    returns (reply: Reply)
    requires db.Valid()
    modifies db`bookings, db`nextId, session`hallBookingId
    ensures db.Valid()
    ensures session.userId.None? ==> reply == LoginFirst && unchanged(db, session)
    ensures session.userId.Some? && hallId !in db.halls ==>
      reply == HallNotFound && unchanged(db, session)
    ensures session.userId.Some? && hallId in db.halls ==>
      var id := old(db.nextId);
      && reply == HallBooked(id)
      && id !in old(db.bookings) && id !in db.foodBookings
      && db.bookings == old(db.bookings)[id := NewHallBooking(session.userId.value, hallId, form)]
      && db.nextId == id + 1
      && session.hallBookingId == Some(id)
    ensures old(Coherent(db.BookingTables(), session.hallBookingId)) ==>
      Coherent(db.BookingTables(), session.hallBookingId)
  {
    var signedIn := AuthRoutes.LoginRequired(session);
    if !signedIn {
      return LoginFirst;
    }
    if hallId !in db.halls {
      return HallNotFound;
    }
    var booking := NewHallBooking(session.userId.value, hallId, form);
    var id := db.NewId();
    ghost var t := old(db.BookingTables());
    if Coherent(t, old(session.hallBookingId)) {
      BookHallKeepsCoherent(t, old(session.hallBookingId), id, booking);
    }
    db.bookings := db.bookings[id := booking];
    session.hallBookingId := Some(id);
    reply := HallBooked(id);
  }

  /** `book_food`: an unknown package changes nothing and leaves the slot alone.
      Otherwise one pending food booking is inserted; when the slot names a hall
      booking the two are linked both ways (the hall side only if it exists),
      and the slot is emptied. The hall link is first cleared and then set, as
      `book_food` does; only the final write shows in the end state. */
  method BookFood(db: Database, session: Session, packageId: Id, plates: Option<int>,
                  totalPrice: Option<real>)
    returns (reply: Reply)
    requires db.Valid()
    modifies db`bookings, db`foodBookings, db`nextId, session`hallBookingId
    ensures db.Valid()
    ensures session.userId.None? ==> reply == LoginFirst && unchanged(db, session)
    ensures session.userId.Some? && packageId !in db.packages ==>
      reply == PackageNotFound && unchanged(db, session)
    ensures session.userId.Some? && packageId in db.packages ==>
      var f := old(db.nextId);
      && reply == FoodBooked(f)
      && f !in old(db.foodBookings) && f !in old(db.bookings)
      && db.BookingTables() == BookFoodTables(old(db.BookingTables()), old(session.hallBookingId), f,
                                              NewFoodBooking(session.userId.value, packageId, plates, totalPrice))
      && db.nextId == f + 1
      && session.hallBookingId == None
    ensures old(Coherent(db.BookingTables(), session.hallBookingId)) ==>
      Coherent(db.BookingTables(), session.hallBookingId)
  {
    var signedIn := AuthRoutes.LoginRequired(session);
    if !signedIn {
      return LoginFirst;
    }
    if packageId !in db.packages {
      return PackageNotFound;
    }
    var rec := NewFoodBooking(session.userId.value, packageId, plates, totalPrice);
    ghost var t := db.BookingTables();
    var doc := rec;
    var slot := session.hallBookingId;
    if slot.Some? {
      doc := doc.(linkedHall := slot);
      db.bookings := SetFoodLink(db.bookings, slot.value, None);
    }
    var f := db.NewId();
    db.foodBookings := db.foodBookings[f := doc];
    if slot.Some? {
      db.bookings := SetFoodLink(db.bookings, slot.value, Some(f));
      session.hallBookingId := None;
    }
    assert db.BookingTables() == BookFoodTables(t, slot, f, rec);
    assert db.admins == old(db.admins) && db.organizers == old(db.organizers);
    assert db.bookings.Keys == t.bookings.Keys && db.foodBookings.Keys == t.foodBookings.Keys + {f};
    if Coherent(t, slot) {
      BookFoodKeepsCoherent(t, slot, f, rec);
    }
    reply := FoodBooked(f);
  }

  /** Inserting an unlinked hall booking under a fresh id and pointing the slot
      at it keeps the booking state coherent. */
  lemma BookHallKeepsCoherent(t: Tables, slot: Option<Id>, id: Id, b: HallBooking)
    requires Coherent(t, slot)
    requires id !in t.bookings && id !in t.foodBookings
    requires b.linkedFood.None? && b.bookingType == HallType
    ensures Coherent(t.(bookings := t.bookings[id := b]), Some(id))
  {
  }

  /** A successful `book_food` from a coherent state under a fresh id keeps the
      state coherent: the new pair is linked both ways and the slot is empty. */
  lemma BookFoodKeepsCoherent(t: Tables, slot: Option<Id>, f: Id, rec: FoodBooking)
    requires Coherent(t, slot)
    requires f !in t.foodBookings && f !in t.bookings
    requires rec.bookingType == FoodType
    ensures Coherent(BookFoodTables(t, slot, f, rec), None)
  {
  }

  /** With the slot naming an existing unlinked hall booking `h`, `book_food`
      leaves `h` and the new food booking `f` pointing at each other, both
      pending, with the hall's other fields untouched. */
  lemma LinkedPairAfterBookFood(t: Tables, h: Id, f: Id, rec: FoodBooking)
    requires h in t.bookings && f !in t.foodBookings
    requires rec.status == Pending && t.bookings[h].status == Pending
    ensures var r := BookFoodTables(t, Some(h), f, rec);
      && r.bookings[h] == t.bookings[h].(linkedFood := Some(f))
      && r.foodBookings[f].linkedHall == Some(h)
      && r.bookings[h].status == Pending && r.foodBookings[f].status == Pending
  {
  }

  /** With no slot, `book_food` stores a standalone food booking and modifies
      no hall booking. */
  lemma StandaloneFoodBooking(t: Tables, f: Id, rec: FoodBooking)
    requires rec.linkedHall.None?
    ensures var r := BookFoodTables(t, None, f, rec);
      r.bookings == t.bookings && r.foodBookings[f] == rec
  {
  }
}
