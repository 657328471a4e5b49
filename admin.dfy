/** The admin side of bookings (admin_routes.py): approving and rejecting, with
    the cascade to a linked food booking and a notification attempted after the
    writes, and the four listings that classify bookings for display. */
module AdminRoutes {
  import opened Store
  import AuthRoutes
  import OrganizerRoutes

  datatype Mail =
    | HallConfirmation(to: string, hallPrice: real)
    | HallAndFoodConfirmation(to: string, hallPrice: real, totalAmount: real)
    | HallRejection(to: string)
    | FoodRejection(to: string)

  /** What became of the notification: not attempted (no reachable organizer,
      or no hall or package), sent, or failed and reported as a warning. */
  datatype Notice = NotAttempted | Sent(mail: Mail) | SendFailed(mail: Mail)

  datatype Reply =
    | LoginFirst
    | BookingNotFound
    | ApprovalDone(notice: Notice)
    | RejectionDone(notice: Notice)
    | FoodRejectionDone(notice: Notice)

  /** `update_one` setting a food booking's status: no effect when no food
      booking has the id. */
  function SetFoodStatus(foods: map<Id, FoodBooking>, f: Id, s: Status): (r: map<Id, FoodBooking>)
    ensures r.Keys == foods.Keys
    ensures forall k :: k in foods ==> r[k] == if k == f then foods[k].(status := s) else foods[k]
  {
    if f in foods then foods[f := foods[f].(status := s)] else foods
  }

  /** A decision on hall booking `id`: it takes status `s`, the food booking its
      link names takes `s` too when it exists, and no other record changes. */
  function Cascade(t: Tables, id: Id, s: Status): (r: Tables)
    requires id in t.bookings
    ensures r.bookings == t.bookings[id := t.bookings[id].(status := s)]
    ensures r.foodBookings.Keys == t.foodBookings.Keys
    ensures forall k :: k in t.foodBookings ==>
      r.foodBookings[k] ==
        if t.bookings[id].linkedFood == Some(k) then t.foodBookings[k].(status := s) else t.foodBookings[k]
  {
    var link := t.bookings[id].linkedFood;
    Tables(t.bookings[id := t.bookings[id].(status := s)],
           if link.Some? then SetFoodStatus(t.foodBookings, link.value, s) else t.foodBookings)
  }

  /** The writes of `approve`: only hall bookings are searched, so an id that
      names no hall booking (a standalone food booking included) changes nothing. */
  function ApproveTables(t: Tables, id: Id): (r: Tables)
    ensures id !in t.bookings ==> r == t
    ensures id in t.bookings ==> r == Cascade(t, id, Approved)
  {
    if id in t.bookings then Cascade(t, id, Approved) else t
  }

  /** The writes of `reject`: a hall booking is rejected with its linked food
      booking; failing that a food booking is rejected alone; failing both,
      nothing changes. */
  function RejectTables(t: Tables, id: Id): (r: Tables)
    ensures id in t.bookings ==> r == Cascade(t, id, Rejected)
    ensures id !in t.bookings && id in t.foodBookings ==>
      r.bookings == t.bookings &&
      r.foodBookings == t.foodBookings[id := t.foodBookings[id].(status := Rejected)]
    ensures id !in t.bookings && id !in t.foodBookings ==> r == t
  {
    if id in t.bookings then Cascade(t, id, Rejected)
    else Tables(t.bookings, SetFoodStatus(t.foodBookings, id, Rejected))
  }

  /** The food booking a truthy link resolves to, if any. */
  function Resolve(foods: map<Id, FoodBooking>, link: Option<Id>): (r: Option<FoodBooking>)
    ensures r.Some? <==> link.Some? && link.value in foods
    ensures r.Some? ==> r.value == foods[link.value]
  {
    if link.Some? && link.value in foods then Some(foods[link.value]) else None
  }

  /** The address to notify: that of the organizer with `orgId`, when there is
      one and its email is non-empty. */
  function Recipient(organizers: seq<Organizer>, orgId: Id): (r: Option<string>)
    ensures r.Some? ==> r.value != ""
    ensures r.Some? ==>
      exists j :: 0 <= j < |organizers| && organizers[j].id == orgId && organizers[j].email == r.value
    ensures (forall j :: 0 <= j < |organizers| ==> organizers[j].id != orgId) ==> r.None?
    ensures forall j :: FirstWithId(organizers, orgId, j) ==>
      r == if organizers[j].email != "" then Some(organizers[j].email) else None
  {
    var k := FindOrganizer(organizers, orgId);
    if k.Some? && organizers[k.value].email != "" then Some(organizers[k.value].email) else None
  }

  /** The approval mail: with a resolved food booking it carries the combined
      amount, hall price plus food price, each missing price counting as zero. */
  function ConfirmationMail(to: string, b: HallBooking, food: Option<FoodBooking>): (m: Mail)
    ensures (m.HallConfirmation? || m.HallAndFoodConfirmation?) && m.to == to
    ensures m.hallPrice == OrZero(b.totalPrice)
    ensures m.HallAndFoodConfirmation? <==> food.Some?
    ensures food.Some? ==> m.totalAmount == OrZero(b.totalPrice) + OrZero(food.value.totalPrice)
  {
    var hallPrice := OrZero(b.totalPrice);
    if food.Some? then HallAndFoodConfirmation(to, hallPrice, hallPrice + OrZero(food.value.totalPrice))
    else HallConfirmation(to, hallPrice)
  }

  /** Sending `m` through a transport that fails exactly when `fails`. */
  function Attempt(m: Mail, fails: bool): (n: Notice)
    ensures !n.NotAttempted? && n.mail == m
    ensures n.SendFailed? <==> fails
  {
    if fails then SendFailed(m) else Sent(m)
  }

  /** `approve`: the status writes are made first and do not depend on whether
      the mail goes out; a failed mail becomes a warning in the reply. */
  method Approve(db: Database, session: Session, id: Id, mailFails: bool) returns (reply: Reply)
    requires db.Valid()
    modifies db`bookings, db`foodBookings
    ensures db.Valid()
    ensures session.userId.None? ==> reply == LoginFirst && unchanged(db)
    ensures session.userId.Some? ==> db.BookingTables() == ApproveTables(old(db.BookingTables()), id)
    ensures session.userId.Some? && id !in old(db.bookings) ==> reply == BookingNotFound
    ensures session.userId.Some? && id in old(db.bookings) ==>
      var b := old(db.bookings)[id];
      var to := Recipient(db.organizers, b.orgId);
      reply == ApprovalDone(
        if to.Some? && b.hallId in db.halls
        then Attempt(ConfirmationMail(to.value, b, Resolve(old(db.foodBookings), b.linkedFood)), mailFails)
        else NotAttempted)
    ensures old(Coherent(db.BookingTables(), session.hallBookingId)) ==>
      Coherent(db.BookingTables(), session.hallBookingId)
  {
    var signedIn := AuthRoutes.LoginRequired(session);
    if !signedIn {
      return LoginFirst;
    }
    if id !in db.bookings {
      return BookingNotFound;
    }
    ghost var t := db.BookingTables();
    var booking := db.bookings[id];
    db.bookings := db.bookings[id := booking.(status := Approved)];
    var food: Option<FoodBooking> := None;
    if booking.linkedFood.Some? {
      food := Resolve(db.foodBookings, booking.linkedFood);
      if food.Some? {
        db.foodBookings := db.foodBookings[booking.linkedFood.value := food.value.(status := Approved)];
      }
    }
    assert db.BookingTables() == ApproveTables(t, id);
    if Coherent(t, session.hallBookingId) {
      DecisionsKeepCoherent(t, session.hallBookingId, id);
    }
    var to := Recipient(db.organizers, booking.orgId);
    if to.Some? && booking.hallId in db.halls {
      reply := ApprovalDone(Attempt(ConfirmationMail(to.value, booking, food), mailFails));
    } else {
      reply := ApprovalDone(NotAttempted);
    }
  }

  /** `reject`: hall bookings are tried first, then food bookings; an id in
      neither changes nothing. The writes precede the mail, whose failure only
      turns into a warning. */
  method Reject(db: Database, session: Session, id: Id, mailFails: bool) returns (reply: Reply)
    requires db.Valid()
    modifies db`bookings, db`foodBookings
    ensures db.Valid()
    ensures session.userId.None? ==> reply == LoginFirst && unchanged(db)
    ensures session.userId.Some? ==> db.BookingTables() == RejectTables(old(db.BookingTables()), id)
    ensures session.userId.Some? && id in old(db.bookings) ==>
      var b := old(db.bookings)[id];
      var to := Recipient(db.organizers, b.orgId);
      reply == RejectionDone(
        if to.Some? && b.hallId in db.halls then Attempt(HallRejection(to.value), mailFails) else NotAttempted)
    ensures session.userId.Some? && id !in old(db.bookings) && id in old(db.foodBookings) ==>
      var f := old(db.foodBookings)[id];
      var to := Recipient(db.organizers, f.orgId);
      reply == FoodRejectionDone(
        if to.Some? && f.packageId in db.packages then Attempt(FoodRejection(to.value), mailFails)
        else NotAttempted)
    ensures session.userId.Some? && id !in old(db.bookings) && id !in old(db.foodBookings) ==>
      reply == BookingNotFound
    ensures old(Coherent(db.BookingTables(), session.hallBookingId)) ==>
      Coherent(db.BookingTables(), session.hallBookingId)
  {
    var signedIn := AuthRoutes.LoginRequired(session);
    if !signedIn {
      return LoginFirst;
    }
    ghost var t := db.BookingTables();
    if Coherent(t, session.hallBookingId) {
      DecisionsKeepCoherent(t, session.hallBookingId, id);
    }
    if id in db.bookings {
      var booking := db.bookings[id];
      db.bookings := db.bookings[id := booking.(status := Rejected)];
      if booking.linkedFood.Some? {
        db.foodBookings := SetFoodStatus(db.foodBookings, booking.linkedFood.value, Rejected);
      }
      var to := Recipient(db.organizers, booking.orgId);
      reply := RejectionDone(
        if to.Some? && booking.hallId in db.halls then Attempt(HallRejection(to.value), mailFails)
        else NotAttempted);
    } else if id in db.foodBookings {
      var food := db.foodBookings[id];
      db.foodBookings := db.foodBookings[id := food.(status := Rejected)];
      var to := Recipient(db.organizers, food.orgId);
      reply := FoodRejectionDone(
        if to.Some? && food.packageId in db.packages then Attempt(FoodRejection(to.value), mailFails)
        else NotAttempted);
    } else {
      reply := BookingNotFound;
    }
    assert db.BookingTables() == RejectTables(t, id);
    SameKeysKeepIdsIssued(db.admins, db.organizers, t, db.BookingTables(), db.nextId);
  }

  /** `r` differs from `t` at most in the statuses of its records. */
  ghost predicate StatusesOnly(t: Tables, r: Tables) {
    && r.bookings.Keys == t.bookings.Keys
    && r.foodBookings.Keys == t.foodBookings.Keys
    && (forall h :: h in t.bookings ==> r.bookings[h] == t.bookings[h].(status := r.bookings[h].status))
    && (forall f :: f in t.foodBookings ==>
          r.foodBookings[f] == t.foodBookings[f].(status := r.foodBookings[f].status))
  }

  /** Coherence never looks at a status. */
  lemma StatusesOnlyKeepCoherent(t: Tables, r: Tables, slot: Option<Id>)
    requires Coherent(t, slot) && StatusesOnly(t, r)
    ensures Coherent(r, slot)
  {
  }

  /** Approve and reject change statuses only, so they keep the booking state coherent. */
  lemma {:induction false} DecisionsKeepCoherent(t: Tables, slot: Option<Id>, id: Id)
    requires Coherent(t, slot)
    ensures Coherent(ApproveTables(t, id), slot)
    ensures Coherent(RejectTables(t, id), slot)
  {
    assert StatusesOnly(t, ApproveTables(t, id));
    StatusesOnlyKeepCoherent(t, ApproveTables(t, id), slot);
    assert StatusesOnly(t, RejectTables(t, id));
    StatusesOnlyKeepCoherent(t, RejectTables(t, id), slot);
  }

  /** Deciding a hall booking whose link is consistent gives both sides of the
      pair the same status and leaves the link in place. */
  lemma LinkedPairDecidedTogether(t: Tables, h: Id, s: Status)
    requires LinksConsistent(t)
    requires h in t.bookings && t.bookings[h].linkedFood.Some?
    ensures var f := t.bookings[h].linkedFood.value;
      var r := Cascade(t, h, s);
      && f in r.foodBookings
      && r.bookings[h].status == s && r.foodBookings[f].status == s
      && r.foodBookings[f].linkedHall == Some(h)
  {
  }

  /** Rejecting the food side of a linked pair goes through the food-booking
      fallback: the food booking is rejected and every hall booking, its own
      hall booking included, keeps its status. */
  lemma RejectFoodSideLeavesHall(t: Tables, f: Id)
    requires LinksConsistent(t)
    requires t.bookings.Keys !! t.foodBookings.Keys
    requires f in t.foodBookings && t.foodBookings[f].linkedHall.Some?
    ensures var h := t.foodBookings[f].linkedHall.value;
      var r := RejectTables(t, f);
      && r.bookings == t.bookings
      && r.foodBookings[f].status == Rejected
      && r.bookings[h].status == t.bookings[h].status
  {
  }

  /** Approving twice writes what approving once writes. */
  lemma ApproveTwiceSameTables(t: Tables, id: Id)
    ensures ApproveTables(ApproveTables(t, id), id) == ApproveTables(t, id)
  {
  }

  /** The linked flow end to end: a hall booking `h`, then a food booking `f`
      in the same session, leaves `h` and `f` pointing at each other, both
      pending; approving `h` then approves both, and the state stays coherent. */
  lemma {:induction false} HallThenFoodThenApprove(t: Tables, slot: Option<Id>, h: Id, f: Id,
                                                   hall: HallBooking, food: FoodBooking)
    requires Coherent(t, slot)
    requires h !in t.bookings && h !in t.foodBookings && f !in t.bookings && f !in t.foodBookings
    requires h != f
    requires hall.status == Pending && hall.bookingType == HallType && hall.linkedFood.None?
    requires food.status == Pending && food.bookingType == FoodType
    ensures var linked := OrganizerRoutes.BookFoodTables(t.(bookings := t.bookings[h := hall]), Some(h), f, food);
      && linked.bookings[h].linkedFood == Some(f) && linked.foodBookings[f].linkedHall == Some(h)
      && linked.bookings[h].status == Pending && linked.foodBookings[f].status == Pending
    ensures var linked := OrganizerRoutes.BookFoodTables(t.(bookings := t.bookings[h := hall]), Some(h), f, food);
      var done := ApproveTables(linked, h);
      && done.bookings[h].status == Approved && done.foodBookings[f].status == Approved
      && Coherent(done, None)
  {
    var booked := t.(bookings := t.bookings[h := hall]);
    OrganizerRoutes.BookHallKeepsCoherent(t, slot, h, hall);
    assert f !in booked.bookings;
    OrganizerRoutes.BookFoodKeepsCoherent(booked, Some(h), f, food);
    var linked := OrganizerRoutes.BookFoodTables(booked, Some(h), f, food);
    DecisionsKeepCoherent(linked, None, h);
    LinkedPairDecidedTogether(linked, h, Approved);
  }

  // ---------------- listings ----------------

  datatype Combined = HallOnly | FoodOnly | HallAndFood

  /** A display column: never assigned, set to None, or set to a value. */
  datatype Cell<T> = Unset | Null | Set(value: T)

  /** The columns a listing adds to each booking it shows. */
  datatype Row = Row(
    organizerName: string,
    organizerEmail: string,
    hallName: string,
    combined: Combined,
    foodPlates: Cell<int>,
    foodTotal: Cell<real>)

  /** The category of a hall booking, from its food link alone. */
  function Classify(b: HallBooking): (c: Combined)
    ensures c != FoodOnly
    ensures c == HallAndFood <==> b.linkedFood.Some?
  {
    if b.linkedFood.Some? then HallAndFood else HallOnly
  }

  /** The queries of the three filtered listings. */
  predicate InHallOnlyView(b: HallBooking): (selected: bool)
    ensures selected <==> b.bookingType == HallType && Classify(b) == HallOnly
  {
    b.bookingType == HallType && b.linkedFood.None?
  }

  predicate InHallFoodView(b: HallBooking): (selected: bool)
    ensures selected <==> b.bookingType == HallType && Classify(b) == HallAndFood
  {
    b.bookingType == HallType && b.linkedFood.Some?
  }

  predicate InFoodOnlyView(f: FoodBooking) {
    f.bookingType == FoodType && f.linkedHall.None?
  }

  /** The `organizer_name` column: the name of the first organizer with the
      booking's organizer id, or "N/A" when there is none. */
  function OrganizerName(organizers: seq<Organizer>, orgId: Id): (name: string)
    ensures forall j :: FirstWithId(organizers, orgId, j) ==> name == organizers[j].name
    ensures (forall j :: 0 <= j < |organizers| ==> organizers[j].id != orgId) ==> name == "N/A"
  {
    var k := FindOrganizer(organizers, orgId);
    if k.Some? then organizers[k.value].name else "N/A"
  }

  /** The `organizer_email` column: that organizer's email, or "" when there is none. */
  function OrganizerEmail(organizers: seq<Organizer>, orgId: Id): (email: string)
    ensures forall j :: FirstWithId(organizers, orgId, j) ==> email == organizers[j].email
    ensures (forall j :: 0 <= j < |organizers| ==> organizers[j].id != orgId) ==> email == ""
  {
    var k := FindOrganizer(organizers, orgId);
    if k.Some? then organizers[k.value].email else ""
  }

  /** The `hall_name` column: the booked hall's title, or "N/A" when the hall is gone. */
  function HallName(halls: map<Id, Hall>, hallId: Id): (name: string)
    ensures hallId in halls ==> name == halls[hallId].title
    ensures hallId !in halls ==> name == "N/A"
  {
    if hallId in halls then halls[hallId].title else "N/A"
  }

  /** A row of the all-bookings listing. A link that does not resolve leaves
      the food columns unassigned. */
  function AllViewRow(b: HallBooking, foods: map<Id, FoodBooking>, organizers: seq<Organizer>,
                      halls: map<Id, Hall>): (r: Row)
    ensures r.organizerName == OrganizerName(organizers, b.orgId)
    ensures r.organizerEmail == OrganizerEmail(organizers, b.orgId)
    ensures r.hallName == HallName(halls, b.hallId)
    ensures r.combined == Classify(b)
    ensures r.foodPlates == Null <==> b.linkedFood.None?
    ensures r.foodTotal == Null <==> b.linkedFood.None?
    ensures r.foodPlates.Set? <==> Resolve(foods, b.linkedFood).Some?
    ensures r.foodTotal.Set? <==> Resolve(foods, b.linkedFood).Some?
    ensures Resolve(foods, b.linkedFood).Some? ==>
      r.foodPlates == Set(Resolve(foods, b.linkedFood).value.plates) &&
      r.foodTotal == Set(OrZero(Resolve(foods, b.linkedFood).value.totalPrice))
  {
    var food := Resolve(foods, b.linkedFood);
    Row(OrganizerName(organizers, b.orgId), OrganizerEmail(organizers, b.orgId),
        HallName(halls, b.hallId), Classify(b),
        if b.linkedFood.None? then Null else if food.Some? then Set(food.value.plates) else Unset,
        if b.linkedFood.None? then Null else if food.Some? then Set(OrZero(food.value.totalPrice)) else Unset)
  }

  function HallOnlyRow(b: HallBooking, organizers: seq<Organizer>, halls: map<Id, Hall>): (r: Row)
    ensures r.organizerName == OrganizerName(organizers, b.orgId)
    ensures r.organizerEmail == OrganizerEmail(organizers, b.orgId)
    ensures r.hallName == HallName(halls, b.hallId)
    ensures r.combined == HallOnly && r.foodPlates == Null && r.foodTotal == Null
  {
    Row(OrganizerName(organizers, b.orgId), OrganizerEmail(organizers, b.orgId),
        HallName(halls, b.hallId), HallOnly, Null, Null)
  }

  /** A row of the hall-and-food listing. A link that does not resolve sets the
      food columns to None. */
  function HallFoodRow(b: HallBooking, foods: map<Id, FoodBooking>, organizers: seq<Organizer>,
                       halls: map<Id, Hall>): (r: Row)
    ensures r.organizerName == OrganizerName(organizers, b.orgId)
    ensures r.organizerEmail == OrganizerEmail(organizers, b.orgId)
    ensures r.hallName == HallName(halls, b.hallId)
    ensures r.combined == HallAndFood
    ensures r.foodPlates.Set? <==> Resolve(foods, b.linkedFood).Some?
    ensures Resolve(foods, b.linkedFood).Some? ==>
      r.foodPlates == Set(Resolve(foods, b.linkedFood).value.plates) &&
      r.foodTotal == Set(OrZero(Resolve(foods, b.linkedFood).value.totalPrice))
    ensures r.foodPlates.Null? <==> Resolve(foods, b.linkedFood).None?
    ensures r.foodTotal.Null? <==> Resolve(foods, b.linkedFood).None?
  {
    var food := Resolve(foods, b.linkedFood);
    Row(OrganizerName(organizers, b.orgId), OrganizerEmail(organizers, b.orgId),
        HallName(halls, b.hallId), HallAndFood,
        if food.Some? then Set(food.value.plates) else Null,
        if food.Some? then Set(OrZero(food.value.totalPrice)) else Null)
  }

  function FoodOnlyRow(f: FoodBooking, organizers: seq<Organizer>): (r: Row)
    ensures r.organizerName == OrganizerName(organizers, f.orgId)
    ensures r.organizerEmail == OrganizerEmail(organizers, f.orgId)
    ensures r.combined == FoodOnly && r.hallName == "-"
    ensures r.foodPlates == Set(f.plates) && r.foodTotal == Set(OrZero(f.totalPrice))
  {
    Row(OrganizerName(organizers, f.orgId), OrganizerEmail(organizers, f.orgId),
        "-", FoodOnly, Set(f.plates), Set(OrZero(f.totalPrice)))
  }

  /** The loop of a listing: each document the query selects gets its row. */
  method Decorate<D>(docs: map<Id, D>, selected: D -> bool, rowOf: D -> Row) returns (rows: map<Id, Row>)
    ensures rows.Keys == set id | id in docs && selected(docs[id])
    ensures forall id :: id in rows ==> rows[id] == rowOf(docs[id])
  {
    var todo := set id | id in docs && selected(docs[id]);
    rows := map[];
    while todo != {}
      invariant todo <= set id | id in docs && selected(docs[id])
      invariant rows.Keys == (set id | id in docs && selected(docs[id])) - todo
      invariant forall id :: id in rows ==> id in docs && rows[id] == rowOf(docs[id])
      decreases todo
    {
      var id :| id in todo;
      rows := rows[id := rowOf(docs[id])];
      todo := todo - {id};
    }
  }

  /** `bookings`: every hall-collection document, classified by its link.
      Behind `login_required`: a request without a signed-in user gets no listing. */
  method AllBookingsView(db: Database, session: Session) returns (listing: Option<map<Id, Row>>)
    ensures listing.Some? <==> session.userId.Some?
    ensures listing.Some? ==> listing.value.Keys == db.bookings.Keys
    ensures listing.Some? ==> forall id :: id in listing.value ==>
      listing.value[id] == AllViewRow(db.bookings[id], db.foodBookings, db.organizers, db.halls)
  {
    var signedIn := AuthRoutes.LoginRequired(session);
    if !signedIn {
      return None;
    }
    var foods, organizers, halls := db.foodBookings, db.organizers, db.halls;
    var rows := Decorate(db.bookings, (b: HallBooking) => true,
                         (b: HallBooking) => AllViewRow(b, foods, organizers, halls));
    listing := Some(rows);
  }

  /** `hall_bookings`: hall-type bookings without a food link, for a signed-in user. */
  method HallOnlyView(db: Database, session: Session) returns (listing: Option<map<Id, Row>>)
    ensures listing.Some? <==> session.userId.Some?
    ensures listing.Some? ==>
      listing.value.Keys == set id | id in db.bookings && InHallOnlyView(db.bookings[id])
    ensures listing.Some? ==> forall id :: id in listing.value ==>
      listing.value[id] == HallOnlyRow(db.bookings[id], db.organizers, db.halls)
  {
    var signedIn := AuthRoutes.LoginRequired(session);
    if !signedIn {
      return None;
    }
    var organizers, halls := db.organizers, db.halls;
    var rows := Decorate(db.bookings, InHallOnlyView, (b: HallBooking) => HallOnlyRow(b, organizers, halls));
    listing := Some(rows);
  }

  /** `hall_food_bookings`: hall-type bookings with a food link, for a signed-in user. */
  method HallFoodView(db: Database, session: Session) returns (listing: Option<map<Id, Row>>)
    ensures listing.Some? <==> session.userId.Some?
    ensures listing.Some? ==>
      listing.value.Keys == set id | id in db.bookings && InHallFoodView(db.bookings[id])
    ensures listing.Some? ==> forall id :: id in listing.value ==>
      listing.value[id] == HallFoodRow(db.bookings[id], db.foodBookings, db.organizers, db.halls)
  {
    var signedIn := AuthRoutes.LoginRequired(session);
    if !signedIn {
      return None;
    }
    var foods, organizers, halls := db.foodBookings, db.organizers, db.halls;
    var rows := Decorate(db.bookings, InHallFoodView,
                         (b: HallBooking) => HallFoodRow(b, foods, organizers, halls));
    listing := Some(rows);
  }

  /** `food_bookings`: food-type bookings without a hall link, for a signed-in user. */
  method FoodOnlyView(db: Database, session: Session) returns (listing: Option<map<Id, Row>>)
    ensures listing.Some? <==> session.userId.Some?
    ensures listing.Some? ==>
      listing.value.Keys == set id | id in db.foodBookings && InFoodOnlyView(db.foodBookings[id])
    ensures listing.Some? ==> forall id :: id in listing.value ==>
      listing.value[id] == FoodOnlyRow(db.foodBookings[id], db.organizers)
  {
    var signedIn := AuthRoutes.LoginRequired(session);
    if !signedIn {
      return None;
    }
    var organizers := db.organizers;
    var rows := Decorate(db.foodBookings, InFoodOnlyView, (f: FoodBooking) => FoodOnlyRow(f, organizers));
    listing := Some(rows);
  }

  /** The hall-only and hall-and-food queries split the hall-type bookings, and
      the all-bookings category agrees with the query that selects a booking. */
  lemma HallViewsPartition(b: HallBooking)
    requires b.bookingType == HallType
    ensures InHallOnlyView(b) <==> !InHallFoodView(b)
    ensures Classify(b) == HallOnly <==> InHallOnlyView(b)
    ensures Classify(b) == HallAndFood <==> InHallFoodView(b)
  {
  }

  /** A booking gets the same row in the all-bookings listing as in the filtered
      listing that selects it, except for a link that does not resolve: the
      all-bookings row leaves the food columns unassigned, the other sets them to None. */
  lemma ViewRowsAgree(b: HallBooking, foods: map<Id, FoodBooking>, organizers: seq<Organizer>,
                      halls: map<Id, Hall>)
    ensures InHallOnlyView(b) ==> AllViewRow(b, foods, organizers, halls) == HallOnlyRow(b, organizers, halls)
    ensures InHallFoodView(b) && b.linkedFood.value in foods ==>
      AllViewRow(b, foods, organizers, halls) == HallFoodRow(b, foods, organizers, halls)
    ensures InHallFoodView(b) && b.linkedFood.value !in foods ==>
      AllViewRow(b, foods, organizers, halls).foodPlates == Unset &&
      AllViewRow(b, foods, organizers, halls).foodTotal == Unset &&
      HallFoodRow(b, foods, organizers, halls).foodPlates == Null &&
      HallFoodRow(b, foods, organizers, halls).foodTotal == Null
  {
  }

  /** In a coherent store each booking is shown by exactly one filtered
      listing: each hall booking by one of the two hall listings, and each food
      booking either as food-only or, never both, as the food side of a hall
      booking listed as hall-and-food that links back to it. */
  lemma EveryBookingListed(t: Tables)
    requires LinksConsistent(t) && Typed(t)
    ensures forall h :: h in t.bookings ==> (InHallOnlyView(t.bookings[h]) <==> !InHallFoodView(t.bookings[h]))
    ensures forall f :: f in t.foodBookings && !InFoodOnlyView(t.foodBookings[f]) ==>
      t.foodBookings[f].linkedHall.Some? &&
      t.foodBookings[f].linkedHall.value in t.bookings &&
      InHallFoodView(t.bookings[t.foodBookings[f].linkedHall.value]) &&
      t.bookings[t.foodBookings[f].linkedHall.value].linkedFood == Some(f)
    ensures forall h :: h in t.bookings && InHallFoodView(t.bookings[h]) ==>
      t.bookings[h].linkedFood.value in t.foodBookings &&
      !InFoodOnlyView(t.foodBookings[t.bookings[h].linkedFood.value])
  {
  }
}
