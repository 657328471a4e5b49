/** Sign-in and registration for admins and organizers, and the guard every
    booking and admin view runs behind (auth_routes.py). */
module AuthRoutes {
  import opened Store

  /** Where an organizer lands after signing in. */
  datatype Landing = HallsList | FoodPackages | Dashboard

  datatype LoginReply = AdminWelcome | NotApproved | BadCredentials | OrganizerWelcome(landing: Landing)

  datatype RegisterReply =
    | UsernameTaken
    | FirstAdminApproved
      /** A pending request; `notifyMainAdmin` is the address of the first
          admin, told of the request when its username is non-empty. */
    | AwaitingApproval(notifyMainAdmin: Option<string>)

  /** `login_required`: the wrapped view runs only for a session that carries a
      user id; every other request is sent to the admin sign-in page. */
  method LoginRequired(session: Session) returns (proceed: bool)
    ensures proceed <==> session.userId.Some?
  {
    proceed := session.userId.Some?;
  }

  /** The approval gate of admin sign-in: an account stored without a status
      counts as approved, and any stored status other than approved blocks. */
  function AdminMayLogin(status: Option<Status>): (ok: bool)
    ensures ok <==> status != Some(Pending) && status != Some(Rejected)
  {
    match status
    case None => true
    case Some(s) => s == Approved
  }

  /** The page an organizer is sent to, chosen by the `next` argument. */
  function LandingPage(next: string): (p: Landing)
    ensures p == HallsList <==> next == "hall"
    ensures p == FoodPackages <==> next == "food"
  {
    if next == "hall" then HallsList
    else if next == "food" then FoodPackages
    else Dashboard
  }

  function FindAdmin(admins: seq<Admin>, username: string): (r: Option<nat>)
    ensures r.Some? ==> r.value < |admins| && admins[r.value].username == username
    ensures r.None? ==> forall j :: 0 <= j < |admins| ==> admins[j].username != username
  {
    FindOne(admins, (a: Admin) => a.username == username)
  }

  function FindOrganizerByEmail(organizers: seq<Organizer>, email: string): (r: Option<nat>)
    ensures r.Some? ==> r.value < |organizers| && organizers[r.value].email == email
    ensures r.None? ==> forall j :: 0 <= j < |organizers| ==> organizers[j].email != email
  {
    FindOne(organizers, (o: Organizer) => o.email == email)
  }

  ghost predicate UniqueUsernames(admins: seq<Admin>) {
    forall i, j :: 0 <= i < j < |admins| ==> admins[i].username != admins[j].username
  }

  ghost predicate UniqueEmails(organizers: seq<Organizer>) {
    forall i, j :: 0 <= i < j < |organizers| ==> organizers[i].email != organizers[j].email
  }

  /** Appending an account whose username no stored account has keeps usernames unique. */
  lemma AdmitFreshUsername(admins: seq<Admin>, a: Admin)
    requires UniqueUsernames(admins)
    requires FindAdmin(admins, a.username).None?
    ensures UniqueUsernames(admins + [a])
  {
  }

  /** Appending an organizer whose email no stored organizer has keeps emails unique. */
  lemma AdmitFreshEmail(organizers: seq<Organizer>, o: Organizer)
    requires UniqueEmails(organizers)
    requires FindOrganizerByEmail(organizers, o.email).None?
    ensures UniqueEmails(organizers + [o])
  {
  }

  /** Admin sign-in: the session is written only when the password verifies
      against the stored hash and the account passes the approval gate. */
  method AdminLogin(db: Database, session: Session, username: string, password: string,
                    verify: (string, string) -> bool)
    returns (reply: LoginReply)
    modifies session`userId, session`role, session`username
    ensures var k := FindAdmin(db.admins, username);
      if k.Some? && verify(db.admins[k.value].passwordHash, password) then
        if AdminMayLogin(db.admins[k.value].status) then
          && reply == AdminWelcome
          && session.userId == Some(db.admins[k.value].id)
          && session.role == Some(AdminRole)
          && session.username == Some(username)
        else reply == NotApproved && unchanged(session)
      else reply == BadCredentials && unchanged(session)
  {
    var k := FindAdmin(db.admins, username);
    if k.Some? && verify(db.admins[k.value].passwordHash, password) {
      var admin := db.admins[k.value];
      if !AdminMayLogin(admin.status) {
        return NotApproved;
      }
      session.userId := Some(admin.id);
      session.role := Some(AdminRole);
      session.username := Some(admin.username);
      return AdminWelcome;
    }
    reply := BadCredentials;
  }

  /** Admin registration: a taken username is refused; the first admin is
      approved at once; every later one waits for approval. At most one account
      is added, and usernames stay unique. */
  method AdminRegister(db: Database, username: string, passwordHash: string)
    returns (reply: RegisterReply)
    requires db.Valid()
    modifies db`admins, db`nextId
    ensures db.Valid()
    ensures FindAdmin(old(db.admins), username).Some? ==>
      reply == UsernameTaken && db.admins == old(db.admins) && db.nextId == old(db.nextId)
    ensures FindAdmin(old(db.admins), username).None? && old(db.admins) == [] ==>
      && reply == FirstAdminApproved
      && db.admins == [Admin(old(db.nextId), username, passwordHash, Some(Approved))]
      && db.nextId == old(db.nextId) + 1
    ensures FindAdmin(old(db.admins), username).None? && old(db.admins) != [] ==>
      && db.admins == old(db.admins) + [Admin(old(db.nextId), username, passwordHash, Some(Pending))]
      && db.nextId == old(db.nextId) + 1
      && reply == AwaitingApproval(
           if old(db.admins)[0].username != "" then Some(old(db.admins)[0].username) else None)
    ensures UniqueUsernames(old(db.admins)) ==> UniqueUsernames(db.admins)
  {
    if FindAdmin(db.admins, username).Some? {
      return UsernameTaken;
    }
    var id := db.NewId();
    if db.admins == [] {
      AdmitFreshUsername(db.admins, Admin(id, username, passwordHash, Some(Approved)));
      db.admins := db.admins + [Admin(id, username, passwordHash, Some(Approved))];
      return FirstAdminApproved;
    }
    var main := db.admins[0];
    if UniqueUsernames(db.admins) {
      AdmitFreshUsername(db.admins, Admin(id, username, passwordHash, Some(Pending)));
    }
    db.admins := db.admins + [Admin(id, username, passwordHash, Some(Pending))];
    // Both notification mails are best effort: a failure is swallowed.
    reply := AwaitingApproval(if main.username != "" then Some(main.username) else None);
  }

  /** Organizer sign-in: on success the session records the organizer and how
      they entered, and the reply names the landing page `next` selects. */
  method OrganizerLogin(db: Database, session: Session, next: Option<string>, email: string,
                        password: string, verify: (string, string) -> bool)
    returns (reply: LoginReply)
    modifies session`userId, session`role, session`entryMode
    ensures var mode := if next.Some? then next.value else "event";
      var k := FindOrganizerByEmail(db.organizers, email);
      if k.Some? && verify(db.organizers[k.value].passwordHash, password) then
        && reply == OrganizerWelcome(LandingPage(mode))
        && session.userId == Some(db.organizers[k.value].id)
        && session.role == Some(OrganizerRole)
        && session.entryMode == Some(mode)
      else reply == BadCredentials && unchanged(session)
  {
    var mode := if next.Some? then next.value else "event";
    var k := FindOrganizerByEmail(db.organizers, email);
    if k.Some? && verify(db.organizers[k.value].passwordHash, password) {
      session.userId := Some(db.organizers[k.value].id);
      session.role := Some(OrganizerRole);
      session.entryMode := Some(mode);
      return OrganizerWelcome(LandingPage(mode));
    }
    reply := BadCredentials;
  }

  /** Organizer registration: inserts exactly when no organizer has the email,
      so emails stay unique. */
  method OrganizerRegister(db: Database, name: string, phone: string, email: string,
                           passwordHash: string, address: string)
    returns (registered: bool)
    requires db.Valid()
    modifies db`organizers, db`nextId
    ensures db.Valid()
    ensures registered <==> FindOrganizerByEmail(old(db.organizers), email).None?
    ensures registered ==>
      db.organizers == old(db.organizers) + [Organizer(old(db.nextId), name, phone, email, passwordHash, address)]
      && db.nextId == old(db.nextId) + 1
    ensures !registered ==> db.organizers == old(db.organizers) && db.nextId == old(db.nextId)
    ensures UniqueEmails(old(db.organizers)) ==> UniqueEmails(db.organizers)
  {
    if FindOrganizerByEmail(db.organizers, email).Some? {
      return false;
    }
    var id := db.NewId();
    var org := Organizer(id, name, phone, email, passwordHash, address);
    if UniqueEmails(db.organizers) {
      AdmitFreshEmail(db.organizers, org);
    }
    db.organizers := db.organizers + [org];
    registered := true;
  }
}
