# Event booking store — a Dafny model

This project models the booking core of an online event-booking web application. The application is written in Python with Flask and MongoDB. The model covers four parts:

- **Organizers** book a hall and then, in the same browser session, a food package. A session slot, `hall_booking_id`, joins the two records: the food booking points at the hall booking and the hall booking points back.
- **Admins** approve or reject bookings. A decision on a hall booking cascades to its linked food booking. The organizer is notified only after the status writes, and a failed notification does not undo them.
- **The four admin listings** (all bookings, hall only, hall and food, food only) classify bookings by their link fields alone.
- **Admin and organizer accounts** are registered and signed in. The first admin is approved at once and later admins wait for approval. Usernames and organizer emails are unique, an approval gate guards admin sign-in, and the `next` argument chooses where an organizer lands after signing in.

The model has four modules:

- `Store` (`store.dfy`) holds the records and the database. The database is a class with one field per collection. Account collections are sequences, searched in natural order by `FindOne`. Booking collections are maps from id to record. `Store` also holds the session class and the coherence invariants of the booking links.
- `AuthRoutes` (`auth.dfy`) models `auth_routes.py`.
- `OrganizerRoutes` (`organizer.dfy`) models `book_hall` and `book_food` in `organizer_routes.py`.
- `AdminRoutes` (`admin.dfy`) models `approve`, `reject` and the four listings in `admin_routes.py`.

Ids are natural numbers drawn from one counter, so an id names at most one document across the database. A missing link field and a `None` link field are both `None`: every reader in the application treats them alike. Each route handler is a method. Its `ensures` gives the whole new state, usually as a function of the old booking tables (`BookFoodTables`, `ApproveTables`, `RejectTables`). Lemmas state what those functions promise.

In these places the code behaves in ways a reader might not expect, and the model follows the code:

- There is no availability or date-overlap check. `book_hall` inserts whatever it is given.
- `approve` searches hall bookings only. A standalone food booking therefore cannot be approved: its id gets "Booking not found" and nothing changes.
- Rejecting the food side of a linked pair goes through the food-booking fallback. It rejects the food booking and leaves the hall booking's status as it was (`AdminRoutes.RejectFoodSideLeavesHall`).
- Neither `approve` nor `reject` checks that a booking is still pending. Approving twice writes the same tables and sends the mail again.
- If an admin approves the hall booking before the organizer books food, the later food booking is linked but pending while the hall is approved. The statuses of a linked pair agree only when the decision comes after linking.
- The role checks `require_admin` and `require_organizer` return a value that the routes ignore. Any signed-in session can therefore approve or reject, so `Approve`, `Reject` and the four listings do not look at the role.
- Admins stored without a status, like the default admin that `app.py` seeds, pass the approval gate.

## Model

| member | source | states |
|---|---|---|
| Store.FindOne | auth_routes.py:30 | `find_one` returns the first document in natural order that matches the filter, or none when no document matches |
| Store.FindOrganizer | admin_routes.py:341 | the organizer lookup by `_id` finds the first organizer, in natural order, with that id, or reports that none has it |
| Store.Database.NewId | organizer_routes.py:68 | each insert gets an id no earlier insert received |
| AuthRoutes.LoginRequired | auth_routes.py:14-20 | the wrapped view runs exactly when the session carries a user id |
| AuthRoutes.AdminMayLogin | auth_routes.py:33 | an admin may sign in exactly when the stored status is neither pending nor rejected, so a missing status counts as approved |
| AuthRoutes.LandingPage | auth_routes.py:124-129 | `next` equal to "hall" leads to the halls list, "food" to the food packages, anything else to the dashboard (both directions of each case) |
| AuthRoutes.FindAdmin | auth_routes.py:30 | the admin lookup by username finds an admin with that username, or reports that none has it |
| AuthRoutes.FindOrganizerByEmail | auth_routes.py:112 | the organizer lookup by email finds an organizer with that email, or reports that none has it |
| AuthRoutes.AdmitFreshUsername | auth_routes.py:54-77 | appending an admin whose username no stored admin has keeps usernames unique |
| AuthRoutes.AdmitFreshEmail | auth_routes.py:146-149 | appending an organizer whose email no stored organizer has keeps emails unique |
| AuthRoutes.AdminLogin | auth_routes.py:24-44 | the session gets the admin's id, the admin role and the username only when the password verifies and the gate passes; otherwise the session is untouched and the reply says whether the account is unapproved or the credentials are wrong |
| AuthRoutes.AdminRegister | auth_routes.py:47-99 | a taken username inserts nothing; the first admin is stored approved; a later admin is stored pending, and the first admin is told when their username is non-empty; at most one admin is added; usernames stay unique |
| AuthRoutes.OrganizerLogin | auth_routes.py:103-133 | on verified credentials the session gets the organizer id, the organizer role and the entry mode (default "event"), and the reply names the landing page; otherwise the session is untouched |
| AuthRoutes.OrganizerRegister | auth_routes.py:136-152 | an organizer is inserted exactly when no stored organizer has the email; emails stay unique |
| OrganizerRoutes.NewHallBooking | organizer_routes.py:54-67 | the stored hall booking is pending, of type hall, and unlinked; dates, head count and event name are copied from the form; a missing description reads as ""; a blank price or hour count reads as zero; `food_required` is true exactly for "yes" |
| OrganizerRoutes.NewFoodBooking | organizer_routes.py:106-116 | the stored food booking is pending, of type food, and unlinked; blank plates and price read as zero |
| OrganizerRoutes.SetFoodLink | organizer_routes.py:122-125 | `update_one` on the hall food link changes only the named hall booking and is a no-op when that booking does not exist |
| OrganizerRoutes.BookFoodTables | organizer_routes.py:119-135 | after `book_food` the new food booking carries the slot as its hall link; only the hall booking the slot names gains the forward link; no other record changes |
| OrganizerRoutes.BookHall | organizer_routes.py:43-75 | a request without a signed-in user, or for an unknown hall, changes nothing; otherwise exactly one pending hall booking is inserted under a fresh id, the slot is overwritten with that id, and the coherence invariant is kept |
| OrganizerRoutes.BookFood | organizer_routes.py:95-140 | a request for an unknown package changes nothing and leaves the slot alone; otherwise the end state is `BookFoodTables` of the old tables and slot under a fresh id, and the slot is emptied; the intermediate `None` write does not show; coherence is kept |
| OrganizerRoutes.BookHallKeepsCoherent | organizer_routes.py:68-71 | inserting an unlinked hall booking under a fresh id and pointing the slot at it keeps the links consistent |
| OrganizerRoutes.BookFoodKeepsCoherent | organizer_routes.py:119-135 | a successful `book_food` keeps every link resolvable and reciprocal and leaves the slot empty |
| OrganizerRoutes.LinkedPairAfterBookFood | organizer_routes.py:119-135 | with the slot naming hall booking H and new food id F, H links to F, F links to H, both are pending, and H's other fields are unchanged |
| OrganizerRoutes.StandaloneFoodBooking | organizer_routes.py:119-130 | with no slot, the food booking has no hall link and no hall booking changes |
| AdminRoutes.SetFoodStatus | admin_routes.py:405-408 | `update_one` on a food status changes only the named food booking and is a no-op when that booking does not exist |
| AdminRoutes.Cascade | admin_routes.py:325-339 | a decision sets the hall booking's status and that of the food booking its link resolves to; no other record changes, so an unlinked or dangling link leaves every food booking alone |
| AdminRoutes.ApproveTables | admin_routes.py:320-339 | an id that names no hall booking, including a standalone food booking's id, changes nothing; otherwise the approval cascades |
| AdminRoutes.RejectTables | admin_routes.py:396-460 | a hall booking is rejected with its linked food booking; otherwise a food booking with the id is rejected alone; otherwise nothing changes |
| AdminRoutes.ConfirmationMail | admin_routes.py:346-379 | the approval mail's hall price is the hall's total price; it carries a combined amount exactly when a food booking was resolved, and that amount is the hall price plus the food price, each missing price counting as zero |
| AdminRoutes.Approve | admin_routes.py:314-388 | without a signed-in user nothing changes; otherwise the tables become `ApproveTables` of the old tables whether or not the mail fails; the mail is attempted only for an organizer with an email and an existing hall; coherence and the id invariant are kept |
| AdminRoutes.Reject | admin_routes.py:390-462 | without a signed-in user nothing changes; otherwise the tables become `RejectTables` of the old tables whether or not the mail fails; the reply distinguishes a hall rejection, a food rejection and "not found"; coherence and the id invariant are kept |
| AdminRoutes.StatusesOnlyKeepCoherent | admin_routes.py:325-339 | writes that change only statuses keep the booking state coherent |
| AdminRoutes.DecisionsKeepCoherent | admin_routes.py:314-462 | approve and reject keep the booking state coherent for any id |
| AdminRoutes.LinkedPairDecidedTogether | admin_routes.py:331-339 | deciding a hall booking of a consistent pair gives both records the same status and keeps the link |
| AdminRoutes.RejectFoodSideLeavesHall | admin_routes.py:433-438 | rejecting the food side of a linked pair rejects that food booking only, and its hall booking keeps its status |
| AdminRoutes.ApproveTwiceSameTables | admin_routes.py:325-339 | approving an id twice writes the same tables as approving it once |
| AdminRoutes.HallThenFoodThenApprove | admin_routes.py:314-339 | booking a hall, then food in the same session, links the two both ways, both pending; approving the hall then approves both and keeps coherence |
| AdminRoutes.Resolve | admin_routes.py:331-335 | a link resolves exactly when it is set and names an existing food booking, and it resolves to that booking |
| AdminRoutes.Recipient | admin_routes.py:341-344 | the first organizer with the booking's organizer id is notified exactly when its email is non-empty, at that email; when no organizer has that id nobody is notified |
| AdminRoutes.OrganizerName | admin_routes.py:172-177 | the `organizer_name` column is the name of the first organizer with the booking's organizer id, and "N/A" when no organizer has it (also admin_routes.py:253-255) |
| AdminRoutes.OrganizerEmail | admin_routes.py:253-256 | the `organizer_email` column is that organizer's email, and "" when no organizer has the id (also admin_routes.py:174-177) |
| AdminRoutes.HallName | admin_routes.py:180-183 | the `hall_name` column is the booked hall's title, and "N/A" when the hall does not exist |
| AdminRoutes.Attempt | admin_routes.py:345-384 | an attempted notification always carries its mail, and it is reported as failed exactly when sending raises, the failure being caught as a warning (also admin_routes.py:414-426, 444-455) |
| AdminRoutes.Classify | admin_routes.py:185-197 | a hall-collection booking is "Hall + Food" exactly when its food link is set and "Hall Only" otherwise, never "Food Only"; `HallViewsPartition` relates it to the filtered listings |
| AdminRoutes.InHallOnlyView | admin_routes.py:208-214 | the hall-only query selects exactly the hall-type bookings classified "Hall Only"; `HallViewsPartition` and `EveryBookingListed` prove it is the complement of the hall-and-food query |
| AdminRoutes.InHallFoodView | admin_routes.py:278-281 | the hall-and-food query selects exactly the hall-type bookings classified "Hall + Food"; `EveryBookingListed` proves every linked food booking is reached through it |
| AdminRoutes.InFoodOnlyView | admin_routes.py:244-250 | the food-only query (food type, no hall link); `EveryBookingListed` proves each food booking it skips is the back-linked side of a hall-and-food booking |
| AdminRoutes.AllViewRow | admin_routes.py:170-197 | the organizer name and email columns are `OrganizerName` and `OrganizerEmail` of the booking's organizer id and the hall name is `HallName` of its hall id; the category is `Classify` of the booking; both food columns are `None` exactly when there is no link; when the link resolves they hold the linked food booking's plates and its price, a missing price counting as zero, and each food column is set exactly when the link resolves; `ViewRowsAgree` relates it to the filtered rows |
| AdminRoutes.HallOnlyRow | admin_routes.py:216-233 | the organizer name and email columns are `OrganizerName` and `OrganizerEmail` of the booking's organizer id and the hall name is `HallName` of its hall id; a hall-only row is classified "Hall Only" with both food columns `None` |
| AdminRoutes.HallFoodRow | admin_routes.py:283-309 | the organizer name and email columns are `OrganizerName` and `OrganizerEmail` of the booking's organizer id and the hall name is `HallName` of its hall id; a hall-and-food row is classified "Hall + Food"; when the link resolves its food columns hold the linked food booking's plates and its price, a missing price counting as zero, and otherwise they are `None` |
| AdminRoutes.FoodOnlyRow | admin_routes.py:252-267 | the organizer name and email columns are `OrganizerName` and `OrganizerEmail` of the booking's organizer id; a food-only row is classified "Food Only" with hall name "-", the booking's plates, and its price with a missing price counting as zero |
| AdminRoutes.Decorate | admin_routes.py:170-197 | a listing holds a row for exactly the documents its query selects, each row built from its document |
| AdminRoutes.AllBookingsView | admin_routes.py:163-199 | without a signed-in user there is no listing (the `login_required` redirect); otherwise the all-bookings listing shows every hall-collection document, with a row classified from its link |
| AdminRoutes.HallOnlyView | admin_routes.py:202-235 | without a signed-in user there is no listing (the `login_required` redirect); otherwise the hall-only listing shows exactly the hall-type bookings with no food link, each with empty food columns |
| AdminRoutes.HallFoodView | admin_routes.py:272-311 | without a signed-in user there is no listing (the `login_required` redirect); otherwise the hall-and-food listing shows exactly the hall-type bookings with a food link; the food columns are set when the link resolves and `None` otherwise |
| AdminRoutes.FoodOnlyView | admin_routes.py:238-269 | without a signed-in user there is no listing (the `login_required` redirect); otherwise the food-only listing shows exactly the food-type bookings with no hall link, with hall name "-" and the plates and price, a missing price counting as zero |
| AdminRoutes.HallViewsPartition | admin_routes.py:208-214 | the hall-only and hall-and-food queries split the hall-type bookings, and the classification agrees with whichever query selects a booking |
| AdminRoutes.ViewRowsAgree | admin_routes.py:185-197 | a booking's all-bookings row equals its row in the filtered listing that selects it, except that a dangling link leaves both food columns unassigned there and `None` in the hall-and-food listing |
| AdminRoutes.EveryBookingListed | admin_routes.py:244-250 | in a coherent store each hall booking is in exactly one filtered listing; each food booking is in exactly one of them: either food-only or, never both, the food side of a hall-and-food booking that links back to it |

## Left out

- Email sending is SMTP I/O. It is modelled as a step after the status writes that may fail, chosen by a `mailFails` parameter. The mail's dates, hall names and package details are not modelled. As `utils_email.py` stands, every approval or rejection mail fails. The approval calls pass keywords that the mail functions do not declare (`hall_address`, `hall_location`, `booking_id`). The rejection paths import functions that `utils_email.py` does not define. These failures are the `mailFails = true` case.
- The two admin-registration mails are swallowed on failure and change no state, so only the first admin's address is returned. The mail to the new admin is not modelled.
- Password hashing and verification live in `utils_security`, which is not part of this model. The hash is a string argument, and verification is a function argument.
- `ObjectId` parsing and the exceptions on a malformed id are left out. So are the `int`/`float` parse errors on form fields: numeric form fields arrive already parsed, with `None` for blank.
- The `GET` branches that only render a form are left out, as is all template rendering, flash text and redirect targets other than the organizer landing page.
- Catalogue maintenance is left out: organizer, hall and package CRUD, file uploads, and organizer deletion. As a result, the admin form that adds an organizer without checking email uniqueness is not modelled. `OrganizerRegister` keeps emails unique only for the registrations it makes.
- The default-admin seed in `app.py`, configuration, `static/js/main.js` and the organizer dashboard and listings are left out.
- The role checks `require_admin` and `require_organizer` have no effect in the code, so there is nothing of them to model.
- Concurrency, request races and several sessions writing at once are left out. Each method runs as one atomic step with one session.
- Listing order is left out. A listing is a map from booking id to row. The food-only listing's date columns are not modelled.
- Prices and hours are `real`. Floating-point rounding is not modelled.
- The routes' `'org_id' in booking` and `'hall_id' in booking` tests are left out. The routes always store both fields, so every modelled booking has them.
- `auth_routes.py` imports `send_admin_new_admin_request_email` and `send_admin_registration_pending_email` from `utils_email` at module level, outside any `try`. `utils_email.py` defines neither, so as the files stand importing `auth_routes` fails, and so does importing `admin_routes` and `organizer_routes`, which import `login_required` from it. The model assumes these imports succeed.
- The merge-conflict markers in `organizer_login` enclose the same assignment on both sides. The model makes that assignment once.
