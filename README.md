# MedoSwift core in Dafny

This project models the core of MedoSwift, an online pharmacy and tele-consultation service. Patients buy medicines, book doctors, receive prescriptions and keep medication reminders. Doctors publish slots and issue prescriptions. Admins manage users, doctors, medicines, orders and subscriptions.

The model covers both halves of the system.

- **Server.** The Express route handlers and the Mongoose schemas behind them: orders and live tracking, availability slots, appointments, the organizer subscription, reminders, admin analytics and patches, the medicine catalogue, global search, prescription upload and OCR matching, registration, login and the auth middleware, and the user's profile and addresses.
  - Every handler is a function from the stores, the caller and the request to a result plus the new stores.
  - A handler method runs that function on store classes (`OrderStore`, `SlotStore`, `UserStore`, ...) and is proved to have exactly its outcome and to keep the store's invariant.
  - Loops that the source runs become methods with invariants: the checkout line checks and stock decrements, batch slot creation, medicine extraction, `uniqueBy`.
  - Status codes and messages are those the source sends. The socket events an operation emits are returned as a sequence of (topic, event, payload) triples.
- **React client.** The logic inside the pages and providers: the cart, checkout, the pharmacy pager and stock gates, order tracking merges, slot generation, the clock picker, the organizer page and its notifier, the doctor's prescription form, the top-bar search, the doctor directory, the admin tables and edit forms, the promo carousel, registration checks and the route guards.
  - These are pure functions over the page state.
  - `createSlots` and `promoImages` loop in the source and are methods proved against a specification function.
  - The cart provider's state is the `Cart` class, whose operations are proved against the pure `Added`, `Without` and `WithQty`.
  - The notifier's "last fired" reference is the `Notifier` class.

The clock (`Date.now()`, `new Date()`), calendar arithmetic (`setMonth`, date parsing), OCR, password hashing and JWT signing and verification are parameters of the operations that use them. Prices and coordinates are `real`; stock, quantities, times in milliseconds and minutes are integers.

Modules follow the source files: `orders`, `order_model`, `slots`, `appointments`, `subscriptions`, `reminders`, `admin`, `medicines`, `medicine_model`, `search`, `extract_medicines`, `prescriptions`, `auth_routes`, `auth_middleware`, `users_routes`, `user_model` for the server; `cart_provider`, `cart_page`, `pharmacy_page`, `order_details_page`, `doctor_slots_page`, `clock_picker`, `organizer_page`, `doctor_prescriptions_page`, `topbar_search`, `doctors_page`, the `admin_*_page` files, `user_home`, `register_page` and `routing` for the client. Shared records, errors and string helpers are in `common`, `seqs` and `text`.

## Model

| member | source | states |
|---|---|---|
| OrderModel.ParseStatus | server/src/models/Order.js:29 | a status string is accepted exactly when it is one of the five enum names, and then names the status it was read as |
| OrderModel.StatusNameRoundTrip | server/src/models/Order.js:29 | the five status names are pairwise distinct and reading a status's name gives that status back |
| OrderModel.FromDraft | server/src/models/Order.js:15-37 | an order document created from a draft takes the schema defaults for every field left unset: fee 25, payment UPI/paid, status Placed, empty timeline, courier "MediSwift Rider" at the default point, ETA 30 |
| UserModel.ParseRole | server/src/models/User.js:15 | a role string is accepted only when it is one of user, doctor, admin, and then names the role read |
| UserModel.ParseRoleName | server/src/models/User.js:15 | reading a role's name gives that role back |
| UserModel.NewProfile | server/src/models/DoctorProfile.js:3-12 | a new doctor profile belongs to the given user, has the given specialization, fee 300, rating 4.6 and is not approved |
| Orders.TopicName | server/src/routes/orders.routes.js:123-165 | notification topics are `user:<id>` for a user room and `order:<id>` for an order room |
| Orders.OrderStore.Insert | server/src/routes/orders.routes.js:102-121 | creating an order stores it under the next id, keeps every earlier order and keeps the store's invariant (ids match keys, every status equals its last timeline entry) |
| Orders.PushTimeline | server/src/routes/orders.routes.js:12-15 | `pushTimeline` appends exactly one (status, at) entry, keeps every earlier entry, sets the status to it, so the status equals the last timeline entry, and changes nothing else |
| Orders.PushTimelineAppendOnly | server/src/routes/orders.routes.js:12-15 | two successive status changes keep the original timeline as a prefix and add exactly two entries (see also `orders.routes.js:138`) |
| Orders.ResolveAddress | server/src/routes/orders.routes.js:66-68 | with a non-empty address id the address is found iff one has that id, and is that address; otherwise it is the first saved address, or none for an empty list |
| Orders.ItemFor | server/src/routes/orders.routes.js:85-90 | an order line references the cart line's medicine with the cart line's quantity |
| Orders.CheckLine | server/src/routes/orders.routes.js:81-83 | a line passes iff its medicine exists with stock at least its qty; unknown medicine gives 400 "Invalid medicine in cart", short stock gives 409 "Insufficient stock for <name>" |
| Orders.PriceLinesSpec | server/src/routes/orders.routes.js:80-92 | the line validation succeeds iff every line passes, then yields one order item per line in order; a failure is the error of the first failing line |
| Orders.PriceLinesFirstError | server/src/routes/orders.routes.js:80-83 | when all lines before `i` pass and line `i` fails, the whole validation fails with line `i`'s error |
| Orders.ValidateLines | server/src/routes/orders.routes.js:77-92 | the checking loop returns exactly the line validation's result (items in order or the first line's error) and changes no stock |
| Orders.SubtotalNonNegative | server/src/routes/orders.routes.js:78-91 | the subtotal, a sum of price times qty, is non-negative when every price and qty is |
| Orders.DeliveryFee | server/src/routes/orders.routes.js:99 | the delivery fee is 0 iff the subtotal is at least 499, and 25 otherwise |
| Orders.JsRound | server/src/routes/orders.routes.js:120 | `Math.round` yields the integer within half a unit below or at the value (halves round up) |
| Orders.EtaMinutes | server/src/routes/orders.routes.js:120 | the ETA is round(12 + subtotal/80) clamped to [12, 45], so always within [12, 45] |
| Orders.DecrementOne | server/src/routes/orders.routes.js:96 | a guarded decrement lowers the line's medicine stock by qty only when stock is at least qty; otherwise, and for every other medicine, nothing changes |
| Orders.DecrementKeepsCatalogValid | server/src/routes/orders.routes.js:94-97 | the decrement loop keeps the catalogue valid (no stock becomes negative), keeps its keys and changes only stocks |
| Orders.DecrementExact | server/src/routes/orders.routes.js:94-97 | when every medicine's total requested quantity fits its stock, each stock falls by exactly that total |
| Orders.DuplicateLineOversells | server/src/routes/orders.routes.js:80-97 | a cart listing the same medicine twice (2 + 2 against stock 3) passes every line check, yet stock only falls to 1 while the order records both lines |
| Orders.ApplyDecrements | server/src/routes/orders.routes.js:94-97 | the decrement loop leaves the catalogue equal to the guarded decrements applied in cart order |
| Orders.NewOrder | server/src/routes/orders.routes.js:99-121 | a new order belongs to the caller, has status Placed with the one-entry timeline ["Placed"], fee by the 499 threshold, total = subtotal + fee, ETA in [12, 45], payment method from the body or the user's default, status pending only when mockPaid is false, and the rider offset from the address |
| Orders.CheckoutResult | server/src/routes/orders.routes.js:53-127 | checkout succeeds iff the caller is a user, the body is valid, an address resolves and every line passes; otherwise 403, 400 (schema or address) or the first line's 400/409; success yields a Placed order with one item per line and the priced totals |
| Orders.Checkout | server/src/routes/orders.routes.js:63-127 | POST `/` returns the checkout outcome; on success stock is decremented, the order stored under a fresh id and `order:new` sent to `user:<id>`; on failure no stock, order or notification changes; the catalogue and store invariants are kept |
| Orders.GetOrder | server/src/routes/orders.routes.js:33-41 | reading an order succeeds iff it exists and the caller owns it or is an admin, and returns it; 404 when missing, 403 otherwise |
| Orders.Track | server/src/routes/orders.routes.js:43-51 | tracking has the same access rule and errors as reading, and returns status, timeline, courier, ETA and shipping address |
| Orders.SetStatus | server/src/routes/orders.routes.js:129-147 | an admin may set any of the five statuses on any existing order (403 non-admin, 400 bad status, 404 unknown); the order gets one timeline entry and `order:update` goes to the order room with the timeline and to the owner's room without it; a failure changes nothing |
| Orders.SetCourier | server/src/routes/orders.routes.js:149-169 | a courier update by an admin with lat in [-90,90], lng in [-180,180] and an optional ETA that is a whole number in 1..240 (a negative or fractional one gives 400) overwrites the location, replaces the ETA only when one is sent, changes nothing else and notifies only the order room; failures change nothing |
| Slots.InsertSlot | server/src/models/AvailabilitySlot.js:3-10 | creating a slot whose (doctor, start) pair is taken fails with the duplicate-key error and changes nothing; otherwise it appends an unbooked slot of that doctor with a fresh id (a pair taken only by another doctor does not block it) |
| Slots.InsertSlotKeepsValid | server/src/models/AvailabilitySlot.js:10 | an insert keeps the unique (doctorUser, start) index and ids, and afterwards the pair is taken |
| Slots.SlotStore.Create | server/src/routes/slots.routes.js:52 | `AvailabilitySlot.create` on the store has exactly the effect and result of the insert and keeps the index |
| Slots.InsertByStart | server/src/routes/slots.routes.js:24 | inserting into the listing adds exactly that slot (as a multiset) |
| Slots.InsertByStartSorted | server/src/routes/slots.routes.js:24 | inserting into a start-sorted list keeps it sorted |
| Slots.SortByStart | server/src/routes/slots.routes.js:24 | `.sort({ start: 1 })` yields a permutation of its input sorted by start ascending |
| Slots.AvailableSpec | server/src/routes/slots.routes.js:12-27 | the listing holds only stored unbooked slots of the requested doctor, within [dateT00:00:00.000Z, dateT23:59:59.999Z] when a date is given, sorted by start, at most 200; with at most 200 matches it holds every match, and otherwise the earliest: no match left out starts before a listed slot |
| Slots.PrefixHoldsEarliest | server/src/routes/slots.routes.js:24 | a prefix of the slots sorted by start, as `.limit` keeps, holds the earliest ones: a slot left out starts no earlier than any kept slot |
| Slots.CreateAllSpec | server/src/routes/slots.routes.js:42-57 | creating a batch keeps the unique index, only appends, and the `created` list is exactly the appended slots, all the requester's and unbooked, carrying the start and end of a subsequence of the entries (input order, at most one per entry); afterwards every entry's pair is taken, so a duplicate is skipped without failing the batch |
| Slots.CreateBatch | server/src/routes/slots.routes.js:29-60 | POST `/` gives 403 to non-doctors, 400 for a batch outside 1..200 entries and 403 "Doctor not approved" without an approved profile; otherwise the insert loop leaves the store and `created` equal to the batch creation; failures change nothing |
| Appointments.MeetingLink | server/src/routes/appointments.routes.js:60-62 | the meeting link is non-empty iff the mode is online, and then is a `https://meet.jit.si/medoswift-` link |
| Appointments.Book | server/src/routes/appointments.routes.js:41-75 | booking gives 403 to non-users, 404 "Doctor not available" without an approved profile, 409 "Slot not available" for a missing, foreign or booked slot; otherwise the slot is saved as booked first, and the appointment (confirmed, mode defaulting to online, link iff online, empty notes, fresh id) is created only when no appointment already references the slot; it succeeds exactly then, and when one does the answer is the duplicate-key error with the appointments and the next id unchanged but the slot left booked |
| Appointments.BookKeepsLedgerValid | server/src/models/Appointment.js:3-11 | booking keeps the ledger: slot ids and the (doctor, start) index, the unique slot reference, every appointment on an existing slot of its doctor, and every pending or confirmed appointment's slot booked |
| Appointments.Cancel | server/src/routes/appointments.routes.js:77-95 | cancel gives 404 for an unknown appointment and 403 unless the caller is its patient, its doctor or an admin; an already-cancelled appointment is returned unchanged with nothing touched; any other, completed included, becomes cancelled and its slot is freed |
| Appointments.CancelKeepsLedgerValid | server/src/routes/appointments.routes.js:86-91 | cancelling keeps the ledger invariant |
| Appointments.CancelIdempotent | server/src/routes/appointments.routes.js:86 | cancelling a second time returns the same appointment and changes nothing more |
| Appointments.Complete | server/src/routes/appointments.routes.js:97-106 | complete gives 403 to non-doctors, 404 for an unknown appointment and 403 to a doctor who is not its doctor; otherwise it sets the status to completed whatever it was, changes nothing else and never touches the slot |
| Appointments.CompleteKeepsLedgerValid | server/src/routes/appointments.routes.js:102 | completing keeps the ledger invariant |
| Appointments.CompleteRevivesCancelled | server/src/routes/appointments.routes.js:102 | completing a cancelled appointment whose slot was freed succeeds, marks it completed and leaves the slot free |
| Appointments.CompletedCanBeCancelled | server/src/routes/appointments.routes.js:86-91 | a completed appointment can still be cancelled by its patient, and that frees its slot |
| Appointments.RebookAfterCancelStrandsSlot | server/src/routes/appointments.routes.js:54-71 | after a cancel frees a slot, rebooking it passes every check and saves the slot as booked, then fails on the unique slot reference (500), leaving the slot booked with only cancelled appointments referencing it |
| Appointments.BookHandler | server/src/routes/appointments.routes.js:47-75 | POST `/book` on the stores has exactly the outcome of the booking function and keeps the ledger invariant |
| Appointments.CancelHandler | server/src/routes/appointments.routes.js:77-95 | PATCH `/:id/cancel` on the stores has exactly the outcome of cancel and keeps the ledger invariant |
| Appointments.CompleteHandler | server/src/routes/appointments.routes.js:97-106 | PATCH `/:id/complete` on the stores has exactly the outcome of complete and keeps the ledger invariant |
| Subscriptions.OfUser | server/src/routes/subscriptions.routes.js:12-36 | the lookup finds a position holding the user's subscription, and finds none iff the user has none |
| Subscriptions.WithId | server/src/routes/admin.routes.js:89 | the lookup by id finds a position holding that id, and none iff no subscription has it |
| Subscriptions.Me | server/src/routes/subscriptions.routes.js:10-15 | GET `/me` gives 403 to non-users; for a user it returns a subscription iff the user has one, and then it is the user's stored subscription, else null |
| Subscriptions.ParsePlan | server/src/routes/subscriptions.routes.js:18 | a plan is accepted iff it is absent (the default) or "OrganizerMonthly" |
| Subscriptions.Start | server/src/routes/subscriptions.routes.js:17-32 | start gives 403 to non-users and 400 for another plan; otherwise it overwrites the user's subscription in place (same id) or creates one with a fresh id, with plan OrganizerMonthly, status active, startAt = now and endAt = addMonth(now) |
| Subscriptions.StartThenMe | server/src/routes/subscriptions.routes.js:10-32 | right after a successful start, GET `/me` returns exactly the subscription written |
| Subscriptions.StartKeepsValid | server/src/models/Subscription.js:4 | starting keeps at most one subscription per user and unique ids |
| Subscriptions.RestartResetsPeriod | server/src/routes/subscriptions.routes.js:25-29 | starting again resets startAt and endAt to the new now instead of extending, keeps the subscription's id and adds no second subscription |
| Subscriptions.Cancel | server/src/routes/subscriptions.routes.js:34-42 | cancel gives 403 to non-users and 404 "No subscription" when the user has none; otherwise only the status becomes cancelled and the dates are kept |
| Subscriptions.CancelKeepsValid | server/src/models/Subscription.js:4 | cancelling keeps the one-per-user invariant and the number of subscriptions |
| Subscriptions.StartHandler | server/src/routes/subscriptions.routes.js:17-32 | POST `/start` on the store has exactly the start function's outcome and keeps the invariant |
| Subscriptions.CancelHandler | server/src/routes/subscriptions.routes.js:34-42 | POST `/cancel` on the store has exactly the cancel function's outcome and keeps the invariant |
| Reminders.ActiveSubscription | server/src/routes/reminders.routes.js:12-15 | a subscription is found iff the user has one whose status is active and whose endAt is not before now, and it is that subscription |
| Reminders.OwnReminder | server/src/routes/reminders.routes.js:56-66 | the lookup finds a reminder with that id belonging to the caller, and none iff the caller has no such reminder |
| Reminders.List | server/src/routes/reminders.routes.js:17-22 | GET `/` gives 403 to non-users and otherwise lists exactly the caller's reminders |
| Reminders.ListNewestFirst | server/src/routes/reminders.routes.js:19 | the listing is newest first: ids strictly decrease along it |
| Reminders.Create | server/src/routes/reminders.routes.js:24-52 | create gives 403 to non-users, 400 when the body breaks the schema (name length at least 2, `HH:MM` shape, 1-7 days each in 0..6) and 402 without an active subscription, changing nothing; otherwise it appends an active reminder of the caller with a fresh id, the catalogue name and reference when the medicine id resolves and the given name otherwise, dosage defaulting to "" |
| Reminders.CreateKeepsValid | server/src/routes/reminders.routes.js:41-49 | creating keeps ids unique, increasing in creation order and below the next id |
| Reminders.CancelledSubscriptionBlocksCreate | server/src/routes/reminders.routes.js:12-35 | once the user's subscription is cancelled, creating a reminder fails with 402 even before its end date |
| Reminders.Toggle | server/src/routes/reminders.routes.js:54-62 | toggle gives 403 to non-users and 404 when the caller has no reminder with that id; otherwise it sets only that reminder's `active` to the given value |
| Reminders.ToggleIdempotent | server/src/routes/reminders.routes.js:56-60 | toggling twice to the same value equals toggling once, and reminders of other users are never changed |
| Reminders.Delete | server/src/routes/reminders.routes.js:64-70 | delete gives 403 to non-users and 404 unless the caller owns a reminder with that id; otherwise exactly that reminder is removed and the rest keep their order |
| Reminders.RemoveAtKeepsValid | server/src/routes/reminders.routes.js:66 | removing one reminder keeps ids increasing and below the next id |
| Reminders.RemoveAtMembers | server/src/routes/reminders.routes.js:66 | with increasing ids, removing the element at a position removes exactly the reminders with its id |
| Reminders.DeleteSpec | server/src/routes/reminders.routes.js:64-70 | a successful delete keeps the collection valid, removes exactly the reminder with that id and keeps every other one; a failed delete changes nothing |
| Reminders.CreateHandler | server/src/routes/reminders.routes.js:32-52 | POST `/` on the store has exactly the outcome of create and keeps the invariant |
| Reminders.ToggleHandler | server/src/routes/reminders.routes.js:54-62 | PATCH `/:id/toggle` on the store has exactly the outcome of toggle |
| Reminders.DeleteHandler | server/src/routes/reminders.routes.js:64-70 | DELETE `/:id` on the store has exactly the outcome of delete |
| Admin.AdminGate | server/src/routes/admin.routes.js:14 | every admin route passes iff the caller is an admin, and answers 403 otherwise |
| Admin.ApplyUserPatch | server/src/routes/admin.routes.js:23-30 | the `$set` replaces role, name, phone and defaultPaymentMethod exactly when the patch carries them and changes no other field; the name is stored trimmed, by the schema's `trim` setter (see also `server/src/models/User.js:16`) |
| Admin.ApplyUserPatchIdempotent | server/src/routes/admin.routes.js:30 | applying a patch twice equals applying it once, and an empty patch changes nothing |
| Admin.PatchUser | server/src/routes/admin.routes.js:23-34 | the user patch succeeds iff the caller is an admin, the patch meets the schema (role and method in their enums, name at least 2 long) and the user exists; 403, 400 and 404 "User not found" otherwise with nothing changed; success stores the patched user, its name trimmed, and answers it without the password hash (see also `server/src/models/User.js:16`) |
| Admin.PatchUserHandler | server/src/routes/admin.routes.js:23-34 | PATCH `/users/:id` on the store has exactly the patch function's outcome, so a sent name is stored and answered trimmed, and keeps the store valid |
| Admin.DeleteSubscriptionOf | server/src/routes/admin.routes.js:41 | `deleteOne({ user })` removes the user's subscription when there is one and otherwise leaves the list alone |
| Admin.DeleteSubscriptionOfSpec | server/src/routes/admin.routes.js:41 | with one subscription per user, afterwards none of the user's remains, every other is kept and the invariant holds |
| Admin.DeleteUserHandler | server/src/routes/admin.routes.js:36-44 | DELETE `/users/:id` gives 403 to non-admins and 404 for an unknown user, changing nothing; otherwise it removes the user, the user's doctor profile and the user's subscription and nothing else, keeping every store valid |
| Admin.RevenueIsSumOfLive | server/src/routes/admin.routes.js:55-59 | revenue is the sum of the totals of the orders whose status is not Cancelled, and 0 when there are none |
| Admin.RevenueBounds | server/src/routes/admin.routes.js:55-59 | with non-negative totals revenue lies between 0 and the sum of all totals |
| Admin.CancellingRemovesFromRevenue | server/src/routes/admin.routes.js:55-59 | cancelling one order lowers revenue by exactly its total if it was live and leaves it unchanged if it was already cancelled |
| Admin.Bump | server/src/routes/admin.routes.js:68 | adding one order to the series yields a non-empty series whose first group is the order's day or the previous first day |
| Admin.NothingBeforeFirst | server/src/routes/admin.routes.js:69 | a day-sorted series records no orders and no revenue before its first day |
| Admin.BumpSpec | server/src/routes/admin.routes.js:68-69 | adding one order raises the count of its day by one and its revenue by the order's total, keeps the series sorted and changes no other day |
| Admin.DailySpec | server/src/routes/admin.routes.js:62-70 | the daily series is sorted by day, one non-empty group per day, and each day's group counts and sums exactly the orders of that day created at or after `since` |
| Admin.ApplySubPatch | server/src/routes/admin.routes.js:91-95 | the subscription patch sets the status only when one is given and the end date only for a string that is not blank after trimming, changing nothing else |
| Admin.BlankEndAtKeepsEnd | server/src/routes/admin.routes.js:93-94 | an end date made only of whitespace, the empty string included, leaves the end date alone |
| Admin.PatchSubscription | server/src/routes/admin.routes.js:84-100 | PATCH `/subscriptions/:id` gives 403 to non-admins and 404 "Subscription not found" for an unknown id, changing nothing; otherwise it stores and answers the patched subscription in place |
| Admin.PatchSubscriptionHandler | server/src/routes/admin.routes.js:84-100 | the handler on the store has exactly the patch function's outcome and keeps the store valid |
| Medicines.Matching | server/src/routes/medicines.routes.js:17-22 | the matches are exactly the catalogue entries that pass the filter (exact category unless absent or "All"; case-insensitive substring of name, description or category for a non-empty q), in catalogue order |
| Medicines.SkipLimit | server/src/routes/medicines.routes.js:25 | `.skip(k).limit(n)` is the slice from k of at most n elements, empty when k is past the end |
| Medicines.CategoriesOf | server/src/routes/medicines.routes.js:29 | the category column lists each medicine's category, position by position |
| Medicines.List | server/src/routes/medicines.routes.js:9-34 | the listing fails with 400 iff page is below 1 or limit is outside 1..50 (defaults 1 and 12); otherwise it answers the requested page of the matches, `total` as the number of all matches and the category list |
| Medicines.PageItemsSpec | server/src/routes/medicines.routes.js:25 | a page holds the matches from position (page-1)*limit on, at most limit of them, in order, and is empty past the end |
| Medicines.PagesCover | server/src/routes/medicines.routes.js:25 | paging loses nothing: match k is item k mod limit of page k / limit + 1 |
| Medicines.ListSpec | server/src/routes/medicines.routes.js:24-27 | the listed items match the query and come from the catalogue, at most `limit` of them, and `total` counts every match |
| Medicines.UnfilteredTotal | server/src/routes/medicines.routes.js:18-26 | with no search text and no category or "All", `total` is the size of the catalogue |
| Medicines.MatchingAll | server/src/routes/medicines.routes.js:17-22 | when every entry passes the filter, the matches are the whole catalogue in order |
| Medicines.CategoryListSpec | server/src/routes/medicines.routes.js:29-30 | categories = "All" followed by each catalogue category exactly once, sorted |
| Medicines.NewMedicine | server/src/routes/medicines.routes.js:36-50 | a created medicine has the given name, category and price; absent fields take the defaults (description "", stock 0, no prescription, rating 4.5, the pill icon), stock is non-negative and rating in [0, 5] |
| Medicines.ApplyFields | server/src/routes/medicines.routes.js:54-56 | the partial update replaces exactly the fields present in the body, with no defaults, and keeps the id |
| Medicines.ApplyFieldsLaws | server/src/routes/medicines.routes.js:56 | an empty update changes nothing and updating twice with the same body equals updating once |
| Medicines.Create | server/src/routes/medicines.routes.js:47-52 | create gives 403 to non-admins and 400 for a body outside `medSchema` (name, category length at least 2, price at least 1, integer stock at least 0, rating in [0, 5]), changing nothing; otherwise it stores the new medicine under a fresh id |
| Medicines.Patch | server/src/routes/medicines.routes.js:54-59 | the update gives 403 to non-admins and 400 for a present field out of bounds; an unknown id answers null and changes nothing; otherwise the entry is updated in place and answered |
| Medicines.Delete | server/src/routes/medicines.routes.js:61-66 | delete gives 403 to non-admins; for admins it always succeeds and afterwards the id is absent, with nothing else removed |
| Medicines.WritesKeepCatalogValid | server/src/models/Medicine.js:3-12 | create, update and delete keep the catalogue valid: ids match their keys, below the next id, and stocks are non-negative |
| Medicines.DeleteIdempotent | server/src/routes/medicines.routes.js:63 | deleting twice equals deleting once |
| Medicines.CreateHandler | server/src/routes/medicines.routes.js:47-52 | POST `/` on the catalogue has exactly the create function's outcome and keeps it valid |
| Medicines.PatchHandler | server/src/routes/medicines.routes.js:54-59 | PATCH `/:id` on the catalogue has exactly the update function's outcome |
| Medicines.DeleteHandler | server/src/routes/medicines.routes.js:61-66 | DELETE `/:id` on the catalogue has exactly the delete function's outcome |
| Search.UserIds | server/src/routes/search.routes.js:26 | the id list holds each matched doctor user's id, position by position |
| Search.ToHit | server/src/routes/search.routes.js:35-42 | a doctor hit carries the profile's specialization and fee, and an id (the profile's user) exactly when that user exists to populate |
| Search.ToHits | server/src/routes/search.routes.js:35-42 | the projection maps every profile, in order, to its hit |
| Search.SearchAll | server/src/routes/search.routes.js:10-13 | the search fails with 400 iff q is not 1 to 64 characters long |
| Search.MedicineListSpec | server/src/routes/search.routes.js:15-17 | at most 8 medicines, each a catalogue entry whose name, category or description contains the term, in catalogue order; a matching medicine is left out only when 8 are listed |
| Search.DoctorProfilesSound | server/src/routes/search.routes.js:19-33 | every profile behind the doctor list is approved and matches by specialization or qualification, or belongs to a doctor whose name matches |
| Search.FieldMatchesListed | server/src/routes/search.routes.js:19-33 | an approved profile matching by specialization or qualification is left out only when the first 8 listed all match that way (the first query's limit) |
| Search.NameMatchesListed | server/src/routes/search.routes.js:25-34 | an approved profile of a doctor whose name matches is left out only when 10 doctors are listed or more than 8 doctors match by name (the user query's limit) |
| Search.SearchSpec | server/src/routes/search.routes.js:12-42 | at most 8 medicines, matching, in catalogue order and complete below the limit; at most 10 doctors, each from an approved stored profile that matches by specialization or qualification or whose user is a doctor with a matching name, and a matching profile is missing only when one of the limits is reached |
| Search.BlankQueryMatchesEverything | server/src/routes/search.routes.js:10-17 | a query of one space passes the length check and trims to "", so the first eight medicines come back unfiltered |
| Search.SameDoctorTwice | server/src/routes/search.routes.js:33 | a profile matched both by specialization and by its doctor's name is listed twice, since the lists are concatenated without removing repeats |
| ExtractMedicines.EscapeRegExp | server/src/utils/extractMedicines.js:30-32 | escaping never shortens the text (a backslash is added before each metacharacter) |
| ExtractMedicines.EscapeRoundTrip | server/src/utils/extractMedicines.js:30-32 | reading the escaped pattern back as a literal gives the original text, so `escapeRegExp` makes the pattern match the name literally |
| ExtractMedicines.EscapePlain | server/src/utils/extractMedicines.js:31 | text without any of `.*+?^${}()\|[]\` is left unchanged |
| ExtractMedicines.NameMatchContains | server/src/utils/extractMedicines.js:10-13 | a name that passes the `(^\|\b)name(\b\|$)` test occurs in the lower-cased text |
| ExtractMedicines.WordMatchExamples | server/src/utils/extractMedicines.js:12 | "dolo" matches "take dolo 650" but not "dolor": the name must stand between word boundaries |
| ExtractMedicines.Matches | server/src/utils/extractMedicines.js:9-14 | the matches are exactly the known medicines whose lower-cased name occurs in the text between word boundaries, in catalogue order |
| ExtractMedicines.MatchLoop | server/src/utils/extractMedicines.js:7-14 | the first loop pushes exactly the matching medicines, in catalogue order |
| ExtractMedicines.Split | server/src/utils/extractMedicines.js:18 | `split` yields at least one piece and no piece contains the separator |
| ExtractMedicines.SplitJoin | server/src/utils/extractMedicines.js:18 | joining the pieces with the separator gives the text back |
| ExtractMedicines.TrimDropsCarriageReturn | server/src/utils/extractMedicines.js:18 | a trailing carriage return disappears on trimming, so splitting on LF and trimming gives the same lines as splitting on `\r?\n` |
| ExtractMedicines.TrimAll | server/src/utils/extractMedicines.js:18 | `map(l => l.trim())` trims every line, position by position |
| ExtractMedicines.BlankNonAlnum | server/src/utils/extractMedicines.js:22 | `replace(/[^a-z0-9\s]/gi, " ")` keeps the length, keeps letters, digits and white space and turns everything else into a space |
| ExtractMedicines.CollapseSpaces | server/src/utils/extractMedicines.js:22 | `replace(/\s+/g, " ")` never lengthens the text, is empty iff its input is, leaves no two adjacent white-space characters and turns white space into plain spaces |
| ExtractMedicines.CollapseKeepsAlnum | server/src/utils/extractMedicines.js:22 | collapsing keeps a text made of letters, digits and white space so |
| ExtractMedicines.CollapsedChars | server/src/utils/extractMedicines.js:22 | after blanking and collapsing, only letters, digits and plain spaces remain |
| ExtractMedicines.TrimKeepsNoDoubleSpace | server/src/utils/extractMedicines.js:22 | trimming a text without doubled spaces leaves none |
| ExtractMedicines.TrimKeepsAlnumBlank | server/src/utils/extractMedicines.js:22 | trimming keeps a text of letters, digits and plain spaces so |
| ExtractMedicines.CleanLine | server/src/utils/extractMedicines.js:22 | a cleaned line is never longer than the line |
| ExtractMedicines.CleanLineSpec | server/src/utils/extractMedicines.js:22 | a cleaned line holds only letters, digits and single plain spaces, and neither starts nor ends with white space |
| ExtractMedicines.Cleaned | server/src/utils/extractMedicines.js:19-24 | every kept candidate is non-empty and at most 40 characters long |
| ExtractMedicines.CandidatesSpec | server/src/utils/extractMedicines.js:17-27 | the candidates are pairwise distinct, non-empty, at most 40 characters, at most 25 of them, and each is a cleaned line of the text |
| ExtractMedicines.FirstDistinct | server/src/utils/extractMedicines.js:27 | the first 25 distinct cleaned lines are distinct, non-empty, short and come from the cleaned lines |
| ExtractMedicines.CandidateLoop | server/src/utils/extractMedicines.js:17-25 | the second loop leaves the `candidates` set, in insertion order, equal to the cleaned lines with repeats dropped |
| ExtractMedicines.AddCandidate | server/src/utils/extractMedicines.js:23 | `candidates.add(c)` appends c exactly when it is new and keeps the seen set equal to the list's contents |
| ExtractMedicines.UniqueByLoop | server/src/utils/extractMedicines.js:34-44 | the `uniqueBy` loop with its `seen` set returns the first medicine of each key in input order |
| ExtractMedicines.SearchText | server/src/utils/extractMedicines.js:6 | missing text counts as "", and lower-casing keeps the length |
| ExtractMedicines.MatchMedicinesFromText | server/src/utils/extractMedicines.js:5-28 | `matched` is the word-boundary matches deduplicated by id, and `candidates` the first 25 distinct cleaned lines of the lower-cased text |
| ExtractMedicines.MatchedSpec | server/src/utils/extractMedicines.js:27 | the matched list has pairwise-distinct ids, is a subsequence of the catalogue and holds only medicines whose name matches |
| Seqs.UniqueBy | server/src/utils/extractMedicines.js:34-44 | `uniqueBy` keeps at least one element for every key of its input, and no other keys |
| Seqs.UniqueByAppend | server/src/utils/extractMedicines.js:38-41 | one more element is kept exactly when its key has not been seen |
| Seqs.UniqueByProperties | server/src/utils/extractMedicines.js:34-44 | the output has pairwise-distinct keys, keeps the input's relative order, and holds the first element of every key |
| Prescriptions.AppendKeepsValid | server/src/routes/prescriptions.routes.js:73-129 | appending a prescription under the next id keeps ids unique and ascending |
| Prescriptions.Mine | server/src/routes/prescriptions.routes.js:33-50 | a doctor lists exactly the prescriptions they issued; anyone else lists exactly their own |
| Prescriptions.MineNewestFirst | server/src/routes/prescriptions.routes.js:38-46 | the `/mine` listing is sorted newest first (creation order descending) |
| Prescriptions.CheckUpload | server/src/routes/prescriptions.routes.js:24-31 | an upload passes iff its MIME type is `image/png`, `image/jpeg`, `image/jpg` or `application/pdf` and it is at most 8 MB; a wrong type is refused before the size is looked at |
| Prescriptions.SafeName | server/src/routes/prescriptions.routes.js:20 | the sanitised name has the original's length, keeps each letter, digit, `_`, `.` and `-` in place and turns every other character into `_` |
| Prescriptions.SafeNameLaws | server/src/routes/prescriptions.routes.js:20 | sanitising is idempotent and leaves no `/` or `\`, so an upload cannot escape the uploads directory |
| Prescriptions.StoredName | server/src/routes/prescriptions.routes.js:21 | the stored name is the clock, `_`, then the sanitised original name, and contains no `/` |
| Prescriptions.ScanItems | server/src/routes/prescriptions.routes.js:62-69 | one item per matched medicine, in order, carrying its id and name with blank dosage, frequency and notes and zero days |
| Prescriptions.Scan | server/src/routes/prescriptions.routes.js:53-87 | only users may scan; a missing file, a refused type or an oversized file is an error that stores nothing; otherwise exactly one prescription is appended under the next id |
| Prescriptions.ScanStores | server/src/routes/prescriptions.routes.js:57-79 | a stored scan belongs to the caller, has no doctor or appointment, source OCR, the OCR text, the `/uploads/` URL of the stored name, and the items of the de-duplicated matches |
| Prescriptions.ScanItemsFromCatalogue | server/src/routes/prescriptions.routes.js:59-69 | every scanned item names a catalogue medicine that matches the text, and no medicine appears twice |
| Prescriptions.StoreScan | server/src/routes/prescriptions.routes.js:73-79 | the store afterwards is exactly what `Scan` describes and stays valid |
| Prescriptions.ScanHandler | server/src/routes/prescriptions.routes.js:53-87 | the store changes as `Scan` says; a success also answers the OCR text, its candidate lines and the matched medicines |
| Prescriptions.ResolveItem | server/src/routes/prescriptions.routes.js:113-120 | an item keeps the catalogue reference and takes the catalogue name iff its id is in the catalogue; otherwise it keeps the typed name; missing days become 0 |
| Prescriptions.ResolveItems | server/src/routes/prescriptions.routes.js:109-120 | every requested item is resolved, in order, none added or dropped |
| Prescriptions.Issue | server/src/routes/prescriptions.routes.js:90-133 | non-doctors get 403, an invalid body 400, an unknown appointment 404, another doctor's appointment 403, all storing nothing; success appends one prescription for the appointment's patient, issued by the caller, of source doctor |
| Prescriptions.IssuedVisibleToBoth | server/src/routes/prescriptions.routes.js:35-46 | an issued prescription shows in the patient's `/mine` and in the issuing doctor's (see also `prescriptions.routes.js:122-129`) |
| Prescriptions.IssueIgnoresStatus | server/src/routes/prescriptions.routes.js:105-107 | the appointment's status is never consulted: a doctor may issue for a cancelled appointment |
| Prescriptions.IssueHandler | server/src/routes/prescriptions.routes.js:103-133 | the store and the answer are exactly those `Issue` describes, and the store stays valid |
| AuthMiddleware.ExtractToken | server/src/middleware/auth.js:6-7 | a token is found iff the header starts with the exact-case `Bearer ` prefix, and it is the rest of the header; an absent header yields none |
| AuthMiddleware.WithoutHash | server/src/middleware/auth.js:13 | the request's user is the stored user with the password hash blanked and nothing else changed |
| AuthMiddleware.RequireAuth | server/src/middleware/auth.js:5-20 | the request passes iff it carries a non-empty token that verifies and whose subject is a stored user, and it then acts as that user without hash; every failure is a 401, a missing token "Missing authorization token" |
| AuthMiddleware.RequireRole | server/src/middleware/auth.js:22-28 | passes iff the request has a role that is one of the allowed roles; otherwise 403 "Forbidden" |
| AuthRoutes.SelfRole | server/src/routes/auth.routes.js:18 | a self-registration's role defaults to user, only "user" and "doctor" are accepted, so nobody can register as admin |
| AuthRoutes.EmailLocalPart | server/src/routes/auth.routes.js:31 | the local part is a prefix of the email with no `@`, ending at the first `@` or at the end |
| AuthRoutes.DeriveUsernameSpec | server/src/routes/auth.routes.js:31 | the derived username is in lower case, and one taken from the email holds no `@` |
| AuthRoutes.RegisteredUser | server/src/routes/auth.routes.js:29-35 | the created user has the given id, role and hash, the lower-cased email, and no addresses, birth date or phone |
| AuthRoutes.Reply | server/src/routes/auth.routes.js:49-86 | the token's subject is the user's id and its role claim the user's role |
| AuthRoutes.Register | server/src/routes/auth.routes.js:13-58 | an invalid body is 400 and a taken email 409, both changing nothing; otherwise exactly one user is added under the next id, plus an unapproved "General Physician" profile when the role is doctor |
| AuthRoutes.RegisterKeepsEmailsUnique | server/src/routes/auth.routes.js:25-35 | registration keeps emails unique across users |
| AuthRoutes.RegisterKeepsInvariants | server/src/routes/auth.routes.js:29-47 | registration keeps every user stored under its own id below the next id and every profile under its user, and never yields an admin |
| AuthRoutes.RegisterTwiceConflicts | server/src/routes/auth.routes.js:25-26 | registering again with the same email in any letter case is refused with 409 |
| AuthRoutes.FindByEmail | server/src/routes/auth.routes.js:68 | a user is found iff one holds the lower-cased email, and the one found does |
| AuthRoutes.Login | server/src/routes/auth.routes.js:60-90 | an invalid body is 400 and an unknown email 401; login succeeds iff the password matches the stored hash and the user is not a doctor whose profile awaits approval; success answers the token of that user |
| AuthRoutes.RegisterThenLogin | server/src/routes/auth.routes.js:21-90 | a registered user can log in with the same email and password and gets a token for the new account |
| AuthRoutes.RegisteredDoctorPending | server/src/routes/auth.routes.js:37-79 | a freshly registered doctor is refused with 403 until an admin approves the profile, even with the right password |
| AuthRoutes.RegisterHandler | server/src/routes/auth.routes.js:21-58 | the user and profile collections change exactly as `Register` says, and their invariants and unique emails are kept |
| UsersRoutes.ApplyProfileUpdate | server/src/routes/users.routes.js:13-23 | each field present in the update replaces the stored one, an absent field keeps the stored value, and no other field of the user changes; the name is stored trimmed, by the schema's `trim` setter (see also `server/src/models/User.js:16`) |
| UsersRoutes.ProfileUpdateIdempotent | server/src/routes/users.routes.js:23 | applying an update twice equals applying it once, and an empty update changes nothing |
| UsersRoutes.PatchMe | server/src/routes/users.routes.js:13-26 | an invalid update is 400 and changes nothing; a vanished user gives a null user; otherwise only the caller's record changes, a sent name stored trimmed, and the answer is the updated user without hash (see also `server/src/models/User.js:16`) |
| UsersRoutes.PatchMeHandler | server/src/routes/users.routes.js:21-26 | the user collection and the answer are exactly those `PatchMe` describes, so a sent name is stored and answered trimmed; the collection stays valid |
| UsersRoutes.NewAddress | server/src/routes/users.routes.js:28-37 | the stored address keeps the given lines, city, state and pincode, with label "Home", line2 "" and the default coordinates where the body has none (see also `server/src/models/User.js:10-11`) |
| UsersRoutes.AddAddress | server/src/routes/users.routes.js:28-46 | an invalid body is 400; success appends the new address to the caller's list, answers the whole list and changes no other user |
| UsersRoutes.AddAddressHandler | server/src/routes/users.routes.js:39-46 | the user collection and the answer are exactly those `AddAddress` describes |
| UsersRoutes.RemoveAddress | server/src/routes/users.routes.js:51 | the result holds exactly the addresses whose id differs from the given one, and is no longer than the list |
| UsersRoutes.RemoveAddressKeepsOrder | server/src/routes/users.routes.js:51 | the remaining addresses keep their relative order |
| UsersRoutes.RemoveUnknownAddress | server/src/routes/users.routes.js:51 | an id no address has leaves the list unchanged |
| UsersRoutes.RemoveAddressIdempotent | server/src/routes/users.routes.js:51 | removing twice equals removing once |
| UsersRoutes.RemoveAddressAppend | server/src/routes/users.routes.js:51 | removal distributes over appending one address |
| UsersRoutes.AddThenRemoveAddress | server/src/routes/users.routes.js:42-51 | deleting an address just added under a fresh id restores the list as it was |
| UsersRoutes.DeleteAddress | server/src/routes/users.routes.js:48-55 | the caller's list loses exactly the addresses of that id, the list is answered, and no other user changes |
| UsersRoutes.DeleteAddressHandler | server/src/routes/users.routes.js:48-55 | the user collection and the answer are exactly those `DeleteAddress` describes |
| CartProvider.IndexOf | client/src/app/cart/CartProvider.jsx:19 | the index found is the first line holding that medicine; none is found iff no line holds it |
| CartProvider.Added | client/src/app/cart/CartProvider.jsx:17-23 | a medicine already in the cart has only its line's quantity raised by `qty`, keeping that line's name and price; a new medicine is appended with quantity `qty` |
| CartProvider.AddKeepsDistinct | client/src/app/cart/CartProvider.jsx:17-23 | adding keeps at most one line per medicine |
| CartProvider.AddTwice | client/src/app/cart/CartProvider.jsx:17-23 | adding a medicine twice equals one add of the summed quantity |
| CartProvider.SumsUpdate | client/src/app/cart/CartProvider.jsx:32-33 | replacing one line moves the count and the subtotal by that line's difference |
| CartProvider.SumsAppend | client/src/app/cart/CartProvider.jsx:32-33 | appending a line adds its quantity to the count and its price times quantity to the subtotal |
| CartProvider.AddSums | client/src/app/cart/CartProvider.jsx:17-33 | adding `qty` raises the count by `qty` and the subtotal by `qty` at the price of the line it lands on |
| CartProvider.Without | client/src/app/cart/CartProvider.jsx:24-26 | exactly the lines of other medicines remain, in their order |
| CartProvider.RemoveAfterAdd | client/src/app/cart/CartProvider.jsx:17-26 | removing a medicine just added for the first time restores the cart |
| CartProvider.AtLeastOne | client/src/app/cart/CartProvider.jsx:28 | the quantity set is at least 1 and at least the one asked for, and equals it when it is positive |
| CartProvider.WithQty | client/src/app/cart/CartProvider.jsx:27-30 | the lines of that medicine get quantity `max(1, qty)`; every other line is unchanged; the length is kept |
| CartProvider.WithQtySpec | client/src/app/cart/CartProvider.jsx:27-33 | setting the quantity of a medicine not in the cart changes nothing, keeps lines distinct, and on a distinct cart moves the count by the difference |
| CartProvider.Cart.Add | client/src/app/cart/CartProvider.jsx:17-23 | the cart's new items are `Added` of the old ones |
| CartProvider.Cart.Remove | client/src/app/cart/CartProvider.jsx:24-26 | the cart's new items are `Without` of the old ones |
| CartProvider.Cart.SetQty | client/src/app/cart/CartProvider.jsx:27-30 | the cart's new items are `WithQty` of the old ones |
| CartProvider.Cart.Clear | client/src/app/cart/CartProvider.jsx:31 | the cart is empty afterwards |
| CartPage.CartTotal | client/src/pages/user/CartPage.jsx:32-34 | the shown total is the subtotal when it is at least 499, and the subtotal plus 25 otherwise |
| CartPage.Payload | client/src/pages/user/CartPage.jsx:57-62 | one (medicine, qty) line per cart line in cart order, with the selected address, the payment method and `mockPaid` set |
| CartPage.Checkout | client/src/pages/user/CartPage.jsx:36-70 | without items or an address nothing is sent and "Add an address to checkout" is shown; otherwise the payload is sent, and the cart is cleared and the order's page opened iff the server accepts it |
| CartPage.InitialAddressId | client/src/pages/user/CartPage.jsx:26-27 | the first saved address is selected on load, or none when there is none |
| CartPage.SelectAfterAdd | client/src/pages/user/CartPage.jsx:44 | after an address is added, the last address of the returned list is selected |
| CartPage.AddedAddressIsSelected | client/src/pages/user/CartPage.jsx:41-44 | the address the page selects after adding is exactly the one the server just appended (see also `server/src/routes/users.routes.js:42-44`) |
| CartPage.SelectionResolves | client/src/pages/user/CartPage.jsx:26-44 | an address the page selects always resolves on the server at checkout (see also `server/src/routes/orders.routes.js:66-70`) |
| CartPage.SubtotalsAgree | client/src/pages/user/CartPage.jsx:32 | order lines repeating the cart's prices and quantities have the cart's subtotal (see also `server/src/routes/orders.routes.js:91`) |
| CartPage.ShownTotalIsCharged | client/src/pages/user/CartPage.jsx:32-34 | when the catalogue still has the cart's prices, the server charges exactly the subtotal and total the page showed (see also `server/src/routes/orders.routes.js:80-100`) |
| PharmacyPage.PageCount | client/src/pages/user/PharmacyPage.jsx:67 | the page count is the fewest pages of 12 that hold all results, and at least 1 |
| PharmacyPage.PrevPage | client/src/pages/user/PharmacyPage.jsx:256 | Prev never goes below page 1 and goes back one page from any page after the first |
| PharmacyPage.NextPage | client/src/pages/user/PharmacyPage.jsx:257 | Next never passes the last page and goes forward one page from any earlier page |
| PharmacyPage.PagingStaysInRange | client/src/pages/user/PharmacyPage.jsx:67 | from a page that exists, Prev and Next land on pages that exist (see also `PharmacyPage.jsx:256-257`) |
| PharmacyPage.EditSearch | client/src/pages/user/PharmacyPage.jsx:87 | typing sets the search text and resets the page to 1, keeping the category |
| PharmacyPage.QueryParams | client/src/pages/user/PharmacyPage.jsx:35-39 | the request always starts with the page and a limit of 12 |
| PharmacyPage.Lookup | client/src/pages/user/PharmacyPage.jsx:35-41 | a value read back under a key is one the parameters hold; none is read iff no parameter has that key |
| PharmacyPage.LookupParams | client/src/pages/user/PharmacyPage.jsx:38-39 | the request carries the trimmed search text iff it is not blank, and the category iff it is set and not "All" |
| PharmacyPage.RequestIsValid | client/src/pages/user/PharmacyPage.jsx:35-41 | from page 1 on, the request passes the server's query schema with that page and 12 per page (see also `server/src/routes/medicines.routes.js:9-15`) |
| PharmacyPage.RequestMeansControls | client/src/pages/user/PharmacyPage.jsx:35-41 | the server lists a medicine iff it is in the chosen category (any for "All") and its name, description or category contains the trimmed search text ignoring case (any for a blank search) (see also `server/src/routes/medicines.routes.js:16-22`) |
| PharmacyPage.QtyInCart | client/src/pages/user/PharmacyPage.jsx:203-204 | a medicine's quantity is its cart line's, or 0 when it has none |
| PharmacyPage.Press | client/src/pages/user/PharmacyPage.jsx:206-240 | Add is refused iff the medicine is out of stock, "+" iff one more would pass the stock, "−" never; a refused press leaves the cart as it was; an accepted Add or "+" raises the medicine's quantity by one, and "−" lowers it by one or, at quantity 1 or less, takes it out of the cart |
| PharmacyPage.AddedQty | client/src/app/cart/CartProvider.jsx:15-22 | `add` raises a medicine's quantity as the card reads it by exactly the amount added, whether it had a line or not |
| PharmacyPage.WithQtyQty | client/src/app/cart/CartProvider.jsx:27-30 | `setQty` with a quantity of at least 1 gives a medicine in the cart exactly that quantity, and leaves one not in the cart at 0 |
| PharmacyPage.WithoutLeavesNone | client/src/pages/user/PharmacyPage.jsx:226 | after "−" at quantity 1 the medicine has no line left |
| PharmacyPage.WithoutKeepsOthers | client/src/pages/user/PharmacyPage.jsx:226 | removing one medicine's line leaves every other medicine's quantity as it was |
| PharmacyPage.PressAddKeepsStock | client/src/pages/user/PharmacyPage.jsx:211-213 | Add on a medicine not in the cart keeps lines distinct, the quantity within the stock, and other quantities |
| PharmacyPage.PressMinusKeepsStock | client/src/pages/user/PharmacyPage.jsx:225-228 | "−" keeps lines distinct, the quantity within the stock or out of the cart, and other quantities |
| PharmacyPage.PressPlusKeepsStock | client/src/pages/user/PharmacyPage.jsx:235-238 | "+" keeps lines distinct, the quantity within the stock, and other quantities |
| PharmacyPage.PressKeepsStock | client/src/pages/user/PharmacyPage.jsx:203-240 | every press the card offers keeps the cart's lines distinct, the medicine's quantity within the shown stock (or out of the cart) and every other medicine's quantity unchanged |
| OrderDetailsPage.OnEvent | client/src/pages/user/OrderDetailsPage.jsx:33-42 | events for another order and events before the first load change nothing; an update sets the status and, when sent, the timeline; a track event sets the courier and the ETA when sent |
| OrderDetailsPage.ViewFollowsStatus | client/src/pages/user/OrderDetailsPage.jsx:33-36 | after a status change the room's event turns the view of the old order into the view of the new one, and the owner's copy without a timeline changes it no further (see also `server/src/routes/orders.routes.js:142-143`) |
| OrderDetailsPage.ViewFollowsCourier | client/src/pages/user/OrderDetailsPage.jsx:37-40 | after a courier update the room's event turns the view of the old order into the view of the new one (see also `server/src/routes/orders.routes.js:165`) |
| OrderDetailsPage.UserLatLng | client/src/pages/user/OrderDetailsPage.jsx:51-56 | no point without a shipping address; the address's coordinates when both are numbers; the default point otherwise |
| OrderDetailsPage.CourierLatLng | client/src/pages/user/OrderDetailsPage.jsx:58-63 | a courier point exists iff the courier has a location with numeric coordinates, and it is those coordinates |
| OrderDetailsPage.ServerSnapshotPoints | client/src/pages/user/OrderDetailsPage.jsx:51-63 | for a snapshot the server sends, the map shows the stored shipping address and the stored courier location (see also `server/src/routes/orders.routes.js:43-51`) |
| OrderDetailsPage.OnMount | client/src/pages/user/OrderDetailsPage.jsx:30-31 | on mount the page joins the order's room, the one the server emits order events to |
| OrderDetailsPage.OnUnmount | client/src/pages/user/OrderDetailsPage.jsx:44-48 | on unmount the page leaves the room it joined |
| DoctorSlotsPage.Grid | client/src/pages/doctor/DoctorSlotsPage.jsx:31-37 | `n` back-to-back slots of one step each, the first starting at `start` |
| DoctorSlotsPage.SlotCount | client/src/pages/doctor/DoctorSlotsPage.jsx:32-34 | the number of whole slots that fit between start and end: they fit and one more would not |
| DoctorSlotsPage.CreateSlotsSpec | client/src/pages/doctor/DoctorSlotsPage.jsx:27-38 | the batch is refused iff the end is not after the start ("End must be after start") or not even one slot fits; otherwise its slots have the chosen length, end within the span, follow each other without gaps, and one more would overrun the end |
| DoctorSlotsPage.Generate | client/src/pages/doctor/DoctorSlotsPage.jsx:24-38 | the loop produces exactly the outcome `CreateSlots` describes |
| DoctorSlotsPage.BatchAccepted | client/src/pages/doctor/DoctorSlotsPage.jsx:39 | the server accepts the generated batch iff it holds at most 200 slots (see also `server/src/routes/slots.routes.js:31-34`) |
| ClockPicker.NumberOf | client/src/components/ui/ClockPicker2.jsx:12-27 | a field reads as a number iff it is all digits, and the empty field reads as 0 |
| ClockPicker.To12 | client/src/components/ui/ClockPicker2.jsx:14-30 | a 24-hour hour maps to 1..12 on the dial: 0 becomes 12, 1..12 stay, 13..23 lose 12 |
| ClockPicker.To24 | client/src/components/ui/ClockPicker2.jsx:55 | the dial hour returns to a 24-hour hour below 24 that agrees with it modulo 12 and is in the afternoon iff PM is set |
| ClockPicker.HourRoundTrip | client/src/components/ui/ClockPicker2.jsx:14-55 | every 24-hour hour survives the trip to the dial and back |
| ClockPicker.Init | client/src/components/ui/ClockPicker2.jsx:11-21 | an empty hour field starts at 8 AM, and an hour field that is not a number also gives 8 AM |
| ClockPicker.Sync | client/src/components/ui/ClockPicker2.jsx:26-34 | on a new value ("08:00" when empty) a numeric hour sets the dial hour and PM flag, a non-numeric one leaves them; a non-numeric minute leaves the minute |
| ClockPicker.PickHour | client/src/components/ui/ClockPicker2.jsx:64 | a pick on the hour ring sets an hour in 1..12 congruent to the ring index (index 0 is 12), keeping minute and PM |
| ClockPicker.PickMinute | client/src/components/ui/ClockPicker2.jsx:65 | a pick on the minute ring sets exactly that minute |
| ClockPicker.DisplayShape | client/src/components/ui/ClockPicker2.jsx:56-87 | with a numeric minute the shown and emitted value is two digits, ':', two digits, reading back as the 24-hour hour and the minute |
| ClockPicker.SyncDisplayRoundTrip | client/src/components/ui/ClockPicker2.jsx:26-34 | a well-formed "HH:MM" value synced into the picker is displayed back unchanged (see also `ClockPicker2.jsx:87`) |
| OrganizerPage.UnlockedIffServerGate | client/src/pages/user/OrganizerPage.jsx:38-42 | the page is unlocked, from the subscription the server reports, exactly when the server's reminder gate lets the user through at the same instant (see also `server/src/routes/reminders.routes.js:12-15`) |
| OrganizerPage.ReminderName | client/src/pages/user/OrganizerPage.jsx:56-59 | the name sent is the selected catalogue medicine's when it is in the list, else the typed name, else "Medicine" |
| OrganizerPage.ReminderPayload | client/src/pages/user/OrganizerPage.jsx:57-63 | the request carries the selection (absent when none), that name, the dosage, the time and the days |
| OrganizerPage.StoredNameIsChosenName | client/src/pages/user/OrganizerPage.jsx:56-64 | when the page's catalogue agrees with the server's and the selection comes from it, the stored reminder has the name the page chose (see also `server/src/routes/reminders.routes.js:24-48`) |
| OrganizerPage.ToggleDay | client/src/pages/user/OrganizerPage.jsx:180 | a weekday button flips that day's membership, leaves every other day as it was, and appends a day it adds |
| OrganizerPage.ToggleDayTwice | client/src/pages/user/OrganizerPage.jsx:180 | toggling a day twice restores the selection when it was off, and restores its set of days when it was on |
| OrganizerPage.ReplaceById | client/src/pages/user/OrganizerPage.jsx:75 | after a toggle, the reminder of that id is replaced by the answer and every other stays in place |
| OrganizerPage.RemoveById | client/src/pages/user/OrganizerPage.jsx:80 | after a delete, exactly the reminders of other ids remain, in order |
| OrganizerPage.ListAfterAppend | server/src/routes/reminders.routes.js:17-22 | after one of the caller's reminders is appended, the caller's listing is that reminder followed by the listing before |
| OrganizerPage.PrependMatchesServer | client/src/pages/user/OrganizerPage.jsx:65 | putting the created reminder first keeps the page's list equal to what the server lists afterwards (see also `server/src/routes/reminders.routes.js:17-22`) |
| OrganizerPage.Due | client/src/pages/user/OrganizerPage.jsx:95-96 | exactly the active reminders set for this minute on today's weekday are due, in list order |
| OrganizerPage.Notifier.Tick | client/src/pages/user/OrganizerPage.jsx:85-101 | a notification fires iff the page is unlocked, this minute has not fired yet and something is due; it lists every due reminder as "name (dosage)" and records the minute, which is otherwise left alone |
| DoctorPrescriptionsPage.Merge | client/src/pages/doctor/DoctorPrescriptionsPage.jsx:27 | each field the patch sets replaces the row's, and every other field is kept |
| DoctorPrescriptionsPage.SetRow | client/src/pages/doctor/DoctorPrescriptionsPage.jsx:26-28 | row `i` is merged with the patch, every other row stays, and the number of rows is kept |
| DoctorPrescriptionsPage.AddRow | client/src/pages/doctor/DoctorPrescriptionsPage.jsx:30-32 | one empty row is appended after the existing rows |
| DoctorPrescriptionsPage.CatalogueName | client/src/pages/doctor/DoctorPrescriptionsPage.jsx:40-81 | a name is found iff the page's list has a medicine of that id, and it is that medicine's name |
| DoctorPrescriptionsPage.SelectPatch | client/src/pages/doctor/DoctorPrescriptionsPage.jsx:78-81 | choosing a medicine sets the row's id and its catalogue name, keeping the typed name when the list lacks it or its name is empty |
| DoctorPrescriptionsPage.ItemOf | client/src/pages/doctor/DoctorPrescriptionsPage.jsx:38-45 | a sent item keeps the row's id and typed fields, and its name is the row's, else the catalogue's, else "Medicine" |
| DoctorPrescriptionsPage.Request | client/src/pages/doctor/DoctorPrescriptionsPage.jsx:36-47 | the request sends the appointment id and one item per sendable row (a chosen medicine, or a trimmed name of at least 2 characters), in row order |
| DoctorPrescriptionsPage.RequestCoversRows | client/src/pages/doctor/DoctorPrescriptionsPage.jsx:36-45 | every sendable row is sent and every sent item comes from a sendable row |
| DoctorPrescriptionsPage.TypedNamesPassSchema | client/src/pages/doctor/DoctorPrescriptionsPage.jsx:37 | a row sent for its typed name alone has a name the server's two-character minimum accepts (see also `server/src/routes/prescriptions.routes.js:90-101`) |
| DoctorPrescriptionsPage.ShortNameWithMedicineIsRejected | client/src/pages/doctor/DoctorPrescriptionsPage.jsx:37-40 | a one-character name next to a chosen medicine is still sent, and the whole request fails the server's schema (see also `server/src/routes/prescriptions.routes.js:90-101`) |
| DoctorPrescriptionsPage.Issue | client/src/pages/doctor/DoctorPrescriptionsPage.jsx:34-55 | on success the form resets to an empty appointment id and one empty row and the new prescription goes first; on failure form and list are unchanged |
| DoctorPrescriptionsPage.ResetCannotIssue | client/src/pages/doctor/DoctorPrescriptionsPage.jsx:24-50 | right after a reset the Issue button is disabled |
| TopbarSearch.ItemsSpec | client/src/components/layout/TopbarSearch.jsx:47-67 | a blank query offers the first six site pages; otherwise only matching pages, in table order, at most eight, and all matching pages when no more than eight match |
| TopbarSearch.OpenAfterTyping | client/src/components/layout/TopbarSearch.jsx:38-45 | once typing pauses the dropdown is open iff the trimmed query is not empty |
| TopbarSearch.ChosenAddress | client/src/components/layout/TopbarSearch.jsx:28 | the chosen address is the user's first address with the stored id, or the first address when none has it |
| TopbarSearch.LocationLabel | client/src/components/layout/TopbarSearch.jsx:23-32 | a stored id and label give the stored label; with neither and no addresses, the stored label or "Bengaluru"; the chip is never empty |
| TopbarSearch.LocationLabelPicksAddress | client/src/components/layout/TopbarSearch.jsx:26-31 | without a stored label the chip names the city of the first address with the stored id, or of the first address when no address has it |
| DoctorsPage.SpecsOf | client/src/pages/user/DoctorsPage.jsx:45 | exactly the set specializations of the loaded doctors, one entry per doctor at most |
| DoctorsPage.SpecializationsSpec | client/src/pages/user/DoctorsPage.jsx:43-47 | the chips start with "All", then every specialization some doctor has, once each, nothing else, in order of first appearance |
| DoctorsPage.FilteredSpec | client/src/pages/user/DoctorsPage.jsx:58-69 | a chip other than "All" keeps only doctors of that specialization; a blank search adds no further filter; otherwise a doctor is shown iff it passes the chip and its name or specialization contains the lower-cased term; the loaded order is kept |
| DoctorsPage.AllChipShowsEveryone | client/src/pages/user/DoctorsPage.jsx:58-64 | the "All" chip, or no chip, shows every doctor to a blank search |
| DoctorsPage.TodayStrShape | client/src/pages/user/DoctorsPage.jsx:12-18 | for a four-digit year the date text is YYYY-MM-DD, reading back as the year, the 1-based month and the day (see also `client/src/pages/doctor/DoctorSlotsPage.jsx:12-18`) |
| AdminOrdersPage.StatusesAreTheEnum | client/src/pages/admin/AdminOrders.jsx:10 | the status choices are the five order statuses, each once, and every one parses back to a status (see also `server/src/models/Order.js:29`) |
| AdminOrdersPage.FilteredSpec | client/src/pages/admin/AdminOrders.jsx:38-45 | an order is listed iff the query is blank or its id, customer name or email contains it ignoring case, and the filter is "All" or its status; the loaded order is kept |
| AdminOrdersPage.BlankListsAll | client/src/pages/admin/AdminOrders.jsx:38-45 | a blank query with "All" lists every order |
| AdminOrdersPage.NumberOf | client/src/pages/admin/AdminOrders.jsx:60-62 | `Number` reads a number field as the number it holds, and an empty one as 0 (see also the number inputs at `AdminOrders.jsx:159-167`) |
| AdminOrdersPage.EtaOf | client/src/pages/admin/AdminOrders.jsx:62 | no ETA is sent iff the field reads as 0 (empty or zero); otherwise the number read is sent as it is, negative and fractional ones included |
| AdminOrdersPage.CourierPayload | client/src/pages/admin/AdminOrders.jsx:59-63 | the body carries the coordinates as `Number` reads the fields and the ETA as `EtaOf` reads it |
| AdminOrdersPage.EtaZeroOrEmptyIsUndefined | client/src/pages/admin/AdminOrders.jsx:62 | an empty or zero ETA is left out, and any other number is sent as itself |
| AdminOrdersPage.CourierPayloadAccepted | client/src/pages/admin/AdminOrders.jsx:59-63 | the server accepts the body iff the coordinates are in range and an ETA that is not 0 is a whole number in 1..240, so leaving out a zero ETA keeps the range from rejecting it (see also `server/src/routes/orders.routes.js:149-153`) |
| AdminOrdersPage.NegativeOrFractionalEtaRefused | client/src/pages/admin/AdminOrders.jsx:62 | an ETA of -3 or 2.5 is sent, and the server answers 400 to it whatever the coordinates (see also `server/src/routes/orders.routes.js:149-153`) |
| AdminUsersPage.FilteredSpec | client/src/pages/admin/AdminUsers.jsx:35-43 | a blank query lists everyone; otherwise a user is listed iff its name, email or role contains the query ignoring case; the loaded order is kept |
| AdminUsersPage.EditFormOf | client/src/pages/admin/AdminUsers.jsx:112 | opening the dialog copies the user's name, phone, role and payment method |
| AdminUsersPage.SavePayload | client/src/pages/admin/AdminUsers.jsx:45-52 | the save sends name, phone, role and payment method and nothing else |
| AdminUsersPage.SaveTouchesOnlyEditedFields | client/src/pages/admin/AdminUsers.jsx:45-52 | a save changes at most those four fields, and saving the dialog unchanged leaves the user as stored except that the name is trimmed, so a user whose name is already trimmed is left exactly as stored (see also `server/src/routes/admin.routes.js:23-34`) |
| AdminUsersPage.SaveAccepted | client/src/pages/admin/AdminUsers.jsx:45-52 | the server accepts the save iff the name is absent or has at least two characters (see also `server/src/routes/admin.routes.js:23-28`) |
| AdminSubscriptionsPage.FilteredSpec | client/src/pages/admin/AdminSubscriptions.jsx:28-37 | a blank query lists everything; otherwise an entry is listed iff its user's name or email, its plan or its status contains the query ignoring case; the loaded order is kept |
| AdminSubscriptionsPage.EditFormOf | client/src/pages/admin/AdminSubscriptions.jsx:96-100 | the editor opens on the stored status and the first ten characters of the end date's ISO text, or "" without an end date |
| AdminSubscriptionsPage.SaveEffect | client/src/pages/admin/AdminSubscriptions.jsx:39-44 | saving sets the chosen status, keeps the stored end date when the form's date is empty, and otherwise sets the date the form shows (see also `server/src/routes/admin.routes.js:84-96`) |
| AdminSubscriptionsPage.StatusesAreTheEnum | client/src/pages/admin/AdminSubscriptions.jsx:9 | the status choices are exactly the names of the stored statuses (see also `server/src/models/Subscription.js:6`) |
| AdminDoctorsPage.FilteredSpec | client/src/pages/admin/AdminDoctors.jsx:24-32 | a blank query lists every profile; otherwise one is listed iff its doctor's name or email or its specialization contains the query ignoring case; the loaded order is kept |
| AdminDoctorsPage.Toggle | client/src/pages/admin/AdminDoctors.jsx:34-38 | the request asks for the opposite approval, and the toast says "Approved" exactly when it approves |
| AdminDoctorsPage.SetApproved | server/src/routes/doctors.routes.js:72-83 | approving sets exactly the approval flag and nothing else of the profile |
| AdminDoctorsPage.ToggleTwiceRestores | client/src/pages/admin/AdminDoctors.jsx:34-38 | a toggle flips the approval flag, and toggling again after the reload restores the profile (see also `server/src/routes/doctors.routes.js:75-79`) |
| AdminMedicinesPage.LowStock | client/src/pages/admin/AdminMedicines.jsx:102 | exactly the listed medicines with stock 5 or less, in list order |
| AdminMedicinesPage.AlertSpec | client/src/pages/admin/AdminMedicines.jsx:114-119 | the alert names the first six low-stock medicines in order (all of them when six or fewer) and shows the ellipsis iff there are more than six |
| AdminMedicinesPage.OpenEdit | client/src/pages/admin/AdminMedicines.jsx:52-64 | the editor opens on the stored fields, with "" for a missing description and the pill icon for a missing icon |
| AdminMedicinesPage.Save | client/src/pages/admin/AdminMedicines.jsx:46-83 | a form with an id is sent as an update of that id, one without as a create; the body is the form without its id either way |
| AdminMedicinesPage.SaveRoundTrip | client/src/pages/admin/AdminMedicines.jsx:52-83 | saving an editor opened on a stored medicine unchanged leaves it as stored (when it has an icon), and creating stores what the form shows under a fresh id (see also `server/src/routes/medicines.routes.js:47-59`) |
| AdminMedicinesPage.SaveAccepted | client/src/pages/admin/AdminMedicines.jsx:9-18 | the server accepts a save iff name and category have two characters or more, the price is at least 1, the stock is not negative and the rating is within 0..5, so the empty form is refused (see also `AdminMedicines.jsx:66-83`, `server/src/routes/medicines.routes.js:36-45`) |
| UserHome.PromosUpToMembers | client/src/pages/user/UserHome.jsx:35-45 | an image is listed iff some slot from 1 to n holds an upload it resolves from, and no listed image is empty |
| UserHome.PromoImages | client/src/pages/user/UserHome.jsx:35-45 | the loop over slots 1..5 yields exactly the images of the uploaded slots in slot order, at most five |
| UserHome.Tick | client/src/pages/user/UserHome.jsx:53 | each timer tick keeps the index within the images |
| UserHome.TicksCycle | client/src/pages/user/UserHome.jsx:47-57 | from the first image the carousel shows image `k mod count` after `k` ticks, so it visits every image and returns to the first |
| RegisterPage.Validate | client/src/pages/auth/RegisterPage.jsx:21-26 | the form passes iff the trimmed name has two characters, the email has an `@` and the password eight characters; otherwise the message of the first failing check |
| RegisterPage.Landing | client/src/pages/auth/RegisterPage.jsx:37-42 | a new doctor goes to the login page, anyone else to the home page |
| RegisterPage.SubmitSpec | client/src/pages/auth/RegisterPage.jsx:28-48 | a failing form sends nothing and shows its message; a passing one sends the typed fields, and navigates to the role's landing iff the server accepts |
| RegisterPage.PassingFormMeetsServerLengths | client/src/pages/auth/RegisterPage.jsx:21-26 | a form the page lets through meets the server's length rules for name and password (see also `server/src/routes/auth.routes.js:13-19`) |
| RegisterPage.DoctorFormLandsOnLogin | client/src/pages/auth/RegisterPage.jsx:37-39 | a successful doctor sign-up lands on the login page (see also `server/src/routes/auth.routes.js:18,49-54`) |
| Routing.Guard | client/src/app/auth/ProtectedRoute.jsx:5-12 | the placeholder while loading; the login page without a user; the home page for a role the route does not list; the page otherwise |
| Routing.RolesOf | client/src/app/App.jsx:47-79 | the sign-in and sign-up pages and unknown paths list no roles; every other page of the table lists its roles |
| Routing.DefaultLanding | client/src/app/App.jsx:38-43 | the login page without a user, else the admin, doctor or user home for the role |
| Routing.VisitSpec | client/src/app/App.jsx:50-79 | without a user every guarded page sends to login; a loaded user sees a guarded page iff it lists the role, and is otherwise sent to "/" (see also `client/src/app/auth/ProtectedRoute.jsx:5-12`) |
| Routing.WrongRoleRedirectLoops | client/src/app/auth/ProtectedRoute.jsx:10 | a doctor or admin opening "/" or the pharmacy is sent to "/", which refuses them again (see also `client/src/app/App.jsx:52-53`) |
| Routing.GuardToLanding | client/src/app/auth/ProtectedRoute.jsx:10 | the corrected guard sends a role the route does not list to that role's own landing page (see also `client/src/app/App.jsx:38-43`) |
| Routing.RedirectsSettle | client/src/app/auth/ProtectedRoute.jsx:5-12 | with the corrected guard every redirect of a loaded session settles in one step: its target renders (see also `client/src/app/App.jsx:38-82`) |

## Left out

- Socket.io rooms and delivery (`server/src/server.js`, `client/src/app/socket.js`) are left out because they are a library wrapper. Operations return the (topic, event, payload) triples they emit, and the client page models joining and leaving as the topic it names.
- Concurrent requests are left out. Each handler runs as one atomic step, so the window between checking stock and decrementing it, and the read-then-save booking race, are not modelled.
- Mongoose plumbing is reduced to its effect on the stored records: `populate` becomes a lookup, `sort` an explicit ordering, an aggregation pipeline a fold, and generated ids come from a counter. Index building and connection handling are left out.
- Zod validation failures all answer 400 "Validation failed". The per-field issue list in the response body is not modelled, and neither is `z.coerce`'s reading of strings as numbers: bodies arrive already typed.
- A malformed id (a Mongoose `CastError`) is not modelled. Ids are opaque values that are either stored or not.
- Time is an integer number of milliseconds given as a parameter. `setMonth` (one calendar month later) and parsing an ISO date string are parameters as well, so calendar rules such as month lengths are not modelled.
- Dates shown as text (`toISOString`, `toLocaleString`) are inputs of the operations that display them, apart from the `YYYY-MM-DD` and `HH:MM` renderings, which the model builds.
- Case-insensitive matching lower-cases ASCII letters only. JavaScript's Unicode case mapping is not modelled.
- `bcrypt` hashing and comparison, and JWT signing and verification, are parameters. Token expiry and the secret are not modelled.
- OCR (`extractTextFromFile`) and multer's disk storage are not modelled. The scan handler takes the extracted text and the upload's name, MIME type and size as inputs.
- The JSON-file store of `server/src/routes/sections.routes.js` is not part of this model, nor are the client pages that edit it (AdminPreview, banners).
- Floating-point behaviour is not modelled: prices, ratings and coordinates are exact reals, including the courier's starting offset of 0.01 from the address. The order map's bounds and clamps are left out. The `Intl` currency formatting of the admin orders table is left out.
- The clock picker's dial angles and hand positions are left out; the hour and minute logic is modelled.
- Browser APIs are left out: `localStorage` persistence of the cart and of the chosen address (both appear as plain inputs), the `Notification` API (a notification is returned as a value), window events, debounce timers and the carousel interval (the rotation is modelled one tick at a time).
- React rendering is not modelled. A page's state changes are functions from the old state to the new state, and a request the page sends is the payload value it builds.
- The GET `/mine` listings of orders and appointments, the doctor CRUD projections in `server/src/routes/doctors.routes.js`, and the pages that only fetch and render are not part of this model: they have no logic beyond a filter by owner and a projection.
- Routing is modelled for the paths of the route table; every other path is a single unknown page. `defaultLanding` is modelled on a loaded session, and the loading placeholder is modelled in the guard.
- Search.SearchSpec: states membership, the approval rule, the limits of the doctor list and when a matching profile can be missing, but not the order of the doctor list (the specialization and qualification matches first, then the name matches). `Search.SameDoctorTwice` shows that the list is not deduplicated.
- String lengths and string order use characters (Unicode code points), while JavaScript counts and compares UTF-16 code units. The length checks of the schemas (`min(2)` for names, `min(8)` for passwords, `max(64)` for the search query) and of the client forms (`name.trim().length`) therefore differ for characters outside the Basic Multilingual Plane: a one-character name such as "𝒜" passes `min(2)` in JavaScript and fails in the model. Likewise `categories.sort()` orders by code units and `Medicines.CategoryListSpec` by code points.
- ClockPicker.Display: the pointer-up handler of the dial calls `emit` with the hour and minute of the render in which the drag began (`client/src/components/ui/ClockPicker2.jsx:79`), so a drag can emit the value from before the pick. The model does not follow this stale capture; `Display` is the text of the state as shown.
- AdminOrdersPage.NumberOf: a number input is modelled as empty or holding a real number, as browsers keep the value of an `<input type="number">`. A field holding anything else, which `Number` would read as NaN, is not modelled.
- ExtractMedicines.UniqueByLoop: the key is the medicine id. The name fallback for a medicine without an id does not arise, because every catalogue entry has an id.
- Medicines.Matching: the escaped regular expression is modelled as a literal substring test. `ExtractMedicines.EscapeRoundTrip` proves that the escaped pattern denotes exactly the query text, which justifies this.
- DoctorSlotsPage.Generate: requires `slotMins > 0`, because with 0 or a negative length the source's loop never ends. The input's minimum of 5 minutes is a browser hint that the code does not enforce.
- ClockPicker.NumberOf: reads a field of digits only. `Number` also accepts signs, decimals, exponents and surrounding blanks; those readings are not modelled.
- UsersRoutes.PatchMe: a user who vanished between authentication and the update answers a null user rather than 404, as the source does. The address routes then answer the 500 of reading `addresses` of null; this is modelled as `NoSuchUser`.

## Findings

| source | as written | input that shows it | evidently intended | confidence | as-written member | corrected member |
|---|---|---|---|---|---|---|
| client/src/app/auth/ProtectedRoute.jsx:10 | a signed-in user whose role the route does not list is redirected to "/" | a doctor or an admin opening "/" or "/pharmacy": "/" admits only the user role, so it redirects to "/" again and the page never renders | redirect to the role's own landing page (`/doctor`, `/admin`) as `defaultLanding` in `client/src/app/App.jsx` does | medium, not executed | Routing.WrongRoleRedirectLoops | Routing.GuardToLanding |
