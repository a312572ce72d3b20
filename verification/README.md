# Hotel room booking engine, modelled in Dafny

This project models the booking engine of a small hotel reservation service.
The service keeps a fixed catalogue of seven rooms (ids 1 to 7). It holds an
in-memory list of bookings and a counter that supplies booking ids, starting
at 1. Four operations work on that state:

- **create** books a room for an inclusive range of days. Both roles may
  create. Its checks run in this order:
  1. the range must be ordered (`InvalidRange`);
  2. the room must exist (`RoomNotFound`);
  3. no booking of the same room may share a day with the range
     (`RoomUnavailable`).

  On success it appends the booking, with the counter as its id, and then
  bumps the counter.
- **list** returns every booking in insertion order. Only an admin may list.
- **update** moves a booking to a new range. Its checks run in this order:
  1. the booking must exist;
  2. the range must be ordered;
  3. the caller must be an admin.

  On success it rewrites the two dates. It does not check for overlaps.
- **delete** removes a booking. It first checks that the booking exists,
  then that the caller is an admin.

The role header is resolved before any operation runs. Only "admin" and "user"
are accepted.

Layout:

- `wrappers.dfy` (`Wrappers`): the `Option` type.
- `catalog.dfy` (`Catalog`): the room catalogue and the lookup by room id.
- `roles.dfy` (`Roles`): the two roles and how the role header resolves.
- `engine.dfy` (`Engine`): the bookings, the typed failures and the engine
  state. Each operation is a function from a state to a `Step` (new state
  and result). The module also holds the lemmas that state what each
  operation promises.
- `store.dfy` (`Store`): `BookingStore`, the service as the program keeps it:
  a `bookings` sequence and a `nextId` counter, changed in place. Each method
  is proved to leave exactly the state, and give exactly the answer, that the
  `Engine` function describes. `CreateBooking` keeps the source's early-exit
  scan over the bookings as a loop.
- `history.dfy` (`History`): runs of many requests. Every reachable state
  is well formed. Issued ids strictly increase. An id that has left the list
  never comes back. Overlap-freedom holds as long as no update is served.
- `scenarios.dfy` (`Scenarios`): client methods that drive a `BookingStore`
  through concrete request sequences, using only its contracts.
  - `OverlapScenario` shows that a shared boundary day conflicts.
  - `AdjacentScenario` shows that back-to-back ranges do not conflict.
  - `ListScenario`, `UpdateScenario`, `DeleteScenario` and
    `ReissueScenario` cover roles, a reversed update, an unknown id and
    id reuse after a delete.

  Day 1 is 1 January 2024.

The engine is meant to keep any two bookings of a room from overlapping,
after any sequence of operations. The model follows the code, and in the code
`update_booking` (main.py:93-111) never re-checks overlap. So that property
holds only for create, list and delete. `Engine.UpdateMayIntroduceOverlap` exhibits a
well-formed, overlap-free state that a successful update turns into an
overlapping one. `History.NoOverlapWithoutUpdates` proves the property for
every run without updates.

## Model

| member | source | states |
|---|---|---|
| `Catalog.FindRoom` | main.py:61 | The room found has the requested id and is in the catalogue; none is found only when no room of the catalogue has that id. |
| `Catalog.CatalogueIds` | main.py:26-34 | A room id names a room of the catalogue exactly when it lies between 1 and 7. |
| `Roles.ResolveRole` | main.py:40-43 | The role header resolves to a role exactly when it is "admin" or "user"; anything else, including a missing header, is refused. |
| `Roles.ResolveRoleRoundTrip` | main.py:40-43 | Resolving the name of a role gives that role back, and a header that resolves to a role is that role's name. |
| `Engine.FindBooking` | main.py:99 | The index found holds a booking with the requested id and no earlier booking has that id; nothing is found exactly when no booking has that id. |
| `Engine.RemoveFirst` | main.py:124 | Removing a booking from the list takes away one occurrence of it and keeps every other element (as multisets). |
| `Engine.RemoveFirstAt` | main.py:117-124 | When no booking before position k equals the one at k, removing that booking removes exactly position k and keeps the order of the rest. |
| `Engine.CreateOutcomes` | main.py:49-79 | Create fails with InvalidRange exactly when start > end, with RoomNotFound exactly when the range is ordered and the room id is outside 1..7, and with RoomUnavailable exactly when, beyond those, some booking of that room satisfies not (end < start or start' > end'). Every failure leaves bookings and counter unchanged. A success appends exactly one booking, with the old counter as id and the given room, name and dates, and bumps the counter by 1. |
| `Engine.CreateIgnoresRole` | main.py:49-56 | Create gives the same state and answer for a user as for an admin. |
| `Engine.CreateKeepsWellFormed` | main.py:70-78 | After create, ids are still positive, strictly increasing in list order and below the counter, and every booking still has an ordered range on a catalogue room. |
| `Engine.CreateKeepsNoOverlap` | main.py:66-77 | If no two bookings of a room shared a day before create, none do afterwards. |
| `Engine.UpdateOutcomes` | main.py:99-107 | Update fails with BookingNotFound when no booking has the id; otherwise with InvalidRange on a reversed range, whatever the role; otherwise with Forbidden for a user; otherwise it succeeds. Every failure leaves the state unchanged. |
| `Engine.UpdateChangesOnlyDates` | main.py:109-111 | A successful update replaces only the start and end date of the booking with that id. Its id, room and name, all other bookings, the list order and the counter stay the same, and the state stays well formed. |
| `Engine.UpdateKeepsIds` | main.py:109-110 | Whatever its outcome, update keeps the id at every position of the list and the counter. |
| `Engine.UpdateMayIntroduceOverlap` | main.py:93-111 | Update does not re-check overlap: moving booking 2 of room 1 to start on day 5 succeeds and leaves it sharing day 5 with booking 1. |
| `Engine.DeleteOutcomes` | main.py:117-122 | Delete fails with BookingNotFound when no booking has the id, otherwise with Forbidden for a user, otherwise it succeeds; every failure leaves the state unchanged. |
| `Engine.DeleteRemovesExactlyOne` | main.py:116-125 | A successful delete removes exactly the booking with that id. The others keep their relative order and the counter does not change. The id is left absent from the list and below the counter, and the state stays well formed. |
| `Engine.DeleteKeepsNoOverlap` | main.py:124 | Delete keeps an overlap-free list overlap-free. |
| `Engine.DeleteKeepsOnlyOld` | main.py:124 | Every booking left by delete was in the list before, and the counter is unchanged. |
| `Store.BookingStore.constructor` | main.py:36-37 | The service starts with no bookings and the counter at 1. |
| `Store.BookingStore.CreateBooking` | main.py:49-79 | The early-exit scan and the in-place append leave exactly the state and answer of `Engine.Create`. Well-formedness is kept, and an overlap-free list stays overlap-free. |
| `Store.BookingStore.ListBookings` | main.py:84-88 | An admin gets the booking list unchanged, in insertion order, which is increasing id order; a user gets Forbidden; nothing changes. |
| `Store.BookingStore.UpdateBooking` | main.py:93-111 | The in-place date rewrite leaves exactly the state and answer of `Engine.Update` and keeps the state well formed. |
| `Store.BookingStore.DeleteBooking` | main.py:116-125 | The lookup and in-place removal leave exactly the state and answer of `Engine.Delete` and keep the state well formed. |
| `History.NextKeepsWellFormed` | main.py:49-125 | Serving any one request keeps the state well formed. |
| `History.RunKeepsWellFormed` | main.py:49-125 | Serving any sequence of requests keeps the state well formed. |
| `History.ReachableIsWellFormed` | main.py:36-37 | Every state reachable from the empty start is well formed. This includes: every accepted booking has start <= end. |
| `History.NextIssues` | main.py:70-78 | One request never lowers the counter; it issues either no id or exactly the current counter, which it then bumps by 1. |
| `History.IssuedIdsIncrease` | main.py:70-78 | Along any run, with any deletes in between, the ids handed out by successful creates strictly increase. All of them are at least the counter at the start and below the counter at the end, so no id is handed out twice. |
| `History.RetiredIdStaysRetired` | main.py:71-78 | An id below the counter that is not in the list never appears in the list again, whatever requests follow. |
| `History.DeletedIdNeverReturns` | main.py:124 | After an admin deletes an existing booking (the one successful path of delete), no sequence of later requests brings the deleted id back. |
| `History.NoOverlapWithoutUpdates` | main.py:66-68 | Any run of create, list and delete requests keeps an overlap-free list overlap-free. |
| `Scenarios.OneBooking` | main.py:49-79 | A user creating room 1 for days 1 to 5 on a fresh service gets booking 1. |
| `Scenarios.AdjacentScenario` | main.py:66-68 | A booking for days 6 to 10 of room 1 is accepted next to one ending on day 5, and gets id 2. |
| `Scenarios.DeleteScenario` | main.py:116-125 | Deleting the unknown id 99 changes nothing. Deleting booking 1 then leaves only booking 2, with the counter still at 3. |

## Left out

- The command-line client (`client.py`) is not part of this model. It only builds HTTP requests and prints the responses.
- The HTTP layer is not modelled. This covers routes, header injection, status codes, the response message texts and the `{"message": ...}` bodies. Results are the typed `Outcome` values, and the 403 for a missing or unknown role header is `None` from `Roles.ResolveRole`.
- Server start-up (main.py:128-129) and the parsing of dates from request strings are left out. Dates are already-parsed day numbers, unbounded integers. The calendar limits of a date type are not modelled.
- Rooms carry only their id. Number, type, price (a float) and description take part in no decision.
- Concurrency is left out. The service has no locking, and the model is a single sequential owner of the state.
- Object identity is not modelled. Bookings are values, so the model does not capture that the booking object returned by create is the same object a later update rewrites. It also does not capture that list hands out the live list rather than a copy.
- The `ValueError` that a list's `remove` raises for an absent element is not modelled. Delete only removes a booking it has just found, so that error cannot occur.
