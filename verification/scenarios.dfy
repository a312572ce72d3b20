/**
 A client of the booking service, checking what the contracts of
 Store.BookingStore alone let a caller conclude. Days are counted from
 1 January 2024 as day 1, so 1 February 2024 is day 32.
 */
module Scenarios {
  import opened Wrappers
  import opened Roles
  import opened Engine
  import opened Store

  /** A store holding booking 1 of room 1 for days 1 to 5. */
  method OneBooking() returns (store: BookingStore)
    ensures fresh(store) && store.Valid()
    ensures store.bookings == [Booking(1, 1, "A", 1, 5)] && store.nextId == 2
  {
    store := new BookingStore();
    CreateOutcomes(store.Current(), User, 1, "A", 1, 5);
    var a := store.CreateBooking(User, 1, "A", 1, 5);
    assert a == Ok(Booking(1, 1, "A", 1, 5));
  }

  /** Overlaps on the same room are refused, including a shared boundary day. */
  method OverlapScenario()
  {
    var store := OneBooking();
    CreateOutcomes(store.Current(), User, 1, "B", 3, 10);
    assert Overlaps(store.bookings[0], 1, 3, 10);
    var b := store.CreateBooking(User, 1, "B", 3, 10);
    assert b == Err(RoomUnavailable);
    CreateOutcomes(store.Current(), User, 1, "B", 5, 10);
    assert Overlaps(store.bookings[0], 1, 5, 10);
    var touching := store.CreateBooking(User, 1, "B", 5, 10);
    assert touching == Err(RoomUnavailable);
    CreateOutcomes(store.Current(), Admin, 8, "D", 1, 1);
    var missing := store.CreateBooking(Admin, 8, "D", 1, 1);
    assert missing == Err(RoomNotFound);
  }

  /** A range that starts the day after another ends is free. */
  method AdjacentScenario() returns (store: BookingStore)
    ensures fresh(store) && store.Valid()
    ensures store.bookings == [Booking(1, 1, "A", 1, 5), Booking(2, 1, "B", 6, 10)] && store.nextId == 3
  {
    store := OneBooking();
    CreateOutcomes(store.Current(), User, 1, "B", 6, 10);
    assert !Overlaps(store.bookings[0], 1, 6, 10);
    var c := store.CreateBooking(User, 1, "B", 6, 10);
    assert c == Ok(Booking(2, 1, "B", 6, 10));
  }

  /** Only an admin lists, and gets the bookings in id order. */
  method ListScenario()
  {
    var store := AdjacentScenario();
    var asUser := store.ListBookings(User);
    assert asUser == Err(Forbidden);
    var asAdmin := store.ListBookings(Admin);
    assert asAdmin == Ok([Booking(1, 1, "A", 1, 5), Booking(2, 1, "B", 6, 10)]);
  }

  /** A reversed update fails whatever the role and leaves the booking as it was. */
  method UpdateScenario()
  {
    var store := AdjacentScenario();
    var before := store.bookings;
    UpdateOutcomes(store.Current(), Admin, 1, 32, 1);
    assert store.bookings[0].id == 1;
    var reversed := store.UpdateBooking(Admin, 1, 32, 1);
    assert reversed == Err(InvalidRange);
    assert store.bookings == before;
    UpdateOutcomes(store.Current(), User, 1, 2, 4);
    var byUser := store.UpdateBooking(User, 1, 2, 4);
    assert byUser == Err(Forbidden);
  }

  /** Deleting an unknown id fails and changes nothing; deleting booking 1 leaves booking 2. */
  method DeleteScenario() returns (store: BookingStore)
    ensures fresh(store) && store.Valid()
    ensures store.bookings == [Booking(2, 1, "B", 6, 10)] && store.nextId == 3
  {
    store := AdjacentScenario();
    DeleteOutcomes(store.Current(), Admin, 99);
    var unknown := store.DeleteBooking(Admin, 99);
    assert unknown == Err(BookingNotFound);
    assert store.bookings[0].id == 1;
    DeleteOutcomes(store.Current(), Admin, 1);
    assert FindBooking(store.bookings, 1) == Some(0);
    assert RemoveFirst(store.bookings, store.bookings[0]) == store.bookings[1..];
    var removed := store.DeleteBooking(Admin, 1);
    assert removed == Ok(());
  }

  /** After a delete, the next booking gets a fresh id rather than the deleted one. */
  method ReissueScenario()
  {
    var store := DeleteScenario();
    CreateOutcomes(store.Current(), User, 1, "A", 1, 5);
    assert !Overlaps(store.bookings[0], 1, 1, 5);
    var again := store.CreateBooking(User, 1, "A", 1, 5);
    assert again == Ok(Booking(3, 1, "A", 1, 5));
  }
}
