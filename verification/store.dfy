/**
 The booking service as the program keeps it: one object owning the list of
 bookings and the id counter, changed in place by the four operations. Each
 method leaves exactly the state, and gives exactly the answer, that the
 corresponding function of module Engine describes.
 */
module Store {
  import opened Wrappers
  import opened Roles
  import Catalog
  import opened Engine

  class BookingStore {
    var bookings: seq<Booking>
    var nextId: int

    function Current(): State
      reads this
    {
      State(bookings, nextId)
    }

    ghost predicate Valid()
      reads this
    {
      WellFormed(Current())
    }

    /** The service starts with no bookings and the counter at 1. */
    constructor ()
      ensures Valid() && Current() == Initial()
    {
      bookings := [];
      nextId := 1;
    }

    method CreateBooking(role: Role, roomId: int, userName: string, startDate: int, endDate: int)
      returns (r: Outcome<Booking>)
      requires Valid()
      modifies this
      ensures Valid()
      ensures Current() == Create(old(Current()), role, roomId, userName, startDate, endDate).state
      ensures r == Create(old(Current()), role, roomId, userName, startDate, endDate).result
      ensures old(NoOverlap(bookings)) ==> NoOverlap(bookings)
    {
      CreateKeepsWellFormed(Current(), role, roomId, userName, startDate, endDate);
      if NoOverlap(bookings) {
        CreateKeepsNoOverlap(Current(), role, roomId, userName, startDate, endDate);
      }
      if startDate > endDate {
        return Err(InvalidRange);
      }
      var room := Catalog.FindRoom(Catalog.Rooms, roomId);
      if room.None? {
        return Err(RoomNotFound);
      }
      var i := 0;
      while i < |bookings|
        invariant 0 <= i <= |bookings|
        invariant forall j :: 0 <= j < i ==> !Overlaps(bookings[j], roomId, startDate, endDate)
      {
        var b := bookings[i];
        if b.roomId == roomId && !(b.endDate < startDate || b.startDate > endDate) {
          return Err(RoomUnavailable);
        }
        i := i + 1;
      }
      var booking := Booking(nextId, roomId, userName, startDate, endDate);
      bookings := bookings + [booking];
      nextId := nextId + 1;
      r := Ok(booking);
    }

    /** Only an admin may list; the list comes back in insertion order, which is id order. */
    method ListBookings(role: Role) returns (r: Outcome<seq<Booking>>)
      requires Valid()
      ensures role == Admin ==> r == Ok(bookings)
      ensures role == User ==> r == Err(Forbidden)
      ensures r.Ok? ==> IdsIncreasing(r.value)
    {
      if role == Admin {
        r := Ok(bookings);
      } else {
        r := Err(Forbidden);
      }
    }

    method UpdateBooking(role: Role, bookingId: int, startDate: int, endDate: int)
      returns (r: Outcome<Booking>)
      requires Valid()
      modifies this
      ensures Valid()
      ensures Current() == Update(old(Current()), role, bookingId, startDate, endDate).state
      ensures r == Update(old(Current()), role, bookingId, startDate, endDate).result
    {
      var found := FindBooking(bookings, bookingId);
      if found.None? {
        return Err(BookingNotFound);
      }
      if startDate > endDate {
        return Err(InvalidRange);
      }
      if role != Admin {
        return Err(Forbidden);
      }
      UpdateChangesOnlyDates(Current(), role, bookingId, startDate, endDate);
      var k := found.value;
      var booking := bookings[k].(startDate := startDate, endDate := endDate);
      bookings := bookings[k := booking];
      r := Ok(booking);
    }

    method DeleteBooking(role: Role, bookingId: int) returns (r: Outcome<()>)
      requires Valid()
      modifies this
      ensures Valid()
      ensures Current() == Delete(old(Current()), role, bookingId).state
      ensures r == Delete(old(Current()), role, bookingId).result
    {
      var found := FindBooking(bookings, bookingId);
      if found.None? {
        return Err(BookingNotFound);
      }
      if role != Admin {
        return Err(Forbidden);
      }
      DeleteRemovesExactlyOne(Current(), role, bookingId);
      bookings := RemoveFirst(bookings, bookings[found.value]);
      r := Ok(());
    }
  }
}
