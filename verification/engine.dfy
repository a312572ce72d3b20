/**
 The reservation engine as a function of its state: the list of bookings in
 insertion order and the counter that supplies the next booking id. Each
 operation maps a state and its arguments to a new state and either a value
 or one typed failure. Dates are day numbers; a booking occupies every day
 from its start date to its end date, both included.
 */
module Engine {
  import opened Wrappers
  import opened Roles
  import Catalog

  datatype Booking = Booking(id: int, roomId: int, userName: string, startDate: int, endDate: int)

  datatype Error = InvalidRange | RoomNotFound | RoomUnavailable | BookingNotFound | Forbidden

  datatype Outcome<+T> = Ok(value: T) | Err(error: Error)

  datatype State = State(bookings: seq<Booking>, nextId: int)

  /** What an operation leaves behind and what it answers. */
  datatype Step<+T> = Step(state: State, result: Outcome<T>)

  /** No bookings yet; the first booking gets id 1. */
  function Initial(): State
  {
    State([], 1)
  }

  // ----- Predicates on bookings -----

  /** Booking `b` is on room `roomId` and shares at least one day with [startDate, endDate]. */
  predicate Overlaps(b: Booking, roomId: int, startDate: int, endDate: int)
  {
    b.roomId == roomId && !(b.endDate < startDate || b.startDate > endDate)
  }

  predicate Conflicts(bs: seq<Booking>, roomId: int, startDate: int, endDate: int)
  {
    exists k :: 0 <= k < |bs| && Overlaps(bs[k], roomId, startDate, endDate)
  }

  /** No two distinct bookings of the list occupy the same room on a common day. */
  predicate NoOverlap(bs: seq<Booking>)
  {
    forall i, j :: 0 <= i < |bs| && 0 <= j < |bs| && i != j ==>
      !Overlaps(bs[i], bs[j].roomId, bs[j].startDate, bs[j].endDate)
  }

  predicate IdsIncreasing(bs: seq<Booking>)
  {
    forall i, j :: 0 <= i < j < |bs| ==> bs[i].id < bs[j].id
  }

  predicate HasId(bs: seq<Booking>, id: int)
  {
    exists k :: 0 <= k < |bs| && bs[k].id == id
  }

  /**
   What holds of every state the operations can reach from `Initial()`: ids are
   positive, strictly increasing along the list and below the counter, and every
   booking has an ordered range on a room of the catalogue.
   */
  predicate WellFormed(s: State)
  {
    && 1 <= s.nextId
    && IdsIncreasing(s.bookings)
    && forall k :: 0 <= k < |s.bookings| ==>
         && 1 <= s.bookings[k].id < s.nextId
         && s.bookings[k].startDate <= s.bookings[k].endDate
         && Catalog.RoomExists(s.bookings[k].roomId)
  }

  // ----- Lookups -----

  /** Index of the first booking whose id is `id`, if there is one. */
  function FindBooking(bs: seq<Booking>, id: int): (r: Option<nat>)
    ensures r.Some? ==> r.value < |bs| && bs[r.value].id == id
    ensures r.Some? ==> forall j :: 0 <= j < r.value ==> bs[j].id != id
    ensures r.None? <==> !HasId(bs, id)
  {
    if bs == [] then None
    else if bs[0].id == id then Some(0)
    else match FindBooking(bs[1..], id)
      case None => None
      case Some(k) => Some(k + 1)
  }

  /** The list without its first element equal to `b`, as a list's `remove` does. */
  function RemoveFirst(bs: seq<Booking>, b: Booking): (r: seq<Booking>)
    requires b in bs
    ensures multiset(r) + multiset{b} == multiset(bs)
  {
    assert bs == [bs[0]] + bs[1..];
    if bs[0] == b then bs[1..]
    else [bs[0]] + RemoveFirst(bs[1..], b)
  }

  /** Removing the first element equal to `bs[k]`, when none before `k` is, removes position `k`. */
  lemma {:induction false} RemoveFirstAt(bs: seq<Booking>, k: nat)
    requires k < |bs|
    requires forall j :: 0 <= j < k ==> bs[j] != bs[k]
    ensures RemoveFirst(bs, bs[k]) == bs[..k] + bs[k + 1..]
  {
    if k > 0 {
      assert bs[1..][k - 1] == bs[k];
      RemoveFirstAt(bs[1..], k - 1);
      assert bs[1..][..k - 1] == bs[1..k];
      assert bs[1..][k..] == bs[k + 1..];
      assert bs[..k] == [bs[0]] + bs[1..k];
    }
  }

  // ----- Operations -----

  /**
   Books room `roomId` for [startDate, endDate]. Either role may book. The
   checks run in order: the range, the room, then the scan for an overlapping
   booking on the same room.
   */
  function Create(s: State, role: Role, roomId: int, userName: string, startDate: int, endDate: int): Step<Booking>
  {
    if startDate > endDate then Step(s, Err(InvalidRange))
    else if Catalog.FindRoom(Catalog.Rooms, roomId).None? then Step(s, Err(RoomNotFound))
    else if Conflicts(s.bookings, roomId, startDate, endDate) then Step(s, Err(RoomUnavailable))
    else
      var b := Booking(s.nextId, roomId, userName, startDate, endDate);
      Step(State(s.bookings + [b], s.nextId + 1), Ok(b))
  }

  /**
   Moves booking `bookingId` to [startDate, endDate]. The checks run in order:
   the booking, the range, then the role. No overlap check is made.
   */
  function Update(s: State, role: Role, bookingId: int, startDate: int, endDate: int): Step<Booking>
  {
    match FindBooking(s.bookings, bookingId)
    case None => Step(s, Err(BookingNotFound))
    case Some(k) =>
      if startDate > endDate then Step(s, Err(InvalidRange))
      else if role != Admin then Step(s, Err(Forbidden))
      else
        var b := s.bookings[k].(startDate := startDate, endDate := endDate);
        Step(s.(bookings := s.bookings[k := b]), Ok(b))
  }

  /** Removes booking `bookingId`. The checks run in order: the booking, then the role. */
  function Delete(s: State, role: Role, bookingId: int): Step<()>
  {
    match FindBooking(s.bookings, bookingId)
    case None => Step(s, Err(BookingNotFound))
    case Some(k) =>
      if role != Admin then Step(s, Err(Forbidden))
      else Step(s.(bookings := RemoveFirst(s.bookings, s.bookings[k])), Ok(()))
  }

  // ----- Properties of create -----

  /**
   Each failure of create and exactly when it happens; a failure changes
   nothing, and a success appends one booking with the counter as its id.
   */
  lemma CreateOutcomes(s: State, role: Role, roomId: int, userName: string, startDate: int, endDate: int)
    ensures var r := Create(s, role, roomId, userName, startDate, endDate);
      && (r.result == Err(InvalidRange) <==> startDate > endDate)
      && (r.result == Err(RoomNotFound) <==> startDate <= endDate && !(1 <= roomId <= 7))
      && (r.result == Err(RoomUnavailable) <==>
            && startDate <= endDate && 1 <= roomId <= 7
            && exists k :: 0 <= k < |s.bookings| && s.bookings[k].roomId == roomId
                 && !(s.bookings[k].endDate < startDate || s.bookings[k].startDate > endDate))
      && (r.result.Err? ==> r.state == s)
      && (r.result.Ok? ==>
            && r.result.value == Booking(s.nextId, roomId, userName, startDate, endDate)
            && r.state.bookings == s.bookings + [r.result.value]
            && r.state.nextId == s.nextId + 1)
  {
  }

  /** The role does not affect create: users and admins book alike. */
  lemma CreateIgnoresRole(s: State, roomId: int, userName: string, startDate: int, endDate: int)
    ensures Create(s, User, roomId, userName, startDate, endDate)
         == Create(s, Admin, roomId, userName, startDate, endDate)
  {
  }

  /** Create keeps the state well formed: the new id exceeds every id in the list. */
  lemma CreateKeepsWellFormed(s: State, role: Role, roomId: int, userName: string, startDate: int, endDate: int)
    requires WellFormed(s)
    ensures WellFormed(Create(s, role, roomId, userName, startDate, endDate).state)
  {
  }

  /** A successful create never introduces an overlap into an overlap-free list. */
  lemma CreateKeepsNoOverlap(s: State, role: Role, roomId: int, userName: string, startDate: int, endDate: int)
    requires NoOverlap(s.bookings)
    ensures NoOverlap(Create(s, role, roomId, userName, startDate, endDate).state.bookings)
  {
  }

  // ----- Properties of update -----

  /** The order of update's checks; every failure leaves the state as it was. */
  lemma UpdateOutcomes(s: State, role: Role, bookingId: int, startDate: int, endDate: int)
    ensures var r := Update(s, role, bookingId, startDate, endDate);
      && (!HasId(s.bookings, bookingId) ==> r.result == Err(BookingNotFound))
      && (HasId(s.bookings, bookingId) && startDate > endDate ==> r.result == Err(InvalidRange))
      && (HasId(s.bookings, bookingId) && startDate <= endDate && role == User ==> r.result == Err(Forbidden))
      && (HasId(s.bookings, bookingId) && startDate <= endDate && role == Admin ==> r.result.Ok?)
      && (r.result.Err? ==> r.state == s)
  {
  }

  /**
   A successful update rewrites the two dates of the booking with that id and
   nothing else: ids, rooms, names, the other bookings, their order and the
   counter stay as they were, and the state stays well formed.
   */
  lemma UpdateChangesOnlyDates(s: State, role: Role, bookingId: int, startDate: int, endDate: int)
    requires WellFormed(s)
    requires Update(s, role, bookingId, startDate, endDate).result.Ok?
    ensures var r := Update(s, role, bookingId, startDate, endDate);
      && r.state.nextId == s.nextId
      && |r.state.bookings| == |s.bookings|
      && (forall j :: 0 <= j < |s.bookings| ==>
            r.state.bookings[j] ==
              if s.bookings[j].id == bookingId
              then s.bookings[j].(startDate := startDate, endDate := endDate)
              else s.bookings[j])
      && r.result.value.id == bookingId
      && r.result.value.startDate == startDate && r.result.value.endDate == endDate
      && WellFormed(r.state)
  {
  }

  /** Update keeps the id of every position, whatever its outcome. */
  lemma UpdateKeepsIds(s: State, role: Role, bookingId: int, startDate: int, endDate: int)
    ensures var r := Update(s, role, bookingId, startDate, endDate);
      && r.state.nextId == s.nextId
      && |r.state.bookings| == |s.bookings|
      && forall j :: 0 <= j < |s.bookings| ==> r.state.bookings[j].id == s.bookings[j].id
  {
  }

  /**
   Update does not re-check overlap: from an overlap-free, well-formed state,
   moving booking 2 onto day 5 of room 1 succeeds and leaves two bookings of
   room 1 sharing that day.
   */
  lemma UpdateMayIntroduceOverlap()
    ensures var s := State([Booking(1, 1, "A", 1, 5), Booking(2, 1, "B", 6, 10)], 3);
      && WellFormed(s) && NoOverlap(s.bookings)
      && Update(s, Admin, 2, 5, 10).result.Ok?
      && !NoOverlap(Update(s, Admin, 2, 5, 10).state.bookings)
  {
    var s := State([Booking(1, 1, "A", 1, 5), Booking(2, 1, "B", 6, 10)], 3);
    Catalog.CatalogueIds(1);
    var t := Update(s, Admin, 2, 5, 10).state.bookings;
    assert t[0] == Booking(1, 1, "A", 1, 5) && t[1] == Booking(2, 1, "B", 5, 10);
    assert Overlaps(t[0], t[1].roomId, t[1].startDate, t[1].endDate);
  }

  // ----- Properties of delete -----

  /** The order of delete's checks; every failure leaves the state as it was. */
  lemma DeleteOutcomes(s: State, role: Role, bookingId: int)
    ensures var r := Delete(s, role, bookingId);
      && (!HasId(s.bookings, bookingId) ==> r.result == Err(BookingNotFound))
      && (HasId(s.bookings, bookingId) && role == User ==> r.result == Err(Forbidden))
      && (HasId(s.bookings, bookingId) && role == Admin ==> r.result.Ok?)
      && (r.result.Err? ==> r.state == s)
  {
  }

  /**
   A successful delete removes the one booking with that id, keeps the others
   in their order and leaves the counter alone, so the id stays below the
   counter and is never handed out again by create.
   */
  lemma DeleteRemovesExactlyOne(s: State, role: Role, bookingId: int)
    requires WellFormed(s)
    requires Delete(s, role, bookingId).result.Ok?
    ensures var r := Delete(s, role, bookingId);
      && r.state.nextId == s.nextId
      && (exists k :: 0 <= k < |s.bookings| && s.bookings[k].id == bookingId
            && r.state.bookings == s.bookings[..k] + s.bookings[k + 1..])
      && !HasId(r.state.bookings, bookingId)
      && bookingId < r.state.nextId
      && WellFormed(r.state)
  {
    var k := FindBooking(s.bookings, bookingId).value;
    var bs := s.bookings;
    RemoveFirstAt(bs, k);
    var t := Delete(s, role, bookingId).state.bookings;
    assert t == bs[..k] + bs[k + 1..];
    forall j | 0 <= j < |t| ensures t[j] == bs[if j < k then j else j + 1] && t[j].id != bookingId {
      if j < k {
        assert t[j] == bs[j];
      } else {
        assert t[j] == bs[j + 1];
        assert bs[k].id < bs[j + 1].id;
      }
    }
  }

  /** Removing the found booking keeps an overlap-free list overlap-free. */
  lemma DeleteKeepsNoOverlap(s: State, role: Role, bookingId: int)
    requires NoOverlap(s.bookings)
    ensures NoOverlap(Delete(s, role, bookingId).state.bookings)
  {
    var r := Delete(s, role, bookingId);
    if r.result.Ok? {
      var k := FindBooking(s.bookings, bookingId).value;
      var bs := s.bookings;
      RemoveFirstAt(bs, k);
      var t := r.state.bookings;
      assert |t| == |bs| - 1;
      forall j | 0 <= j < |t| ensures t[j] == bs[if j < k then j else j + 1] {
        if j < k { assert t[j] == bs[j]; } else { assert t[j] == bs[j + 1]; }
      }
    }
  }

  /** Every booking left by delete was in the list before. */
  lemma DeleteKeepsOnlyOld(s: State, role: Role, bookingId: int)
    ensures var r := Delete(s, role, bookingId);
      && r.state.nextId == s.nextId
      && forall b :: b in r.state.bookings ==> b in s.bookings
  {
    var r := Delete(s, role, bookingId);
    if r.result.Ok? {
      var k := FindBooking(s.bookings, bookingId).value;
      var t := RemoveFirst(s.bookings, s.bookings[k]);
      forall b | b in t ensures b in s.bookings {
        assert b in multiset(t);
        assert b in multiset(s.bookings);
      }
    }
  }
}
