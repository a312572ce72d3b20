/**
 The fixed room catalogue of the hotel. Rooms are created once when the
 service starts and never change; the engine only ever looks a room up by
 its id, so a room is represented by that id alone.
 */
module Catalog {
  import opened Wrappers

  datatype Room = Room(id: int)

  /** The seven rooms of the catalogue, in the order they are declared. */
  const Rooms: seq<Room> := [Room(1), Room(2), Room(3), Room(4), Room(5), Room(6), Room(7)]

  /** The first room of `rooms` whose id is `roomId`, if there is one. */
  function FindRoom(rooms: seq<Room>, roomId: int): (r: Option<Room>)
    ensures r.Some? ==> r.value in rooms && r.value.id == roomId
    ensures r.None? ==> forall k :: 0 <= k < |rooms| ==> rooms[k].id != roomId
  {
    if rooms == [] then None
    else if rooms[0].id == roomId then Some(rooms[0])
    else FindRoom(rooms[1..], roomId)
  }

  predicate RoomExists(roomId: int)
  {
    FindRoom(Rooms, roomId).Some?
  }

  /** Exactly the ids 1 through 7 name a room of the catalogue. */
  lemma CatalogueIds(roomId: int)
    ensures RoomExists(roomId) <==> 1 <= roomId <= 7
  {
  }
}
