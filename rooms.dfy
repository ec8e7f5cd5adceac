/** Room inventory: room types (a price and a capacity shared by many rooms) and
    the individual rooms whose status the booking rules overwrite. */
module Rooms {
  import opened Common

  datatype RoomStatus = Available | Occupied | Maintenance | Cleaning

  datatype RoomCategory = Basic | Standard | Premium | Luxury | Suite

  /** A room type; nothing in the core changes one, so it is a value. */
  datatype RoomType = RoomType(
    id: nat,
    name: string,
    category: RoomCategory,
    pricePerNight: real,
    numberOfBeds: nat,
    roomCapacity: nat,
    totalRooms: nat)
  {
    /** `room` is of this type and its availability flag is set. */
    predicate Offers(room: Room)
      reads room
    {
      room.roomType.id == id && room.isAvailable
    }

    /** The rooms of this type whose availability flag is set, each as often
        as it occurs in `rooms`. */
    function AvailableRooms(rooms: seq<Room>): (r: seq<Room>)
      reads rooms
      ensures forall x :: x in r ==> x in rooms && Offers(x)
      ensures forall x :: x in rooms && Offers(x) ==> x in r
      ensures multiset(r) <= multiset(rooms)
      ensures forall x :: x in rooms ==> multiset(r)[x] == if Offers(x) then multiset(rooms)[x] else 0
    {
      if rooms == [] then []
      else
        var front, last := rooms[..|rooms| - 1], rooms[|rooms| - 1];
        assert rooms == front + [last];
        var kept := if Offers(last) then [last] else [];
        assert multiset(kept) == if Offers(last) then multiset{last} else multiset{};
        AvailableRooms(front) + kept
    }

    /** `available_rooms_count`: how many rooms of this type are open for booking. */
    function AvailableRoomsCount(rooms: seq<Room>): (n: nat)
      reads rooms
      ensures n == 0 <==> forall i :: 0 <= i < |rooms| ==> !Offers(rooms[i])
    {
      var r := AvailableRooms(rooms);
      assert r != [] ==> r[0] in rooms && Offers(r[0]) by {
        if r != [] {
          assert r[0] in r;
        }
      }
      |r|
    }
  }

  /** The number of rooms of the given type, available or not. */
  function RoomsOfType(rooms: seq<Room>, typeId: nat): nat
    reads rooms
  {
    if rooms == [] then 0
    else RoomsOfType(rooms[..|rooms| - 1], typeId) + if rooms[|rooms| - 1].roomType.id == typeId then 1 else 0
  }

  /** A physical room. Its number and type never change; its status and its
      availability flag are overwritten by booking writes and by the nightly
      reconciliation. */
  class Room {
    const number: string
    const floor: nat
    const roomType: RoomType
    var status: RoomStatus
    var isAvailable: bool

    constructor (number: string, floor: nat, roomType: RoomType)
      ensures this.number == number && this.floor == floor && this.roomType == roomType
      ensures status == Available && isAvailable
    {
      this.number := number;
      this.floor := floor;
      this.roomType := roomType;
      status := Available;
      isAvailable := true;
    }
  }

  /** The available-room count of a type never exceeds the number of rooms of
      that type, and reaches it exactly when every room of the type has its
      availability flag set. */
  lemma {:induction false} AvailableRoomsCountBounded(rt: RoomType, rooms: seq<Room>)
    ensures rt.AvailableRoomsCount(rooms) <= RoomsOfType(rooms, rt.id) <= |rooms|
    ensures rt.AvailableRoomsCount(rooms) == RoomsOfType(rooms, rt.id) <==> AllOfTypeAvailable(rooms, rt.id)
  {
    if rooms != [] {
      var front, last := rooms[..|rooms| - 1], rooms[|rooms| - 1];
      AvailableRoomsCountBounded(rt, front);
      assert rt.AvailableRoomsCount(rooms) == rt.AvailableRoomsCount(front) + if rt.Offers(last) then 1 else 0;
      assert RoomsOfType(rooms, rt.id) == RoomsOfType(front, rt.id) + if last.roomType.id == rt.id then 1 else 0;
      AllOfTypeAvailableSplit(rooms, rt.id);
    }
  }

  /** Every room of type `typeId` in `rooms` has its availability flag set. */
  predicate AllOfTypeAvailable(rooms: seq<Room>, typeId: nat)
    reads rooms
  {
    forall i :: 0 <= i < |rooms| && rooms[i].roomType.id == typeId ==> rooms[i].isAvailable
  }

  lemma AllOfTypeAvailableSplit(rooms: seq<Room>, typeId: nat)
    requires rooms != []
    ensures AllOfTypeAvailable(rooms, typeId) <==>
      AllOfTypeAvailable(rooms[..|rooms| - 1], typeId)
      && (rooms[|rooms| - 1].roomType.id == typeId ==> rooms[|rooms| - 1].isAvailable)
  {
    var front := rooms[..|rooms| - 1];
    assert forall i :: 0 <= i < |front| ==> front[i] == rooms[i];
  }
}
