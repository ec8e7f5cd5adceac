/** The periodic job that reconciles every room's status with today's
    bookings. */
module RoomAvailabilityCommand {
  import opened Common
  import opened Rooms
  import opened Bookings

  /** A paid or confirmed booking of `room` covers `today`. */
  predicate HasActiveBooking(room: Room, bookings: seq<Booking>, today: Day)
    reads bookings
  {
    exists i :: 0 <= i < |bookings| && bookings[i].room == room && bookings[i].CoversDay(today)
  }

  /** A paid or confirmed booking of `room` starts after `today`. */
  predicate HasFutureBooking(room: Room, bookings: seq<Booking>, today: Day)
    reads bookings
  {
    exists i :: 0 <= i < |bookings| && bookings[i].room == room && bookings[i].StartsAfter(today)
  }

  /** The status and availability flag the job leaves a room with, given its
      current ones and whether it has a booking covering today or starting
      later. */
  function Reconcile(status: RoomStatus, isAvailable: bool, active: bool, future: bool): (r: (RoomStatus, bool))
    ensures active ==> r.0 == Occupied
    ensures active && status != Occupied ==> !r.1
    ensures active && status == Occupied ==> r == (status, isAvailable)
    ensures !active && !future && status == Occupied ==> r == (Available, true)
    ensures !active && (future || status != Occupied) ==> r == (status, isAvailable)
  {
    if active then
      if status != Occupied then (Occupied, false) else (status, isAvailable)
    else if !future && status == Occupied then (Available, true)
    else (status, isAvailable)
  }

  /** The job would change a room in this situation. */
  predicate NeedsUpdate(status: RoomStatus, active: bool, future: bool)
  {
    if active then status != Occupied else !future && status == Occupied
  }

  /** A room already reconciled needs no further update. */
  lemma ReconcileIsStable(status: RoomStatus, isAvailable: bool, active: bool, future: bool)
    ensures var r := Reconcile(status, isAvailable, active, future); !NeedsUpdate(r.0, active, future)
    ensures !NeedsUpdate(status, active, future) ==> Reconcile(status, isAvailable, active, future) == (status, isAvailable)
  {
  }

  /** The job would change `room`. */
  predicate RoomNeedsUpdate(room: Room, bookings: seq<Booking>, today: Day)
    reads room, bookings
  {
    NeedsUpdate(room.status, HasActiveBooking(room, bookings, today), HasFutureBooking(room, bookings, today))
  }

  /** How many of `rooms` the job would change. */
  function UpdatesNeeded(rooms: seq<Room>, bookings: seq<Booking>, today: Day): (n: nat)
    reads rooms, bookings
    ensures n <= |rooms|
  {
    if rooms == [] then 0
    else UpdatesNeeded(rooms[..|rooms| - 1], bookings, today)
         + if RoomNeedsUpdate(rooms[|rooms| - 1], bookings, today) then 1 else 0
  }

  /** `update_room_availability`: each room takes its reconciled state, the
      count is that of the rooms that changed, and afterwards no room needs an
      update, so running the job again changes nothing. `rooms` is the room
      table, whose rows are distinct. */
  method UpdateRoomAvailability(rooms: seq<Room>, bookings: seq<Booking>, today: Day) returns (updatedCount: nat)
    requires forall i, j :: 0 <= i < j < |rooms| ==> rooms[i] != rooms[j]
    modifies rooms
    ensures updatedCount == old(UpdatesNeeded(rooms, bookings, today))
    ensures forall i :: 0 <= i < |rooms| ==>
      (rooms[i].status, rooms[i].isAvailable)
      == Reconcile(old(rooms[i].status), old(rooms[i].isAvailable),
                   old(HasActiveBooking(rooms[i], bookings, today)), old(HasFutureBooking(rooms[i], bookings, today)))
    ensures forall i :: 0 <= i < |rooms| ==> !RoomNeedsUpdate(rooms[i], bookings, today)
  {
    updatedCount := 0;
    var i := 0;
    while i < |rooms|
      invariant 0 <= i <= |rooms|
      invariant updatedCount == old(UpdatesNeeded(rooms[..i], bookings, today))
      invariant forall j :: 0 <= j < i ==>
        (rooms[j].status, rooms[j].isAvailable)
        == Reconcile(old(rooms[j].status), old(rooms[j].isAvailable),
                     old(HasActiveBooking(rooms[j], bookings, today)), old(HasFutureBooking(rooms[j], bookings, today)))
      invariant forall j :: i <= j < |rooms| ==>
        rooms[j].status == old(rooms[j].status) && rooms[j].isAvailable == old(rooms[j].isAvailable)
    {
      var room := rooms[i];
      assert rooms[..i + 1][..i] == rooms[..i];
      var active := HasActiveBooking(room, bookings, today);
      var future := HasFutureBooking(room, bookings, today);
      if active {
        if room.status != Occupied {
          room.status := Occupied;
          room.isAvailable := false;
          updatedCount := updatedCount + 1;
        }
      } else if !future && room.status == Occupied {
        room.status := Available;
        room.isAvailable := true;
        updatedCount := updatedCount + 1;
      }
      i := i + 1;
    }
    assert rooms[..|rooms|] == rooms;
    forall i | 0 <= i < |rooms| ensures !RoomNeedsUpdate(rooms[i], bookings, today) {
      ReconcileIsStable(old(rooms[i].status), old(rooms[i].isAvailable),
                        old(HasActiveBooking(rooms[i], bookings, today)), old(HasFutureBooking(rooms[i], bookings, today)));
    }
  }

  /** Rooms that need no update are not counted: a second run reports zero. */
  lemma {:induction false} NothingNeededCountsZero(rooms: seq<Room>, bookings: seq<Booking>, today: Day)
    requires forall i :: 0 <= i < |rooms| ==> !RoomNeedsUpdate(rooms[i], bookings, today)
    ensures UpdatesNeeded(rooms, bookings, today) == 0
  {
    if rooms != [] {
      var front := rooms[..|rooms| - 1];
      assert forall i :: 0 <= i < |front| ==> front[i] == rooms[i];
      NothingNeededCountsZero(front, bookings, today);
    }
  }

  /** A room under maintenance or being cleaned is left alone unless a paid or
      confirmed booking covers today, in which case it is taken over as
      occupied. */
  lemma MaintenanceAndCleaningKeptWhenIdle(status: RoomStatus, isAvailable: bool, active: bool, future: bool)
    requires status == Maintenance || status == Cleaning
    ensures !active ==> Reconcile(status, isAvailable, active, future) == (status, isAvailable)
    ensures active ==> Reconcile(status, isAvailable, active, future) == (Occupied, false)
  {
  }

  /** An occupied room whose guest has left stays occupied while any later
      stay is booked for it. */
  lemma OccupiedKeptWhileFutureStayBooked(isAvailable: bool)
    ensures Reconcile(Occupied, isAvailable, false, true) == (Occupied, isAvailable)
  {
  }
}
