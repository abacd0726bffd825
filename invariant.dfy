/** The consistency rule that ties the room list to the allocation list, and
    the proof that each state change of the hotel system keeps it. */
module HotelInvariant {
  import opened HotelRecords

  /** What `add_room` checks before it stores a room. */
  predicate WellFormedRoom(r: Room) {
    r.price > 0.0 && r.capacity > 0
  }

  /** What `allocate_room` checks of the guest's details before it stores a booking. */
  predicate WellFormedAllocation(a: Allocation) {
    a.customerName != "" && a.nights > 0
  }

  ghost predicate RoomsWellFormed(rooms: seq<Room>) {
    forall i :: 0 <= i < |rooms| ==> WellFormedRoom(rooms[i])
  }

  ghost predicate AllocationsWellFormed(allocs: seq<Allocation>) {
    forall k :: 0 <= k < |allocs| ==> WellFormedAllocation(allocs[k])
  }

  /** Every allocation refers to a room that exists. */
  ghost predicate RefersToRooms(rooms: seq<Room>, allocs: seq<Allocation>) {
    forall k :: 0 <= k < |allocs| ==> allocs[k].roomNumber in Numbers(rooms)
  }

  /** A room is Occupied exactly when an allocation refers to it. */
  ghost predicate OccupancyMatches(rooms: seq<Room>, allocs: seq<Allocation>) {
    forall i :: 0 <= i < |rooms| ==>
      (rooms[i].status == Occupied <==> rooms[i].number in AllocatedNumbers(allocs))
  }

  /** Each allocation costs its room's per-night price times its nights. */
  ghost predicate CostsMatch(rooms: seq<Room>, allocs: seq<Allocation>) {
    forall i, k :: 0 <= i < |rooms| && 0 <= k < |allocs| && rooms[i].number == allocs[k].roomNumber ==>
      allocs[k].totalCost == TotalCost(rooms[i].price, allocs[k].nights)
  }

  /** The invariant of the hotel system: room numbers are unique, no two
      allocations share a room, and the conjuncts above. */
  ghost predicate Consistent(rooms: seq<Room>, allocs: seq<Allocation>) {
    && Distinct(Numbers(rooms))
    && Distinct(AllocatedNumbers(allocs))
    && RoomsWellFormed(rooms)
    && AllocationsWellFormed(allocs)
    && RefersToRooms(rooms, allocs)
    && OccupancyMatches(rooms, allocs)
    && CostsMatch(rooms, allocs)
  }

  /** A list without repeated keys holds each key at most once. */
  lemma {:induction false} DistinctCount(keys: seq<string>, key: string)
    requires Distinct(keys)
    ensures multiset(keys)[key] == if key in keys then 1 else 0
  {
    if keys != [] {
      assert keys == [keys[0]] + keys[1..];
      assert Distinct(keys[1..]) by {
        forall i, j | 0 <= i < j < |keys[1..]| ensures keys[1..][i] != keys[1..][j] {
          assert keys[1..][i] == keys[i + 1] && keys[1..][j] == keys[j + 1];
        }
      }
      DistinctCount(keys[1..], key);
      if key == keys[0] {
        assert key !in keys[1..] by {
          forall j | 0 <= j < |keys[1..]| ensures keys[1..][j] != key {
            assert keys[1..][j] == keys[j + 1];
          }
        }
      }
    }
  }

  /** In a consistent state a room is Occupied exactly when one allocation
      refers to it, and Available exactly when none does. */
  lemma OccupiedIffOneAllocation(rooms: seq<Room>, allocs: seq<Allocation>, i: nat)
    requires Consistent(rooms, allocs) && i < |rooms|
    ensures rooms[i].status == Occupied <==> multiset(AllocatedNumbers(allocs))[rooms[i].number] == 1
    ensures rooms[i].status == Available <==> multiset(AllocatedNumbers(allocs))[rooms[i].number] == 0
  {
    DistinctCount(AllocatedNumbers(allocs), rooms[i].number);
  }

  // ---------------------------------------------------------------------------
  // Lists after append and delete

  /** Deleting entry `i` of a list without repeated keys drops exactly that key. */
  lemma DistinctRemoveAt(keys: seq<string>, i: nat)
    requires Distinct(keys) && i < |keys|
    ensures Distinct(RemoveAt(keys, i))
    ensures keys[i] !in RemoveAt(keys, i)
    ensures forall key :: key in keys && key != keys[i] ==> key in RemoveAt(keys, i)
  {
    var rest := RemoveAt(keys, i);
    forall p, q | 0 <= p < q < |rest| ensures rest[p] != rest[q] {
      assert rest[p] == keys[if p < i then p else p + 1];
      assert rest[q] == keys[if q < i then q else q + 1];
    }
    forall j | 0 <= j < |rest| ensures rest[j] != keys[i] {
      var m := if j < i then j else j + 1;
      assert rest[j] == keys[m];
      if m < i { assert keys[m] != keys[i]; } else { assert keys[i] != keys[m]; }
    }
    forall key | key in keys && key != keys[i] ensures key in rest {
      var m :| 0 <= m < |keys| && keys[m] == key;
      assert rest[if m < i then m else m - 1] == key;
    }
  }

  /** Deleting entry `i` drops its number and keeps the others in order. */
  lemma NumbersRemoveAt(rooms: seq<Room>, i: nat)
    requires i < |rooms|
    ensures Numbers(RemoveAt(rooms, i)) == RemoveAt(Numbers(rooms), i)
  {
  }

  lemma AllocatedNumbersRemoveAt(allocs: seq<Allocation>, k: nat)
    requires k < |allocs|
    ensures AllocatedNumbers(RemoveAt(allocs, k)) == RemoveAt(AllocatedNumbers(allocs), k)
  {
  }

  /** A room added under a fresh number is the one a later lookup of that
      number finds, and if Available it comes last among the available rooms. */
  lemma AddedRoomIsFound(rooms: seq<Room>, room: Room)
    requires room.number !in Numbers(rooms)
    ensures FindRoom(rooms + [room], room.number) == Some(room)
    ensures room.status == Available ==> AvailableRooms(rooms + [room]) == AvailableRooms(rooms) + [room]
  {
    var keys := Numbers(rooms + [room]);
    assert keys == Numbers(rooms) + [room.number];
    var r := FirstIndex(keys, room.number);
    assert keys[|rooms|] == room.number;
    assert r.value == |rooms|;
    AvailableRoomsAppend(rooms, [room]);
    assert AvailableRooms([room][1..]) == [];
  }

  /** With unique room numbers, a deleted room can no longer be found and the
      remaining numbers stay unique. */
  lemma DeletedRoomIsGone(rooms: seq<Room>, i: nat)
    requires Distinct(Numbers(rooms)) && i < |rooms|
    ensures FindRoom(RemoveAt(rooms, i), rooms[i].number) == None
    ensures Distinct(Numbers(RemoveAt(rooms, i)))
  {
    NumbersRemoveAt(rooms, i);
    DistinctRemoveAt(Numbers(rooms), i);
  }

  // ---------------------------------------------------------------------------
  // The four state changes keep the invariant

  lemma AddRoomKeepsConsistent(rooms: seq<Room>, allocs: seq<Allocation>, room: Room)
    requires Consistent(rooms, allocs)
    requires room.number !in Numbers(rooms) && room.status == Available && WellFormedRoom(room)
    ensures Consistent(rooms + [room], allocs)
  {
    var rooms' := rooms + [room];
    assert Numbers(rooms') == Numbers(rooms) + [room.number];
    assert room.number !in AllocatedNumbers(allocs);
    assert OccupancyMatches(rooms', allocs) by {
      forall i | 0 <= i < |rooms'|
        ensures rooms'[i].status == Occupied <==> rooms'[i].number in AllocatedNumbers(allocs)
      {
        if i < |rooms| { assert rooms'[i] == rooms[i]; }
      }
    }
    assert CostsMatch(rooms', allocs) by {
      forall i, k | 0 <= i < |rooms'| && 0 <= k < |allocs| && rooms'[i].number == allocs[k].roomNumber
        ensures allocs[k].totalCost == TotalCost(rooms'[i].price, allocs[k].nights)
      {
        assert AllocatedNumbers(allocs)[k] == allocs[k].roomNumber;
        assert i < |rooms|;
      }
    }
  }

  lemma DeleteRoomKeepsConsistent(rooms: seq<Room>, allocs: seq<Allocation>, i: nat)
    requires Consistent(rooms, allocs) && i < |rooms| && rooms[i].status == Available
    ensures Consistent(RemoveAt(rooms, i), allocs)
  {
    var rooms' := RemoveAt(rooms, i);
    DeletedRoomIsGone(rooms, i);
    NumbersRemoveAt(rooms, i);
    DistinctRemoveAt(Numbers(rooms), i);
    assert RefersToRooms(rooms', allocs) by {
      forall k | 0 <= k < |allocs| ensures allocs[k].roomNumber in Numbers(rooms') {
        assert AllocatedNumbers(allocs)[k] == allocs[k].roomNumber;
        assert Numbers(rooms)[i] == rooms[i].number;
      }
    }
    assert OccupancyMatches(rooms', allocs) by {
      forall j | 0 <= j < |rooms'|
        ensures rooms'[j].status == Occupied <==> rooms'[j].number in AllocatedNumbers(allocs)
      {
        assert rooms'[j] == rooms[if j < i then j else j + 1];
      }
    }
    assert CostsMatch(rooms', allocs) by {
      forall j, k | 0 <= j < |rooms'| && 0 <= k < |allocs| && rooms'[j].number == allocs[k].roomNumber
        ensures allocs[k].totalCost == TotalCost(rooms'[j].price, allocs[k].nights)
      {
        assert rooms'[j] == rooms[if j < i then j else j + 1];
      }
    }
  }

  /** Booking an Available room at its own price keeps the state consistent,
      and leaves the room Occupied, so that it cannot be booked again. */
  lemma AllocateKeepsConsistent(rooms: seq<Room>, allocs: seq<Allocation>, room: Room, a: Allocation)
    requires Consistent(rooms, allocs)
    requires FindRoom(rooms, a.roomNumber) == Some(room) && room.status == Available
    requires a.totalCost == TotalCost(room.price, a.nights) && WellFormedAllocation(a)
    ensures Consistent(SetStatus(rooms, a.roomNumber, Occupied), allocs + [a])
    ensures FindRoom(SetStatus(rooms, a.roomNumber, Occupied), a.roomNumber) == Some(room.(status := Occupied))
  {
    FindAfterSetStatus(rooms, a.roomNumber, Occupied);
    var n := a.roomNumber;
    var rooms' := SetStatus(rooms, n, Occupied);
    var allocs' := allocs + [a];
    var i := FirstIndex(Numbers(rooms), n).value;
    assert rooms[i] == room;
    assert AllocatedNumbers(allocs') == AllocatedNumbers(allocs) + [n];
    assert n !in AllocatedNumbers(allocs);
    assert Distinct(AllocatedNumbers(allocs')) by {
      forall p, q | 0 <= p < q < |allocs'| ensures AllocatedNumbers(allocs')[p] != AllocatedNumbers(allocs')[q] {
        if q < |allocs| {
          assert AllocatedNumbers(allocs)[p] != AllocatedNumbers(allocs)[q];
        }
      }
    }
    assert AllocationsWellFormed(allocs') by {
      forall k | 0 <= k < |allocs'| ensures WellFormedAllocation(allocs'[k]) {
        if k < |allocs| { assert allocs'[k] == allocs[k]; }
      }
    }
    assert RefersToRooms(rooms', allocs') by {
      forall k | 0 <= k < |allocs'| ensures allocs'[k].roomNumber in Numbers(rooms') {
        if k < |allocs| { assert allocs'[k] == allocs[k]; }
      }
    }
    assert RoomsWellFormed(rooms') by {
      forall j | 0 <= j < |rooms'| ensures WellFormedRoom(rooms'[j]) {
        assert rooms'[j].(status := rooms[j].status) == rooms[j];
      }
    }
    assert OccupancyMatches(rooms', allocs') by {
      forall j | 0 <= j < |rooms'|
        ensures rooms'[j].status == Occupied <==> rooms'[j].number in AllocatedNumbers(allocs')
      {
        SetStatusOfDistinct(rooms, n, Occupied, j);
        assert rooms'[j].number == rooms[j].number by {
          assert Numbers(rooms')[j] == Numbers(rooms)[j];
        }
      }
    }
    assert CostsMatch(rooms', allocs') by {
      forall j, k | 0 <= j < |rooms'| && 0 <= k < |allocs'| && rooms'[j].number == allocs'[k].roomNumber
        ensures allocs'[k].totalCost == TotalCost(rooms'[j].price, allocs'[k].nights)
      {
        assert rooms'[j].(status := rooms[j].status) == rooms[j];
        if k == |allocs| {
          assert Numbers(rooms')[j] == Numbers(rooms)[j];
          FirstIndexOfDistinct(Numbers(rooms), j);
        } else {
          assert allocs'[k] == allocs[k];
        }
      }
    }
  }

  /** Releasing any one allocation and making its room Available again keeps
      the state consistent; afterwards no allocation refers to that room and
      a lookup finds it Available. */
  lemma ReleaseKeepsConsistent(rooms: seq<Room>, allocs: seq<Allocation>, k: nat)
    requires Consistent(rooms, allocs) && k < |allocs|
    ensures Consistent(SetStatus(rooms, allocs[k].roomNumber, Available), RemoveAt(allocs, k))
    ensures allocs[k].roomNumber !in AllocatedNumbers(RemoveAt(allocs, k))
    ensures FindRoom(SetStatus(rooms, allocs[k].roomNumber, Available), allocs[k].roomNumber)
         == Some(FindRoom(rooms, allocs[k].roomNumber).value.(status := Available))
  {
    assert AllocatedNumbers(allocs)[k] == allocs[k].roomNumber;
    FindAfterSetStatus(rooms, allocs[k].roomNumber, Available);
    var n := allocs[k].roomNumber;
    var rooms' := SetStatus(rooms, n, Available);
    var allocs' := RemoveAt(allocs, k);
    var keys := AllocatedNumbers(allocs);
    AllocatedNumbersRemoveAt(allocs, k);
    DistinctRemoveAt(keys, k);
    assert keys[k] == n;
    assert AllocationsWellFormed(allocs') by {
      forall q | 0 <= q < |allocs'| ensures WellFormedAllocation(allocs'[q]) {
        assert allocs'[q] == allocs[if q < k then q else q + 1];
      }
    }
    assert RefersToRooms(rooms', allocs') by {
      forall q | 0 <= q < |allocs'| ensures allocs'[q].roomNumber in Numbers(rooms') {
        assert allocs'[q] == allocs[if q < k then q else q + 1];
      }
    }
    assert RoomsWellFormed(rooms') by {
      forall j | 0 <= j < |rooms'| ensures WellFormedRoom(rooms'[j]) {
        assert rooms'[j].(status := rooms[j].status) == rooms[j];
      }
    }
    assert OccupancyMatches(rooms', allocs') by {
      forall j | 0 <= j < |rooms'|
        ensures rooms'[j].status == Occupied <==> rooms'[j].number in AllocatedNumbers(allocs')
      {
        SetStatusOfDistinct(rooms, n, Available, j);
        assert rooms'[j].number == rooms[j].number by {
          assert Numbers(rooms')[j] == Numbers(rooms)[j];
        }
      }
    }
    assert CostsMatch(rooms', allocs') by {
      forall j, q | 0 <= j < |rooms'| && 0 <= q < |allocs'| && rooms'[j].number == allocs'[q].roomNumber
        ensures allocs'[q].totalCost == TotalCost(rooms'[j].price, allocs'[q].nights)
      {
        assert rooms'[j].(status := rooms[j].status) == rooms[j];
        assert Numbers(rooms')[j] == Numbers(rooms)[j];
        assert allocs'[q] == allocs[if q < k then q else q + 1];
      }
    }
  }
}
