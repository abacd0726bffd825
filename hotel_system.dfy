/** The in-memory state of the Langham hotel system: the room list and the
    allocation list, and the four operations that change them. */
module HotelSystem {
  import opened HotelRecords
  import opened HotelInvariant

  class LanghamHotelSystem {
    var rooms: seq<Room>
    var allocatedRooms: seq<Allocation>

    ghost predicate Valid()
      reads this
    {
      Consistent(rooms, allocatedRooms)
    }

    /** The system starts with no rooms and no allocations. */
    constructor ()
      ensures Valid()
      ensures rooms == [] && allocatedRooms == []
    {
      rooms := [];
      allocatedRooms := [];
    }

    /** Registers a room as Available. The checks run in the order the
        operator is asked for the fields, and the first that fails is
        reported with nothing changed. */
    method AddRoom(number: string, typeName: string, price: real, capacity: int) returns (outcome: Outcome)
      requires Valid()
      modifies this
      ensures Valid()
      ensures allocatedRooms == old(allocatedRooms)
      ensures number in old(Numbers(rooms)) ==> outcome == Fail(DuplicateRoom)
      ensures number !in old(Numbers(rooms)) && ParseRoomType(typeName).None? ==>
        outcome == Fail(InvalidRoomType)
      ensures number !in old(Numbers(rooms)) && ParseRoomType(typeName).Some? && price <= 0.0 ==>
        outcome == Fail(NonPositivePrice)
      ensures number !in old(Numbers(rooms)) && ParseRoomType(typeName).Some? && price > 0.0 && capacity <= 0 ==>
        outcome == Fail(NonPositiveCapacity)
      ensures outcome.Pass? <==>
        number !in old(Numbers(rooms)) && ParseRoomType(typeName).Some? && price > 0.0 && capacity > 0
      ensures outcome.Fail? ==> rooms == old(rooms)
      ensures outcome.Pass? ==>
        rooms == old(rooms) + [Room(number, ParseRoomType(typeName).value, price, capacity, Available)]
    {
      if number in Numbers(rooms) {
        return Fail(DuplicateRoom);
      }
      var kind := ParseRoomType(typeName);
      if kind.None? {
        return Fail(InvalidRoomType);
      }
      if price <= 0.0 {
        return Fail(NonPositivePrice);
      }
      if capacity <= 0 {
        return Fail(NonPositiveCapacity);
      }
      var room := Room(number, kind.value, price, capacity, Available);
      AddRoomKeepsConsistent(rooms, allocatedRooms, room);
      rooms := rooms + [room];
      return Pass;
    }

    /** Removes the room with the given number unless it is Occupied. */
    method DeleteRoom(number: string) returns (outcome: Outcome)
      requires Valid()
      modifies this
      ensures Valid()
      ensures allocatedRooms == old(allocatedRooms)
      ensures old(rooms) == [] ==> outcome == Fail(NoRooms)
      ensures old(rooms) != [] && number !in old(Numbers(rooms)) ==> outcome == Fail(RoomNotFound)
      ensures number in old(Numbers(rooms)) && FindRoom(old(rooms), number).value.status == Occupied ==>
        outcome == Fail(RoomOccupied)
      ensures outcome.Fail? ==> rooms == old(rooms)
      ensures outcome.Pass? <==>
        number in old(Numbers(rooms)) && FindRoom(old(rooms), number).value.status == Available
      ensures outcome.Pass? ==> rooms == RemoveAt(old(rooms), FirstIndex(old(Numbers(rooms)), number).value)
    {
      if rooms == [] {
        return Fail(NoRooms);
      }
      var i := 0;
      while i < |rooms|
        invariant 0 <= i <= |rooms|
        invariant forall m :: 0 <= m < i ==> rooms[m].number != number
      {
        if rooms[i].number == number {
          FirstIndexAt(Numbers(rooms), number, i);
          if rooms[i].status == Occupied {
            return Fail(RoomOccupied);
          }
          DeleteRoomKeepsConsistent(rooms, allocatedRooms, i);
          rooms := rooms[..i] + rooms[i + 1..];
          return Pass;
        }
        i := i + 1;
      }
      return Fail(RoomNotFound);
    }

    /** Books an Available room for a guest: the booking is appended with its
        total cost fixed at the room's price times the nights, and the room
        becomes Occupied. `parsesAsDate` stands for the calendar-date check of
        the check-in date and `now` for the clock reading the booking is
        stamped with. */
    method AllocateRoom(number: string, customerName: string, nights: int, checkInDate: string,
                        parsesAsDate: string -> bool, now: string)
      returns (result: Result<Allocation>)
      requires Valid()
      modifies this
      ensures Valid()
      ensures old(rooms) == [] ==> result == Failure(NoRooms)
      ensures old(rooms) != [] && AvailableRooms(old(rooms)) == [] ==> result == Failure(NoAvailableRooms)
      ensures AvailableRooms(old(rooms)) != [] && number !in old(Numbers(rooms)) ==>
        result == Failure(RoomNotFound)
      ensures AvailableRooms(old(rooms)) != [] && number in old(Numbers(rooms)) ==>
        var room := FindRoom(old(rooms), number).value;
        if room.status != Available then result == Failure(RoomNotAvailable)
        else if customerName == "" then result == Failure(EmptyCustomerName)
        else if nights <= 0 then result == Failure(NonPositiveNights)
        else if !parsesAsDate(checkInDate) then result == Failure(InvalidDate)
        else result == Success(Allocation(number, customerName, nights, checkInDate,
                                          TotalCost(room.price, nights), now))
      ensures result.Failure? ==> rooms == old(rooms) && allocatedRooms == old(allocatedRooms)
      ensures result.Success? ==>
        && allocatedRooms == old(allocatedRooms) + [result.value]
        && rooms == SetStatus(old(rooms), number, Occupied)
    {
      if rooms == [] {
        return Failure(NoRooms);
      }
      var available := AvailableRooms(rooms);
      if available == [] {
        return Failure(NoAvailableRooms);
      }
      var i := 0;
      while i < |rooms|
        invariant 0 <= i <= |rooms|
        invariant forall m :: 0 <= m < i ==> rooms[m].number != number
      {
        if rooms[i].number == number {
          break;
        }
        i := i + 1;
      }
      if i == |rooms| {
        return Failure(RoomNotFound);
      }
      FirstIndexAt(Numbers(rooms), number, i);
      var room := rooms[i];
      assert FindRoom(rooms, number) == Some(room);
      if room.status != Available {
        return Failure(RoomNotAvailable);
      }
      if customerName == "" {
        return Failure(EmptyCustomerName);
      }
      if nights <= 0 {
        return Failure(NonPositiveNights);
      }
      if !parsesAsDate(checkInDate) {
        return Failure(InvalidDate);
      }
      var totalCost := TotalCost(room.price, nights);
      var allocation := Allocation(number, customerName, nights, checkInDate, totalCost, now);
      AllocateKeepsConsistent(rooms, allocatedRooms, room, allocation);
      assert rooms[i := room.(status := Occupied)] == SetStatus(rooms, number, Occupied);
      allocatedRooms := allocatedRooms + [allocation];
      rooms := rooms[i := room.(status := Occupied)];
      return Success(allocation);
    }

    /** Bills the first allocation of the given room, removes it, and makes
        the first room with that number Available again. `now` stands for the
        clock reading printed on the bill. */
    method BillingAndDeallocation(number: string, now: string) returns (result: Result<Bill>)
      requires Valid()
      modifies this
      ensures Valid()
      ensures old(allocatedRooms) == [] ==> result == Failure(NoAllocations)
      ensures old(allocatedRooms) != [] && number !in old(AllocatedNumbers(allocatedRooms)) ==>
        result == Failure(AllocationNotFound)
      ensures result.Failure? ==> rooms == old(rooms) && allocatedRooms == old(allocatedRooms)
      ensures number in old(AllocatedNumbers(allocatedRooms)) ==>
        var k := FirstIndex(old(AllocatedNumbers(allocatedRooms)), number).value;
        var a := old(allocatedRooms)[k];
        && result == Success(Bill(number, a.customerName, a.checkInDate, a.nights, a.totalCost, now))
        && allocatedRooms == RemoveAt(old(allocatedRooms), k)
        && rooms == SetStatus(old(rooms), number, Available)
    {
      if allocatedRooms == [] {
        return Failure(NoAllocations);
      }
      var k := 0;
      while k < |allocatedRooms|
        invariant 0 <= k <= |allocatedRooms|
        invariant forall m :: 0 <= m < k ==> allocatedRooms[m].roomNumber != number
      {
        if allocatedRooms[k].roomNumber == number {
          break;
        }
        k := k + 1;
      }
      if k == |allocatedRooms| {
        return Failure(AllocationNotFound);
      }
      FirstIndexAt(AllocatedNumbers(allocatedRooms), number, k);
      var allocation := allocatedRooms[k];
      var bill := Bill(allocation.roomNumber, allocation.customerName, allocation.checkInDate,
                       allocation.nights, allocation.totalCost, now);
      ReleaseKeepsConsistent(rooms, allocatedRooms, k);
      allocatedRooms := allocatedRooms[..k] + allocatedRooms[k + 1..];
      var j := 0;
      while j < |rooms|
        invariant 0 <= j <= |rooms|
        invariant rooms == old(rooms)
        invariant forall m :: 0 <= m < j ==> rooms[m].number != number
      {
        if rooms[j].number == number {
          FirstIndexAt(Numbers(rooms), number, j);
          rooms := rooms[j := rooms[j].(status := Available)];
          break;
        }
        j := j + 1;
      }
      return Success(bill);
    }
  }

  /** A booking from the operator's side: a 100.00 Single room booked for
      three nights by Alice costs 300.00, cannot be booked or deleted while
      occupied, and is Available again once billed. */
  method BookingScenario()
  {
    var hotel := new LanghamHotelSystem();
    var added := hotel.AddRoom("101", "Single", 100.0, 2);
    assert added == Pass;
    assert Numbers(hotel.rooms) == ["101"];
    var duplicate := hotel.AddRoom("101", "Double", 150.0, 3);
    assert duplicate == Fail(DuplicateRoom);

    var isDate := (s: string) => |s| == 10;
    assert FirstIndex(["101"], "101") == Some(0);
    var booked := hotel.AllocateRoom("101", "Alice", 3, "2025-06-10", isDate, "2025-06-10 09:00:00");
    assert booked.Success? && booked.value.totalCost == 300.0;
    assert hotel.rooms == [Room("101", Single, 100.0, 2, Occupied)] by {
      assert Numbers([Room("101", Single, 100.0, 2, Available)]) == ["101"];
    }

    assert AvailableRooms(hotel.rooms) == [];
    var again := hotel.AllocateRoom("101", "Bob", 1, "2025-06-11", isDate, "2025-06-10 09:05:00");
    assert again == Failure(NoAvailableRooms);

    assert Numbers(hotel.rooms) == ["101"];
    var deleted := hotel.DeleteRoom("101");
    assert deleted == Fail(RoomOccupied);

    assert AllocatedNumbers(hotel.allocatedRooms) == ["101"];
    var billed := hotel.BillingAndDeallocation("101", "2025-06-13 11:00:00");
    assert billed.Success? && billed.value.totalAmount == 300.0;
    assert hotel.allocatedRooms == [];
    assert hotel.rooms == [Room("101", Single, 100.0, 2, Available)];
  }
}
