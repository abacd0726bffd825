/** Records of the Langham hotel system: rooms, allocations, bills and the
    failures an operation can report, with the pure lookups over the room list
    and the allocation list that the operations share. */
module HotelRecords {

  datatype RoomType = Single | Double | Suite

  datatype Status = Available | Occupied

  /** A room record; `price` is the per-night rate, kept exact. */
  datatype Room = Room(number: string, kind: RoomType, price: real, capacity: int, status: Status)

  /** An active booking; `allocationDate` is the wall-clock stamp taken when it was made. */
  datatype Allocation = Allocation(
    roomNumber: string,
    customerName: string,
    nights: int,
    checkInDate: string,
    totalCost: real,
    allocationDate: string)

  /** What billing shows before the allocation is released. */
  datatype Bill = Bill(
    roomNumber: string,
    customerName: string,
    checkInDate: string,
    nights: int,
    totalAmount: real,
    billDate: string)

  /** One kind per failing check an operation reports and then abandons on. */
  datatype HotelError =
    | DuplicateRoom
    | InvalidRoomType
    | NonPositivePrice
    | NonPositiveCapacity
    | NoRooms
    | RoomNotFound
    | RoomOccupied
    | NoAvailableRooms
    | RoomNotAvailable
    | EmptyCustomerName
    | NonPositiveNights
    | InvalidDate
    | NoAllocations
    | AllocationNotFound

  datatype Option<T> = None | Some(value: T)

  datatype Result<T> = Success(value: T) | Failure(error: HotelError)

  datatype Outcome = Pass | Fail(error: HotelError)

  /** The spelling an operator types for each room type. */
  function RoomTypeName(t: RoomType): string {
    match t
    case Single => "Single"
    case Double => "Double"
    case Suite => "Suite"
  }

  /** Accepts exactly the three spellings of the room-type menu, case-sensitively. */
  function ParseRoomType(name: string): (t: Option<RoomType>)
    ensures t.Some? <==> name == "Single" || name == "Double" || name == "Suite"
    ensures t.Some? ==> RoomTypeName(t.value) == name
  {
    if name == "Single" then Some(Single)
    else if name == "Double" then Some(Double)
    else if name == "Suite" then Some(Suite)
    else None
  }

  lemma ParseRoomTypeRoundTrip(t: RoomType)
    ensures ParseRoomType(RoomTypeName(t)) == Some(t)
  {
    match t
    case Single =>
    case Double =>
    case Suite =>
  }

  /** The cost of a stay, fixed when the room is allocated. */
  function TotalCost(price: real, nights: int): real {
    price * nights as real
  }

  /** The room numbers, in list order. */
  function Numbers(rooms: seq<Room>): seq<string> {
    seq(|rooms|, i requires 0 <= i < |rooms| => rooms[i].number)
  }

  /** The room numbers the allocations refer to, in list order. */
  function AllocatedNumbers(allocs: seq<Allocation>): seq<string> {
    seq(|allocs|, k requires 0 <= k < |allocs| => allocs[k].roomNumber)
  }

  predicate Distinct(keys: seq<string>) {
    forall i, j :: 0 <= i < j < |keys| ==> keys[i] != keys[j]
  }

  /** The position of the first occurrence of `key`, as a front-to-back scan
      that stops at the first match finds it. */
  function FirstIndex(keys: seq<string>, key: string): (r: Option<nat>)
    ensures r.None? <==> key !in keys
    ensures r.Some? ==> r.value < |keys| && keys[r.value] == key
    ensures r.Some? ==> forall j :: 0 <= j < r.value ==> keys[j] != key
  {
    if keys == [] then None
    else if keys[0] == key then Some(0)
    else
      match FirstIndex(keys[1..], key)
      case None => None
      case Some(i) => Some(i + 1)
  }

  /** A scan that reaches `i` without a match and matches there stops at `i`. */
  lemma FirstIndexAt(keys: seq<string>, key: string, i: nat)
    requires i < |keys| && keys[i] == key
    requires forall m :: 0 <= m < i ==> keys[m] != key
    ensures FirstIndex(keys, key) == Some(i)
  {
    assert keys[i] in keys;
  }

  /** In a list without repeated keys, the first occurrence is the only one. */
  lemma FirstIndexOfDistinct(keys: seq<string>, i: nat)
    requires Distinct(keys) && i < |keys|
    ensures FirstIndex(keys, keys[i]) == Some(i)
  {
    assert keys[i] in keys;
  }

  /** The room with the given number, as the lookup loop that stops at the first match finds it. */
  function FindRoom(rooms: seq<Room>, number: string): (r: Option<Room>)
    ensures r.None? <==> number !in Numbers(rooms)
    ensures r.Some? ==> r.value in rooms && r.value.number == number
    ensures r.Some? ==> exists i :: 0 <= i < |rooms| && rooms[i] == r.value
                                   && forall m :: 0 <= m < i ==> rooms[m].number != number
  {
    match FirstIndex(Numbers(rooms), number)
    case None => None
    case Some(i) =>
      assert forall m :: 0 <= m < i ==> rooms[m].number == Numbers(rooms)[m];
      Some(rooms[i])
  }

  /** The list-comprehension filter of the rooms whose status is Available. */
  function AvailableRooms(rooms: seq<Room>): (r: seq<Room>)
    ensures |r| <= |rooms|
    ensures forall x :: x in r <==> x in rooms && x.status == Available
  {
    if rooms == [] then []
    else if rooms[0].status == Available then [rooms[0]] + AvailableRooms(rooms[1..])
    else AvailableRooms(rooms[1..])
  }

  /** The filter keeps list order: filtering a concatenation concatenates the filtered parts. */
  lemma {:induction false} AvailableRoomsAppend(a: seq<Room>, b: seq<Room>)
    ensures AvailableRooms(a + b) == AvailableRooms(a) + AvailableRooms(b)
  {
    if a == [] {
      assert a + b == b;
    } else {
      assert (a + b)[1..] == a[1..] + b;
      AvailableRoomsAppend(a[1..], b);
    }
  }

  /** The list without its entry at `i`, as Python's `del xs[i]` leaves it. */
  function RemoveAt<T>(s: seq<T>, i: nat): (r: seq<T>)
    requires i < |s|
    ensures |r| == |s| - 1
    ensures forall j :: 0 <= j < |r| ==> r[j] == if j < i then s[j] else s[j + 1]
  {
    s[..i] + s[i + 1..]
  }

  /** Gives the first room with the given number the given status, and leaves
      the list as it is when no room has that number. */
  function SetStatus(rooms: seq<Room>, number: string, status: Status): (r: seq<Room>)
    ensures |r| == |rooms| && Numbers(r) == Numbers(rooms)
    ensures forall j :: 0 <= j < |rooms| ==> r[j].(status := rooms[j].status) == rooms[j]
    ensures forall j :: 0 <= j < |rooms| && rooms[j].number != number ==> r[j] == rooms[j]
    ensures number in Numbers(rooms) ==>
      r[FirstIndex(Numbers(rooms), number).value].status == status
    ensures number in Numbers(rooms) ==>
      forall j :: 0 <= j < |rooms| && j != FirstIndex(Numbers(rooms), number).value ==> r[j] == rooms[j]
    ensures number !in Numbers(rooms) ==> r == rooms
  {
    match FirstIndex(Numbers(rooms), number)
    case None => rooms
    case Some(i) => rooms[i := rooms[i].(status := status)]
  }

  /** With distinct room numbers, the room that has the number takes the new
      status and every other room keeps its own. */
  lemma SetStatusOfDistinct(rooms: seq<Room>, number: string, status: Status, j: nat)
    requires Distinct(Numbers(rooms)) && j < |rooms|
    ensures SetStatus(rooms, number, status)[j].status
         == if rooms[j].number == number then status else rooms[j].status
  {
    if rooms[j].number == number {
      FirstIndexOfDistinct(Numbers(rooms), j);
    }
  }

  /** With distinct room numbers, a lookup after a status change finds the
      same room with the new status. */
  lemma FindAfterSetStatus(rooms: seq<Room>, number: string, status: Status)
    requires Distinct(Numbers(rooms)) && number in Numbers(rooms)
    ensures FindRoom(SetStatus(rooms, number, status), number)
         == Some(FindRoom(rooms, number).value.(status := status))
  {
    var i := FirstIndex(Numbers(rooms), number).value;
    FirstIndexOfDistinct(Numbers(rooms), i);
    assert Numbers(SetStatus(rooms, number, status)) == Numbers(rooms);
  }
}
