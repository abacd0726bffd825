# Langham hotel system: room and allocation state machine

This project models the in-memory core of the Langham hotel management console
(`LanghamHotelSystem` in `sola.py`) in Dafny. The system keeps two lists. The
room list holds each room's number, type, nightly price, capacity and status.
The allocation list holds the active bookings: room number, customer, nights,
check-in date, total cost and a creation stamp. Four operations change them:

- adding a room,
- deleting a room,
- allocating a room to a guest,
- billing a guest and releasing the room.

Each operation validates its inputs in the order the console asks for them.
The first check that fails is reported and nothing changes. The model keeps
that order exactly.

Files and modules:

- `records.dfy` (module `HotelRecords`): the records (`Room`, `Allocation`,
  `Bill`), the failure kinds (`HotelError`, one per failing check an
  operation reports before giving up), the room-type parser, and the pure list operations the
  methods share. These are the first-match lookup `FirstIndex`/`FindRoom`, the
  Available-rooms filter, deletion by index (`RemoveAt`) and the status update
  `SetStatus`.
- `invariant.dfy` (module `HotelInvariant`): the invariant `Consistent`. It
  says room numbers are unique and no two allocations share a room. Every
  allocation refers to an existing room. A room is Occupied exactly when an
  allocation refers to it. Every allocation's cost is its room's price times
  its nights. The module also proves that each of the four state changes
  keeps this invariant.
- `hotel_system.dfy` (module `HotelSystem`): the class `LanghamHotelSystem`.
  It has the fields `rooms` and `allocatedRooms` and one method per operation.
  The methods keep the source's linear search loops. Each method states its
  error precedence, its exact new state, and that `Valid()` (the invariant) is
  kept. `BookingScenario` is a client that walks through one booking using
  only those contracts: add, duplicate add, allocate, second allocate, delete
  while occupied, bill.

The console asks for input with `input()`. In the model, each operation takes
its inputs as parameters: the already-stripped strings, the price as an exact
`real`, and capacity and nights as integers. The calendar check on the
check-in date is a function parameter `parsesAsDate`. The clock readings that
stamp allocations and bills are a string parameter `now`.

If every room is Occupied, `allocate_room` stops at the "no rooms available"
check (sola.py:143-146). It never reaches the "room is not available" check.
So a second booking of the only room fails with `NoAvailableRooms`, not
`RoomNotAvailable`. `BookingScenario` shows this case.

## Model

| member | source | states |
|---|---|---|
| `HotelSystem.LanghamHotelSystem.constructor` | sola.py:15-18 | The system starts with empty room and allocation lists, which satisfy the invariant. |
| `HotelSystem.LanghamHotelSystem.AddRoom` | sola.py:38-84 | The checks run in this order: duplicate number, then room type not Single/Double/Suite, then price <= 0, then capacity <= 0. The first failing check is reported and nothing changes. On success exactly one Available room with the given fields is appended and earlier rooms are unchanged. Allocations are untouched and the invariant is kept. |
| `HotelSystem.LanghamHotelSystem.DeleteRoom` | sola.py:86-113 | An empty room list gives NoRooms. An absent number gives RoomNotFound. An Occupied room gives RoomOccupied. All three change nothing. Otherwise exactly the matching entry is removed and the other rooms keep their order. Allocations are untouched and the invariant is kept. |
| `HotelSystem.LanghamHotelSystem.AllocateRoom` | sola.py:133-207 | The checks run in this order: no rooms, no Available room, number not found, room not Available, empty name, nights <= 0, invalid date. Each failure leaves both lists unchanged. On success one allocation is appended with total cost = the room's price * nights (`HotelRecords.TotalCost`, sola.py:185). That room becomes Occupied and nothing else changes. The invariant is kept. |
| `HotelSystem.LanghamHotelSystem.BillingAndDeallocation` | sola.py:229-281 | No allocations gives NoAllocations. No allocation for the number gives AllocationNotFound. Both change nothing. Otherwise the bill carries the first matching allocation's customer, check-in date, nights and total. That allocation alone is removed, the room with that number becomes Available, and the invariant is kept. |
| `HotelRecords.ParseRoomType` | sola.py:48-50 | A type is accepted exactly when it is one of the three spellings Single, Double, Suite, and the accepted type spells back to the input. |
| `HotelRecords.ParseRoomTypeRoundTrip` | sola.py:49 | Each room type's spelling parses back to that type. |
| `HotelRecords.FirstIndex` | sola.py:156-159 | A front-to-back scan that stops at the first match. It finds nothing exactly when the key is absent. Otherwise its index holds the key and no earlier entry does. |
| `HotelRecords.FirstIndexAt` | sola.py:97-104 | A scan that reaches index i without a match and matches there returns i. This ties each search loop to `FirstIndex`. |
| `HotelRecords.FirstIndexOfDistinct` | sola.py:45-46 | When keys are unique, the first match of any entry's key is that entry. |
| `HotelRecords.FindRoom` | sola.py:154-162 | The room lookup fails exactly when no room has the number. Otherwise it returns the first room of the list with that number. |
| `HotelRecords.AvailableRooms` | sola.py:143 | The filtered list holds exactly the rooms of the list whose status is Available, and is no longer than the list. |
| `HotelRecords.AvailableRoomsAppend` | sola.py:143 | The filter keeps list order: filtering a concatenation gives the concatenation of the filtered parts. |
| `HotelRecords.RemoveAt` | sola.py:102 | Deleting by index shortens the list by one. Entries before the index stay put and entries after it shift down by one. |
| `HotelRecords.SetStatus` | sola.py:269-272 | Only the first room with the number changes, and only in its status, which becomes the given one. Every other room, including a later one with the same number, is unchanged. An absent number leaves the list as it is. Lengths and room numbers are kept. |
| `HotelRecords.SetStatusOfDistinct` | sola.py:197 | With unique room numbers, exactly the room with the number takes the new status and every other room keeps its own. |
| `HotelRecords.FindAfterSetStatus` | sola.py:197 | With unique numbers, looking a room up after a status change finds the same room with the new status. |
| `HotelInvariant.DistinctCount` | sola.py:45-46 | A list without repeated keys holds each key once if present and zero times otherwise. |
| `HotelInvariant.OccupiedIffOneAllocation` | sola.py:164-165 | In a consistent state a room is Occupied exactly when one allocation refers to it, and Available exactly when none does. |
| `HotelInvariant.DistinctRemoveAt` | sola.py:266 | Deleting an entry from a list of unique keys keeps the keys unique. It removes exactly the deleted key and keeps every other key. |
| `HotelInvariant.AddedRoomIsFound` | sola.py:68-76 | A room added under a fresh number is what a lookup of that number finds. If the room is Available, it comes last in the Available-rooms list. |
| `HotelInvariant.DeletedRoomIsGone` | sola.py:97-104 | After a room is deleted, a lookup of its number finds nothing and the remaining numbers stay unique. |
| `HotelInvariant.AddRoomKeepsConsistent` | sola.py:45-76 | Appending a well-formed Available room under a fresh number keeps the invariant. |
| `HotelInvariant.DeleteRoomKeepsConsistent` | sola.py:97-102 | Deleting a room that is not Occupied keeps the invariant. |
| `HotelInvariant.AllocateKeepsConsistent` | sola.py:164-197 | Booking an Available room at price * nights keeps the invariant. Afterwards a lookup finds the room Occupied, so a second booking is refused. |
| `HotelInvariant.ReleaseKeepsConsistent` | sola.py:240-272 | Removing an allocation and making its room Available keeps the invariant. Afterwards no allocation refers to that room and a lookup finds it Available. |

## Left out

- The menu and main loop (`display_menu`, `run`, the `__main__` block): interactive control flow only.
- `display_rooms` and `display_allocation_details`: text formatting of the two lists.
- `save_allocation_to_file`, `display_allocation_from_file`, `backup_and_clear_file`: file-system I/O with clock-stamped file names. `student_id`, set in `__init__`, only names those files.
- Reading input: `input()` and `.strip()` are not modelled. Operations receive the stripped strings.
- Number parsing: the "cannot be empty" checks on the price, capacity and nights strings, and the `float()`/`int()` conversion errors, happen before the model's inputs exist. The model receives parsed numbers.
- Floating point: price and total cost are exact reals. Rounding, and float inputs such as `inf` or `nan` that pass the `price <= 0` test, are not modelled.
- `HotelSystem.LanghamHotelSystem.AllocateRoom`: total cost is an exact real, so the `OverflowError` that `room['price'] * nights` raises for huge nights (about 2**1024 and more), which the handler catches with nothing stored, is not modelled; the method returns `Success` there.
- `HotelSystem.LanghamHotelSystem.AllocateRoom`: the `strptime(..., '%Y-%m-%d')` check is the parameter `parsesAsDate`, so which strings count as dates is not modelled.
- The `datetime.now()` stamps on allocations and bills are the parameter `now`; their format is not modelled.
- Printed messages and the catch-all exception handlers: each failure is a `HotelError` value instead of a printed message.
- Aliasing of room dictionaries: the source updates a room through a reference to the dictionary stored in the list. The model replaces the list entry by an updated copy, which has the same effect because no other reference to the room lives beyond the operation.
