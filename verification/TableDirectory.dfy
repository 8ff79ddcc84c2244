/**
 * The server's tables and the ids they go by. A table object is known by its number, in the order of creation. An id
 * names the table last created under it: creating another takes the older one off the map, where no new request finds
 * it, though a request or a timer that has fetched it before may still act on it.
 */
module TableDirectory {
  import opened Common
  import opened Cards
  import opened Seats
  import opened Betting
  import opened HandRules
  import opened HandInvariant
  import opened TableSession

  /** Table ids are opaque; the ledger and the timers refer to tables by them. */
  type TableId = nat

  /** One table object. */
  datatype Room = Room(id: TableId, g: Game, st: State)

  ghost predicate GoodRooms(rooms: seq<Room>) {
    forall i :: 0 <= i < |rooms| ==> TableInv(rooms[i].g, rooms[i].st)
  }

  /** Every id names a table made under it, and no table was made under an id that names none. */
  ghost predicate GoodIds(rooms: seq<Room>, ids: map<TableId, nat>) {
    && (forall id :: id in ids ==> ids[id] < |rooms| && rooms[ids[id]].id == id)
    && forall i :: 0 <= i < |rooms| ==> rooms[i].id in ids
  }

  /** The table its id names. */
  predicate Mapped(rooms: seq<Room>, ids: map<TableId, nat>, i: nat) {
    i < |rooms| && rooms[i].id in ids && ids[rooms[i].id] == i
  }

  function SetRoom(rooms: seq<Room>, i: nat, st: State): seq<Room>
    requires i < |rooms|
  {
    rooms[i := rooms[i].(st := st)]
  }

  function AddRoom(rooms: seq<Room>, id: TableId, g: Game): seq<Room> {
    rooms + [Room(id, g, NewTable(g))]
  }

  lemma SetKeepsIds(rooms: seq<Room>, ids: map<TableId, nat>, i: nat, st: State)
    requires GoodIds(rooms, ids) && i < |rooms|
    ensures GoodIds(SetRoom(rooms, i, st), ids)
    ensures forall k: nat :: Mapped(SetRoom(rooms, i, st), ids, k) == Mapped(rooms, ids, k)
  {
  }

  /** Creating a table under an id takes the table that had it off the map, and no other. */
  lemma AddKeepsIds(rooms: seq<Room>, ids: map<TableId, nat>, id: TableId, g: Game)
    requires GoodIds(rooms, ids)
    ensures GoodIds(AddRoom(rooms, id, g), ids[id := |rooms|])
    ensures forall k: nat :: k < |rooms| ==>
      (Mapped(AddRoom(rooms, id, g), ids[id := |rooms|], k) <==> Mapped(rooms, ids, k) && rooms[k].id != id)
    ensures Mapped(AddRoom(rooms, id, g), ids[id := |rooms|], |rooms|)
  {
  }

  lemma IdIsMapped(rooms: seq<Room>, ids: map<TableId, nat>, id: TableId)
    requires GoodIds(rooms, ids) && id in ids
    ensures Mapped(rooms, ids, ids[id])
  {
  }

  lemma RoomShaped(rooms: seq<Room>, i: nat)
    requires GoodRooms(rooms) && i < |rooms|
    ensures Shaped(rooms[i].g, rooms[i].st) && TableInv(rooms[i].g, rooms[i].st)
  {
  }

  /** A started hand, or the reason why not. */
  predicate StartAnswer(rooms: seq<Room>, ids: map<TableId, nat>, id: TableId, deck: seq<Card>, error: Option<TableError>)
    requires |deck| == DECK_SIZE
  {
    if id !in ids then error == Some(NoSuchTable)
    else
      && ids[id] < |rooms|
      && var room := rooms[ids[id]];
      Shaped(room.g, room.st) && error == ErrorOf(StartHand(room.g, room.st, deck))
  }

  /** A table between bets with no chips has nothing to play for. */
  lemma BettingHoldsChips(g: Game, st: State)
    requires HandInv(g, st)
    ensures Held(st) > 0
  {
    var t := st.toAct.value;
    assert SaneSeat(st.seats[t], st.currentBet);
    SumAtLeast(st.seats, t, StackOf);
  }

  lemma {:induction false} SumAtLeast(seats: seq<Slot>, i: nat, f: Slot -> nat)
    requires i < |seats|
    ensures Sum(seats, f) >= f(seats[i])
  {
    if i > 0 {
      SumAtLeast(seats[1..], i - 1, f);
    }
  }
}
