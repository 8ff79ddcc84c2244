/** The routes that start, play and time out hands, as methods on the tables and the timer map. */
module TimedTables {
  import opened Common
  import opened Cards
  import opened Seats
  import opened Betting
  import opened HandRules
  import opened HandRuns
  import opened TableSession
  import opened TableDirectory
  import opened PokerTable
  import opened ActionTimer

  /** An accepted action, or the reason why not. */
  predicate ActAnswer(w: World, k: nat, m: Move, error: Option<TableError>) {
    && k < |w.acts| && w.acts[k] < |w.rooms|
    && var room := w.rooms[w.acts[k]];
    Shaped(room.g, room.st) && error == ErrorOf(Act(room.g, room.st, m.playerId, m.action))
  }

  /** The server's tables and timers. Nothing here supposes that an id is used only once. */
  class TimedServer {
    /** Every table object ever made; the program holds one off the map only through the requests and timers that fetched it. */
    var objects: seq<Table>
    /** The `tables` map, from an id to its object. */
    var tables: map<TableId, nat>
    var timers: map<TableId, nat>
    /** The timers the runtime still holds, and the number the next one gets. */
    var due: map<nat, Alarm>
    var next: nat
    /** The tables that act requests under way have fetched. */
    var acts: seq<nat>

    ghost function View(): World
      reads this, objects
    {
      World(Rooms(objects), tables, Clock(timers, due, next), acts)
    }

    ghost predicate Valid()
      reads this, objects
    {
      Distinct(objects) && Formed(View())
    }

    constructor ()
      ensures Valid() && View() == EMPTY
    {
      objects, tables, timers, due, next, acts := [], map[], map[], map[], 0, [];
    }

    /** A new table under an id; whichever table had the id before is off the map. */
    method OpenTable(id: TableId, g: Game)
      requires Valid() && GoodConfig(g.cfg)
      modifies this`objects, this`tables
      ensures Valid() && View() == Step(old(View()), Event.OpenTable(id, g))
    {
      hide Formed, NewTable, TableInv, Rooms, Distinct;
      StepForms(View(), Event.OpenTable(id, g));
      var t := new Table(id, g);
      MoreTables(objects, t);
      tables := tables[id := |objects|];
      objects := objects + [t];
    }

    /** `armTimeout`. */
    method ArmTimeout(i: nat)
      requires i < |objects|
      modifies this`timers, this`due, this`next
      ensures Clock(timers, due, next) == Armed(old(Clock(timers, due, next)), objects[i].tableId, i, objects[i].View())
    {
      var t := objects[i];
      if t.tableId in timers {
        due := due - {timers[t.tableId]};
      }
      if t.toActSeat.None? || t.toActSeat.value >= |t.seats| || t.seats[t.toActSeat.value].None? {
        return;
      }
      due := due[next := Alarm(i, t.seats[t.toActSeat.value].value.playerId)];
      timers := timers[t.tableId := next];
      next := next + 1;
    }

    /** `broadcast`: the table the id names cleans up a finished hand. */
    method Broadcast(id: TableId)
      requires Distinct(objects) && (id in tables ==> tables[id] < |objects| && objects[tables[id]].Valid())
      modifies objects
      ensures View() == Tidied(old(View()), id)
    {
      hide TableInv, Idle;
      if id in tables {
        ghost var before := Rooms(objects);
        var ran := objects[tables[id]].FinalizeHandIfComplete();
        OneTable(objects, tables[id], before);
      }
    }

    lemma TableValid(i: nat)
      requires Valid() && i < |objects|
      ensures objects[i].Valid() && Shaped(objects[i].g, objects[i].View()) && View().rooms[i] == objects[i].AsRoom()
    {
      FormedRoom(View(), i);
    }

    lemma IdsValid()
      requires Valid()
      ensures forall id :: id in tables ==> tables[id] < |objects| && objects[tables[id]].Valid() && objects[tables[id]].tableId == id
    {
      hide TableInv;
      forall id | id in tables
        ensures tables[id] < |objects| && objects[tables[id]].Valid() && objects[tables[id]].tableId == id
      {
        IdInside(View(), id);
        FormedRoom(View(), tables[id]);
      }
    }

    // -------------------------------------------------------------- acting

    method TryAct(i: nat, playerId: PlayerId, action: PlayerAction) returns (error: Option<TableError>)
      requires i < |objects| && Distinct(objects) && objects[i].Valid() && Shaped(objects[i].g, objects[i].View())
      modifies objects[i]
      ensures objects[i].Valid()
      ensures match Act(objects[i].g, old(objects[i].View()), playerId, action)
              case Ok(st) => error == None && View() == WithTable(old(View()), i, st) && objects[i].View() == st
              case Err(e) => error == Some(e) && View() == old(View())
    {
      hide TableInv, Act, Shaped;
      ghost var before := Rooms(objects);
      error := objects[i].Act(playerId, action);
      OneTable(objects, i, before);
    }

    /** The act route up to its first await: fetch the table. */
    method AskAct(id: TableId) returns (error: Option<TableError>)
      requires Valid()
      modifies this`acts
      ensures Valid() && View() == Step(old(View()), Event.AskAct(id))
      ensures error == if id in tables then None else Some(NoSuchTable)
    {
      hide Formed;
      StepForms(View(), Event.AskAct(id));
      if id !in tables {
        return Some(NoSuchTable);
      }
      acts := acts + [tables[id]];
      return None;
    }

    /** Every object can be used, and every id names one. */
    ghost predicate Usable()
      reads this, objects
    {
      && Distinct(objects) && (forall k :: 0 <= k < |objects| ==> objects[k].Valid())
      && forall id :: id in tables ==> tables[id] < |objects|
    }

    lemma ValidUsable()
      requires Valid()
      ensures Usable()
    {
      hide TableInv;
      IdsValid();
      forall k | 0 <= k < |objects|
        ensures objects[k].Valid()
      {
        FormedRoom(View(), k);
      }
    }

    /** An action or start has been accepted: arm, then broadcast, which cleans up a finished hand. */
    method ArmAndBroadcast(i: nat)
      requires i < |objects| && Usable()
      modifies this`timers, this`due, this`next, objects
      ensures View() == Tidied(old(View()).(clock := Armed(old(View()).clock, objects[i].tableId, i, old(objects[i].View()))), objects[i].tableId)
    {
      hide TableInv, Idle, Tidied, Armed;
      ArmTimeout(i);
      Broadcast(objects[i].tableId);
    }

    lemma RoomAt(i: nat)
      requires i < |objects|
      ensures |View().rooms| == |objects| && View().rooms[i] == objects[i].AsRoom()
    {
    }

    method ActAndArm(i: nat, playerId: PlayerId, action: PlayerAction) returns (error: Option<TableError>)
      requires i < |objects| && Usable() && Shaped(objects[i].g, objects[i].View())
      modifies this`timers, this`due, this`next, objects
      ensures i < |old(View()).rooms| && View() == Moved(old(View()), i, Move(playerId, action))
      ensures error == ErrorOf(Act(objects[i].g, old(objects[i].View()), playerId, action))
    {
      hide TableInv, Act, Running, Armed, Tidied, Rooms;
      RoomAt(i);
      error := TryAct(i, playerId, action);
      if error.None? {
        ArmAndBroadcast(i);
      }
    }

    /** The act route once its body has come: act on the table fetched, whatever its id names by now. */
    method FinishAct(k: nat, playerId: PlayerId, action: PlayerAction) returns (error: Option<TableError>)
      requires Valid() && k < |acts|
      modifies this`timers, this`due, this`next, this`acts, objects
      ensures Valid() && View() == Step(old(View()), Event.FinishAct(k, Move(playerId, action)))
      ensures ActAnswer(old(View()), k, Move(playerId, action), error)
    {
      hide Formed, TableInv, Running, Moved, Act, Usable, Rooms, Distinct;
      StepForms(View(), Event.FinishAct(k, Move(playerId, action)));
      ActInside(View(), k);
      ValidUsable();
      RoomAt(acts[k]);
      TableValid(acts[k]);
      var i := acts[k];
      DropAct(k);
      error := ActAndArm(i, playerId, action);
    }

    method DropAct(k: nat)
      requires k < |acts|
      modifies this`acts
      ensures View() == WithoutAct(old(View()), k)
      ensures old(Usable()) ==> Usable()
    {
      acts := acts[..k] + acts[k + 1..];
    }

    // -------------------------------------------------------------- starting

    method TryStart(i: nat, deck: seq<Card>) returns (error: Option<TableError>)
      requires i < |objects| && Distinct(objects) && objects[i].Valid()
      requires Shaped(objects[i].g, objects[i].View()) && |deck| == DECK_SIZE
      modifies objects[i]
      ensures objects[i].Valid()
      ensures match StartHand(objects[i].g, old(objects[i].View()), deck)
              case Ok(st) => error == None && View() == WithTable(old(View()), i, st) && objects[i].View() == st
              case Err(e) => error == Some(e) && View() == WithTable(old(View()), i, Idle(objects[i].g, old(objects[i].View())))
    {
      hide TableInv, StartHand, Idle;
      ghost var before := Rooms(objects);
      error := objects[i].StartHand(deck);
      OneTable(objects, i, before);
    }

    method StartAndArm(i: nat, deck: seq<Card>) returns (error: Option<TableError>)
      requires i < |objects| && Usable() && Shaped(objects[i].g, objects[i].View()) && |deck| == DECK_SIZE
      modifies this`timers, this`due, this`next, objects
      ensures i < |old(View()).rooms| && View() == Started(old(View()), i, deck)
      ensures error == ErrorOf(StartHand(objects[i].g, old(objects[i].View()), deck))
    {
      hide TableInv, StartHand, Idle, Running, Armed, Tidied, Rooms;
      RoomAt(i);
      error := TryStart(i, deck);
      if error.None? {
        ArmAndBroadcast(i);
      }
    }

    /** The start route. */
    method StartRoute(id: TableId, deck: seq<Card>) returns (error: Option<TableError>)
      requires Valid() && |deck| == DECK_SIZE
      modifies this`timers, this`due, this`next, objects
      ensures Valid() && View() == Step(old(View()), Event.StartRoute(id, deck))
      ensures StartAnswer(old(View()).rooms, tables, id, deck, error)
    {
      hide Formed, TableInv, Running, Started, StartHand, Usable, Rooms, Distinct;
      StepForms(View(), Event.StartRoute(id, deck));
      if id !in tables {
        return Some(NoSuchTable);
      }
      IdsValid();
      ValidUsable();
      RoomAt(tables[id]);
      TableValid(tables[id]);
      error := StartAndArm(tables[id], deck);
    }

    // -------------------------------------------------------------- timers

    method FoldAndArm(i: nat, player: PlayerId)
      requires i < |objects| && Usable() && Shaped(objects[i].g, objects[i].View())
      modifies this`timers, this`due, this`next, objects
      ensures i < |old(View()).rooms|
      ensures match Act(objects[i].g, old(objects[i].View()), player, PlayerAction(Fold, 0))
              case Ok(st) => View() == Acted(old(View()), i, st, false)
              case Err(_) => View() == old(View())
    {
      hide TableInv, Act, Running, Armed, Tidied, Rooms;
      RoomAt(i);
      var error := TryAct(i, player, PlayerAction(Fold, 0));
      if error.None? {
        Broadcast(objects[i].tableId);
        RoomAt(i);
        ArmTimeout(i);
      }
    }

    /** A timer goes off: it is no longer due, and its player is folded at its table. */
    method OnTimer(h: nat)
      requires Valid() && h in due
      modifies this`timers, this`due, this`next, objects
      ensures Valid() && View() == Step(old(View()), Fire(h))
    {
      hide Formed, TableInv, Running, Act, Acted, Usable, Rooms, Distinct;
      StepForms(View(), Fire(h));
      DueInside(View(), h);
      var a := due[h];
      RoomAt(a.table);
      TableValid(a.table);
      ValidUsable();
      DropTimer(h);
      FoldAndArm(a.table, a.player);
    }

    method DropTimer(h: nat)
      modifies this`due
      ensures View() == old(View()).(clock := old(View()).clock.(due := old(View()).clock.due - {h}))
      ensures old(Usable()) ==> Usable()
    {
      due := due - {h};
    }
  }
}
