/**
 * The server's requests in the program's own form: methods on one ledger and many tables, cut at the awaits.
 * Each is proved to be exactly one step of `Escrow`, so the theorems there hold for any interleaving of them.
 */
module TableOps {
  import opened Common
  import opened Cards
  import opened Seats
  import opened Betting
  import opened HandRules
  import opened TableSession
  import opened TableDirectory
  import opened PokerTable
  import L = Ledger
  import E = Escrow

  /** What resuming a request does, by the stretch it is at. */
  lemma Resuming(s: E.Server, i: nat)
    requires E.Inv(s) && i < |s.tasks|
    ensures E.GoodTask(s.tasks[i], |s.rooms|) && E.Inv(E.Step(s, E.Resume(i)))
    ensures var t := s.tasks[i]; var rest := s.(tasks := E.Without(s.tasks, i)); var next := E.Step(s, E.Resume(i));
      match t
      case ToDebit(p, amount, table, seat) => next == E.Debited(rest, p, amount, L.BuyIn, E.ToSeat(p, amount, table, seat))
      case ToAddOn(p, amount, table) => next == E.Debited(rest, p, amount, L.AddOn, E.ToTopUp(p, amount, table))
      case ToSeat(_, _, _, _) => next == E.Seated(rest, t)
      case ToTopUp(_, _, _) => next == E.ToppedUp(rest, t)
      case ToCredit(_, _, _) => next == E.Credited(rest, t)
  {
    hide E.Seated, E.ToppedUp, E.Credited, E.Debited, L.GoodLog, GoodRooms, GoodIds, E.Everywhere;
    E.StepKeeps(s, E.Resume(i));
  }

  lemma Leaving(s: E.Server, p: PlayerId, id: TableId)
    requires E.Inv(s) && id in s.ids
    ensures s.ids[id] < |s.rooms|
    ensures E.Inv(E.Step(s, E.AskLeave(p, id))) && E.Step(s, E.AskLeave(p, id)) == E.Left(s, p, s.ids[id])
  {
    hide E.Left, L.GoodLog, GoodRooms, E.Everywhere;
    E.StepKeeps(s, E.AskLeave(p, id));
  }

  lemma Starting(s: E.Server, id: TableId, deck: seq<Card>)
    requires E.Inv(s) && id in s.ids && |deck| == DECK_SIZE
    ensures var e := E.Begin(id, deck); var table := s.ids[id];
      && table < |s.rooms| && Shaped(s.rooms[table].g, s.rooms[table].st)
      && E.Inv(E.Step(s, e)) && E.Step(s, e) == E.Played(s, table, Start(deck))
  {
    hide E.Played, L.GoodLog, TableInv, E.Everywhere;
    RoomShaped(s.rooms, s.ids[id]);
    E.StepKeeps(s, E.Begin(id, deck));
  }

  // ---------------------------------------------------------------- what each request answers

  function DebitAnswer(s: E.Server, t: E.Task, reason: L.Reason): Option<L.LedgerError>
    requires t.table < |s.rooms|
  {
    match L.AppendTo(s.log, t.player, 0 - t.amount, reason, s.rooms[t.table].id)
    case Appended(_) => None
    case Refused(e) => Some(e)
  }

  predicate PayAnswer(s: E.Server, i: nat, reason: L.Reason, error: Option<L.LedgerError>) {
    i < |s.tasks| && s.tasks[i].table < |s.rooms| && error == DebitAnswer(s, s.tasks[i], reason)
  }

  /** The seat's number, or the table's error. */
  predicate SeatAnswer(rooms: seq<Room>, t: E.Task, r: Result<nat>) {
    && t.ToSeat? && t.table < |rooms|
    && var room := rooms[t.table];
    match Sit(room.g, room.st, t.player, t.amount, t.seat)
    case Ok(next) => r.Ok? && FindSeat(next.seats, t.player) == Some(r.value)
    case Err(e) => r == Err(e)
  }

  predicate TopUpAnswer(rooms: seq<Room>, t: E.Task, error: Option<TableError>) {
    && t.ToTopUp? && t.table < |rooms|
    && var room := rooms[t.table];
    error == ErrorOf(HandRules.AddOn(room.g, room.st, t.player, t.amount))
  }

  /** The chips that leave the table, or its error. */
  function LeaveAnswer(s: E.Server, id: TableId, p: PlayerId): Result<nat> {
    if id !in s.ids || s.ids[id] >= |s.rooms| then Err(NoSuchTable)
    else
      var room := s.rooms[s.ids[id]];
      match HandRules.CashOut(room.g, room.st, p)
      case Ok(left) => Ok(left.1)
      case Err(e) => Err(e)
  }

  class GameServer {
    const ledger: L.ChipLedger
    /** Every table object ever made; the program holds one off the map only through the requests that fetched it. */
    var objects: seq<Table>
    /** The `tables` map, from an id to its object. */
    var tables: map<TableId, nat>
    var tasks: seq<E.Task>
    ghost var rake: nat

    ghost function View(): E.Server
      reads this, ledger, objects
    {
      E.Server(ledger.entries, Rooms(objects), tables, tasks, rake)
    }

    ghost predicate Valid()
      reads this, ledger, objects
    {
      && ledger.Valid() && E.Inv(View())
      && Distinct(objects)
    }

    constructor ()
      ensures Valid() && View() == E.EMPTY && fresh(ledger)
    {
      hide E.Inv, L.SoundLog;
      ledger := new L.ChipLedger();
      objects, tables, tasks, rake := [], map[], [], 0;
      new;
      E.EmptyInv();
    }

    ghost predicate TablesUsable()
      reads this, objects
    {
      forall i :: 0 <= i < |objects| ==> objects[i].Valid()
    }

    lemma Usable()
      requires Valid()
      ensures ledger.Valid() && TablesUsable() && GoodIds(View().rooms, tables)
      ensures forall id :: id in tables ==> tables[id] < |objects|
    {
    }

    // -------------------------------------------------------------- accounts and tables

    method OpenAccount(player: PlayerId)
      requires Valid()
      modifies ledger
      ensures Valid() && View() == E.Step(old(View()), E.OpenAccount(player))
    {
      hide E.Inv;
      E.StepKeeps(View(), E.OpenAccount(player));
      ledger.EnsureAccount(player);
    }

    /** A new table under an id; whichever table had the id before is off the map. */
    method OpenTable(id: TableId, g: Game)
      requires Valid() && GoodConfig(g.cfg)
      modifies this`objects, this`tables
      ensures Valid() && View() == E.Step(old(View()), E.OpenTable(id, g))
    {
      hide E.Inv, TableInv, NewTable, L.GoodLog, L.Balance, GoodIds, Mapped, Rooms, Distinct;
      E.StepKeeps(View(), E.OpenTable(id, g));
      var t := new Table(id, g);
      MoreTables(objects, t);
      tables := tables[id := |objects|];
      objects := objects + [t];
    }

    // -------------------------------------------------------------- sitting down

    /** `sitAtTable` up to its first await: fetch the table, make sure there is an account. */
    method AskSit(id: TableId, player: PlayerId, buyIn: nat, seat: Option<int>) returns (error: Option<TableError>)
      requires Valid()
      modifies this`tasks, ledger
      ensures Valid() && View() == E.Step(old(View()), E.AskSit(player, buyIn, id, seat))
      ensures error == if id in tables then None else Some(NoSuchTable)
    {
      hide E.Inv, Rooms, Distinct, L.Balance;
      E.StepKeeps(View(), E.AskSit(player, buyIn, id, seat));
      if id !in tables {
        return Some(NoSuchTable);
      }
      var table := tables[id];
      ledger.EnsureAccount(player);
      tasks := tasks + [E.ToDebit(player, buyIn, table, seat)];
      return None;
    }

    method FinishTask(i: nat) returns (t: E.Task)
      requires i < |tasks|
      modifies this`tasks
      ensures t == old(tasks)[i] && tasks == E.Without(old(tasks), i)
    {
      t := tasks[i];
      tasks := tasks[..i] + tasks[i + 1..];
    }

    /** Debit the chips of a request; only if the ledger agrees does it go on. */
    method Pay(t: E.Task, reason: L.Reason, next: E.Task) returns (error: Option<L.LedgerError>)
      requires ledger.Valid() && t.table == next.table < |objects|
      modifies this`tasks, ledger
      ensures ledger.Valid() && View() == E.Debited(old(View()), t.player, t.amount, reason, next)
      ensures error == DebitAnswer(old(View()), t, reason)
    {
      hide L.AppendTo, Rooms, L.SoundLog;
      ghost var before := View();
      assert before.rooms[t.table].id == objects[t.table].tableId;
      error := ledger.Append(t.player, 0 - t.amount, reason, objects[t.table].tableId);
      if error.None? {
        tasks := tasks + [next];
      }
    }

    /** The second stretch: debit the buy-in, or give up. */
    method PayForSeat(i: nat) returns (error: Option<L.LedgerError>)
      requires Valid() && i < |tasks| && tasks[i].ToDebit?
      modifies this`tasks, ledger
      ensures Valid() && View() == E.Step(old(View()), E.Resume(i)) && PayAnswer(old(View()), i, L.BuyIn, error)
    {
      hide E.Inv, E.Step, TableInv, L.GoodLog, L.AppendTo, E.Debited, Rooms, Distinct;
      Resuming(View(), i);
      Usable();
      var t := FinishTask(i);
      error := Pay(t, L.BuyIn, E.ToSeat(t.player, t.amount, t.table, t.seat));
    }

    /** Try the seat at the table fetched; if it refuses, the buy-in is due back. */
    method SeatOrRefund(t: E.Task) returns (r: Result<nat>)
      requires t.ToSeat? && t.table < |objects| && TablesUsable()
      requires Distinct(objects)
      modifies this`tasks, objects
      ensures View() == E.Seated(old(View()), t) && SeatAnswer(old(View()).rooms, t, r)
    {
      hide TableInv, Sit, Idle, FindSeat, Rooms;
      ghost var before := Rooms(objects);
      r := objects[t.table].Sit(t.player, t.amount, t.seat);
      OneTable(objects, t.table, before);
      if r.Err? {
        tasks := tasks + [E.ToCredit(t.player, t.amount, t.table)];
      }
    }

    /** The last stretch of sitting down. */
    method TakeSeat(i: nat) returns (r: Result<nat>)
      requires Valid() && i < |tasks| && tasks[i].ToSeat?
      modifies this`tasks, objects
      ensures Valid() && View() == E.Step(old(View()), E.Resume(i)) && SeatAnswer(old(View()).rooms, old(tasks)[i], r)
    {
      hide SeatAnswer, E.Inv, E.Step, TableInv, L.GoodLog, L.Balance, E.Seated, Distinct, Rooms;
      Resuming(View(), i);
      Usable();
      var t := FinishTask(i);
      r := SeatOrRefund(t);
    }

    // -------------------------------------------------------------- adding on

    /** The add-on route up to its first await: fetch the table. */
    method AskAddOn(id: TableId, player: PlayerId, amount: nat) returns (error: Option<TableError>)
      requires Valid()
      modifies this`tasks
      ensures Valid() && View() == E.Step(old(View()), E.AskAddOn(player, amount, id))
      ensures error == if id in tables then None else Some(NoSuchTable)
    {
      hide E.Inv;
      E.StepKeeps(View(), E.AskAddOn(player, amount, id));
      if id !in tables {
        return Some(NoSuchTable);
      }
      tasks := tasks + [E.ToAddOn(player, amount, tables[id])];
      return None;
    }

    /** The second stretch: debit the chips, or give up. */
    method PayForAddOn(i: nat) returns (error: Option<L.LedgerError>)
      requires Valid() && i < |tasks| && tasks[i].ToAddOn?
      modifies this`tasks, ledger
      ensures Valid() && View() == E.Step(old(View()), E.Resume(i)) && PayAnswer(old(View()), i, L.AddOn, error)
    {
      hide E.Inv, E.Step, TableInv, L.GoodLog, L.AppendTo, E.Debited, Rooms, Distinct;
      Resuming(View(), i);
      Usable();
      var t := FinishTask(i);
      error := Pay(t, L.AddOn, E.ToTopUp(t.player, t.amount, t.table));
    }

    /** Try the add-on at the table fetched; if it refuses, the chips are due back. */
    method AddOrRefund(t: E.Task) returns (error: Option<TableError>)
      requires t.ToTopUp? && t.table < |objects| && TablesUsable()
      requires Distinct(objects)
      modifies this`tasks, objects
      ensures View() == E.ToppedUp(old(View()), t) && TopUpAnswer(old(View()).rooms, t, error)
    {
      hide TableInv, HandRules.AddOn, Idle, Rooms;
      ghost var before := Rooms(objects);
      error := objects[t.table].AddOn(t.player, t.amount);
      OneTable(objects, t.table, before);
      if error.Some? {
        tasks := tasks + [E.ToCredit(t.player, t.amount, t.table)];
      }
    }

    /** The last stretch of an add-on. */
    method TopUp(i: nat) returns (error: Option<TableError>)
      requires Valid() && i < |tasks| && tasks[i].ToTopUp?
      modifies this`tasks, objects
      ensures Valid() && View() == E.Step(old(View()), E.Resume(i)) && TopUpAnswer(old(View()).rooms, old(tasks)[i], error)
    {
      hide TopUpAnswer, E.Inv, E.Step, TableInv, L.GoodLog, L.Balance, E.ToppedUp, Distinct, Rooms;
      Resuming(View(), i);
      Usable();
      var t := FinishTask(i);
      error := AddOrRefund(t);
    }

    // -------------------------------------------------------------- leaving and refunds

    method GiveUpSeat(table: nat, player: PlayerId) returns (r: Result<nat>)
      requires table < |objects| && TablesUsable() && Distinct(objects)
      modifies this`tasks, objects
      ensures View() == E.Left(old(View()), player, table)
      ensures match HandRules.CashOut(objects[table].g, old(objects[table].View()), player)
              case Ok(left) => r == Ok(left.1)
              case Err(e) => r == Err(e)
    {
      hide TableInv, HandRules.CashOut, Idle, FindSeat, Rooms;
      ghost var before := Rooms(objects);
      r := objects[table].CashOut(player);
      OneTable(objects, table, before);
      if r.Ok? && r.value > 0 {
        tasks := tasks + [E.ToCredit(player, r.value, table)];
      }
    }

    /** `leaveTable` up to its await: the stack leaves the table and is due as a credit unless it is empty. */
    method AskLeave(id: TableId, player: PlayerId) returns (r: Result<nat>)
      requires Valid()
      modifies this`tasks, objects
      ensures Valid() && View() == E.Step(old(View()), E.AskLeave(player, id)) && r == LeaveAnswer(old(View()), id, player)
    {
      hide HandRules.CashOut, E.Inv, E.Left, TableInv, L.GoodLog, Rooms, Distinct;
      if id !in tables {
        return Err(NoSuchTable);
      }
      Leaving(View(), player, id);
      Usable();
      r := GiveUpSeat(tables[id], player);
    }

    /** A refund or a cash-out reaches the balance; it is never refused. */
    method Credit(i: nat) returns (error: Option<L.LedgerError>)
      requires Valid() && i < |tasks| && tasks[i].ToCredit?
      modifies this`tasks, ledger
      ensures Valid() && View() == E.Step(old(View()), E.Resume(i)) && error == None
    {
      hide E.Inv, E.Step, TableInv, L.GoodLog, L.Balance, Rooms, Distinct;
      Resuming(View(), i);
      Usable();
      CreditDue(i);
      var t := FinishTask(i);
      error := ledger.CashOut(t.player, t.amount, objects[t.table].tableId);
    }

    lemma CreditDue(i: nat)
      requires Valid() && i < |tasks| && tasks[i].ToCredit?
      ensures tasks[i].amount > 0 && tasks[i].table < |objects|
      ensures View().rooms[tasks[i].table].id == objects[tasks[i].table].tableId
    {
      assert E.GoodTask(View().tasks[i], |View().rooms|);
    }

    // -------------------------------------------------------------- playing

    method TryDeal(table: nat, deck: seq<Card>) returns (error: Option<TableError>)
      requires table < |objects| && TablesUsable() && |deck| == DECK_SIZE && Distinct(objects)
      requires Shaped(objects[table].g, objects[table].View())
      modifies objects
      ensures View() == E.WithTable(old(View()), table, Exec(objects[table].g, old(objects[table].View()), Start(deck)))
      ensures error == ErrorOf(HandRules.StartHand(objects[table].g, old(objects[table].View()), deck))
    {
      hide TableInv, Idle, StartHand, Running, GoodConfig;
      ghost var before := Rooms(objects);
      error := objects[table].StartHand(deck);
      OneTable(objects, table, before);
    }

    method Deal(table: nat, deck: seq<Card>) returns (error: Option<TableError>)
      requires table < |objects| && TablesUsable() && |deck| == DECK_SIZE && Distinct(objects)
      requires Shaped(objects[table].g, objects[table].View())
      modifies this`rake, objects
      ensures View() == E.Played(old(View()), table, Start(deck))
      ensures error == ErrorOf(HandRules.StartHand(objects[table].g, old(objects[table].View()), deck))
    {
      hide TableInv, Idle, StartHand, Running, GoodConfig, Distinct, Exec, RakeTaken, Rooms;
      ghost var before := View();
      ghost var raked := RakeTaken(HandRules.StartHand(objects[table].g, objects[table].View(), deck));
      rake := rake + raked;
      assert View() == before.(rake := before.rake + raked);
      error := TryDeal(table, deck);
    }

    /** `startTableHand`, with the deck the deal source will produce. */
    method StartTableHand(id: TableId, deck: seq<Card>) returns (error: Option<TableError>)
      requires Valid() && |deck| == DECK_SIZE
      modifies this`rake, objects
      ensures Valid() && View() == E.Step(old(View()), E.Begin(id, deck))
      ensures StartAnswer(old(View()).rooms, tables, id, deck, error)
    {
      hide StartHand, E.Inv, E.Played, TableInv, Shaped, L.GoodLog;
      if id !in tables {
        return Some(NoSuchTable);
      }
      Starting(View(), id, deck);
      Usable();
      error := Deal(tables[id], deck);
    }
  }
}
