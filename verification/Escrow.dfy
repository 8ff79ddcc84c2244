/**
 * Chips between the ledger and the tables. Sitting down, adding on and leaving are split by awaits, so any
 * number of requests may be part-way through at once, with their chips neither in a balance nor on a table.
 * A request acts on the table object it fetched before its first await, even if the table's id names another by then.
 */
module Escrow {
  import opened Common
  import opened Cards
  import opened Seats
  import opened HandRules
  import opened ShowdownProofs
  import opened HandInvariant
  import opened HandStart
  import opened TableSession
  import opened TableDirectory
  import L = Ledger

  /** A request part-way through, holding the table it has fetched; the last three hold chips in flight. */
  datatype Task =
    | ToDebit(player: PlayerId, amount: nat, table: nat, seat: Option<int>)
    | ToAddOn(player: PlayerId, amount: nat, table: nat)
    | ToSeat(player: PlayerId, amount: nat, table: nat, seat: Option<int>)
    | ToTopUp(player: PlayerId, amount: nat, table: nat)
    | ToCredit(player: PlayerId, amount: nat, table: nat)

  /** The ledger, every table object ever made, the map of ids, the requests under way, and the rake taken. */
  datatype Server = Server(log: seq<L.Entry>, rooms: seq<Room>, ids: map<TableId, nat>, tasks: seq<Task>, rake: nat)

  /** `Play` is an action or a clean-up, on a table that a request or a timer holds. */
  datatype Event =
    | OpenAccount(player: PlayerId)
    | OpenTable(id: TableId, g: Game)
    | AskSit(player: PlayerId, amount: nat, id: TableId, seat: Option<int>)
    | AskAddOn(player: PlayerId, amount: nat, id: TableId)
    | AskLeave(player: PlayerId, id: TableId)
    | Resume(i: nat)
    | Begin(id: TableId, deck: seq<Card>)
    | Play(table: nat, command: Command)
    | Elsewhere(player: PlayerId, change: int, reason: L.Reason, ref: nat)

  predicate IsPlay(c: Command) {
    c.Start? || c.Do? || c.Finalize?
  }

  predicate GoodEvent(e: Event) {
    && (e.OpenTable? ==> GoodConfig(e.g.cfg))
    && (e.Begin? ==> |e.deck| == DECK_SIZE)
    && (e.Play? ==> e.command.Do? || e.command.Finalize?)
    && (e.Elsewhere? ==> L.Outside(e.reason))
  }

  // ---------------------------------------------------------------- where the chips are

  predicate Unpaid(t: Task) {
    t.ToDebit? || t.ToAddOn?
  }

  function Flight(t: Task): nat {
    if Unpaid(t) then 0 else t.amount
  }

  /** One player's chips in a task. */
  function FlightOf(t: Task, p: PlayerId): nat {
    if t.player == p then Flight(t) else 0
  }

  function SumTasks(tasks: seq<Task>, f: Task -> nat): nat {
    if tasks == [] then 0 else SumTasks(tasks[..|tasks| - 1], f) + f(tasks[|tasks| - 1])
  }

  function SumRooms(rooms: seq<Room>, f: State -> nat): nat {
    if rooms == [] then 0 else SumRooms(rooms[..|rooms| - 1], f) + f(rooms[|rooms| - 1].st)
  }

  function StackFor(p: PlayerId): Slot -> nat {
    (s: Slot) => if s.Some? && s.value.playerId == p then s.value.stack else 0
  }

  function TableStack(p: PlayerId): State -> nat {
    (st: State) => Sum(st.seats, StackFor(p))
  }

  function PlayerFlight(p: PlayerId): Task -> nat {
    (t: Task) => FlightOf(t, p)
  }

  /** Everything that is somewhere: balances, in flight, on the tables, raked. */
  function Everywhere(s: Server): int {
    L.SumAmounts(s.log) + SumTasks(s.tasks, Flight) + SumRooms(s.rooms, Held) + s.rake
  }

  /** One player's chips: balance, in flight, in stacks. */
  function Wealth(s: Server, p: PlayerId): int {
    L.Balance(s.log, p) + SumTasks(s.tasks, PlayerFlight(p)) + SumRooms(s.rooms, TableStack(p))
  }

  predicate GoodTask(t: Task, rooms: nat) {
    t.table < rooms && (!Unpaid(t) ==> t.amount > 0)
  }

  /** A server whose chips, but for some that are owed to it, are all accounted for. */
  ghost predicate Balanced(s: Server, owed: int) {
    && L.GoodLog(s.log) && GoodRooms(s.rooms) && GoodIds(s.rooms, s.ids)
    && (forall i :: 0 <= i < |s.tasks| ==> GoodTask(s.tasks[i], |s.rooms|))
    && Everywhere(s) + owed == L.SeedTotal(s.log) + L.OutsideTotal(s.log)
  }

  ghost predicate Inv(s: Server) {
    Balanced(s, 0)
  }

  // ---------------------------------------------------------------- the steps

  function WithTable(s: Server, i: nat, st: State): Server
    requires i < |s.rooms|
  {
    s.(rooms := SetRoom(s.rooms, i, st))
  }

  function Without(tasks: seq<Task>, i: nat): seq<Task>
    requires i < |tasks|
  {
    tasks[..i] + tasks[i + 1..]
  }

  /** Ask the ledger for chips; only if it agrees does the request go on. */
  function Debited(s: Server, p: PlayerId, amount: nat, reason: L.Reason, next: Task): Server
    requires next.table < |s.rooms|
  {
    match L.AppendTo(s.log, p, 0 - amount, reason, s.rooms[next.table].id)
    case Appended(log) => s.(log := log, tasks := s.tasks + [next])
    case Refused(_) => s
  }

  /** The table has turned the chips down: they are due back. */
  function Refunded(s: Server, t: Task): Server
    requires t.table < |s.rooms|
  {
    var room := s.rooms[t.table];
    WithTable(s, t.table, Idle(room.g, room.st)).(tasks := s.tasks + [ToCredit(t.player, t.amount, t.table)])
  }

  /** A paid-for seat: taken, or the chips are due back. */
  function Seated(s: Server, t: Task): Server
    requires t.ToSeat? && t.table < |s.rooms|
  {
    var room := s.rooms[t.table];
    match Sit(room.g, room.st, t.player, t.amount, t.seat)
    case Ok(st) => WithTable(s, t.table, st)
    case Err(_) => Refunded(s, t)
  }

  /** Paid-for chips: added to the stack, or due back. */
  function ToppedUp(s: Server, t: Task): Server
    requires t.ToTopUp? && t.table < |s.rooms|
  {
    var room := s.rooms[t.table];
    match HandRules.AddOn(room.g, room.st, t.player, t.amount)
    case Ok(st) => WithTable(s, t.table, st)
    case Err(_) => Refunded(s, t)
  }

  function Credited(s: Server, t: Task): Server
    requires t.table < |s.rooms|
  {
    match L.AppendTo(s.log, t.player, t.amount, L.CashOut, s.rooms[t.table].id)
    case Appended(log) => s.(log := log)
    case Refused(_) => s
  }

  /** Carry a request on from where it waits. */
  function Resumed(s: Server, i: nat): Server
    requires i < |s.tasks| && s.tasks[i].table < |s.rooms|
  {
    var t := s.tasks[i];
    var rest := s.(tasks := Without(s.tasks, i));
    match t
    case ToDebit(p, amount, table, seat) => Debited(rest, p, amount, L.BuyIn, ToSeat(p, amount, table, seat))
    case ToAddOn(p, amount, table) => Debited(rest, p, amount, L.AddOn, ToTopUp(p, amount, table))
    case ToSeat(_, _, _, _) => Seated(rest, t)
    case ToTopUp(_, _, _) => ToppedUp(rest, t)
    case ToCredit(_, _, _) => Credited(rest, t)
  }

  /** The chips of a seat given up: credited later unless there are none. */
  function Left(s: Server, p: PlayerId, table: nat): Server
    requires table < |s.rooms|
  {
    var room := s.rooms[table];
    match HandRules.CashOut(room.g, room.st, p)
    case Ok(left) =>
      var next := WithTable(s, table, left.0);
      if left.1 > 0 then next.(tasks := s.tasks + [ToCredit(p, left.1, table)]) else next
    case Err(_) => WithTable(s, table, Idle(room.g, room.st))
  }

  function Played(s: Server, table: nat, c: Command): Server
    requires table < |s.rooms| && IsPlay(c) && GoodCommand(c) && Shaped(s.rooms[table].g, s.rooms[table].st)
  {
    var room := s.rooms[table];
    WithTable(s, table, Exec(room.g, room.st, c)).(rake := s.rake + RakeOf(room.g, room.st, c))
  }

  function RakeOf(g: Game, st: State, c: Command): nat
    requires Shaped(g, st) && IsPlay(c) && GoodCommand(c)
  {
    match c
    case Start(deck) => RakeTaken(StartHand(g, st, deck))
    case Do(m) => RakeTaken(Act(g, st, m.playerId, m.action))
    case _ => 0
  }

  function Opened(s: Server, id: TableId, g: Game): Server {
    s.(rooms := AddRoom(s.rooms, id, g), ids := s.ids[id := |s.rooms|])
  }

  function Noted(s: Server, p: PlayerId, amount: int, reason: L.Reason, ref: nat): Server {
    match L.AppendTo(s.log, p, amount, reason, ref)
    case Appended(log) => s.(log := log)
    case Refused(_) => s
  }

  lemma Playable(s: Server, i: nat)
    requires Inv(s) && i < |s.rooms|
    ensures Shaped(s.rooms[i].g, s.rooms[i].st)
  {
    hide TableInv, Shaped, L.GoodLog, GoodIds, Everywhere;
    RoomShaped(s.rooms, i);
  }

  lemma NamedInside(s: Server, id: TableId)
    requires Inv(s) && id in s.ids
    ensures s.ids[id] < |s.rooms|
  {
    hide GoodRooms, L.GoodLog, Everywhere;
  }

  lemma TaskInside(s: Server, i: nat)
    requires Inv(s) && i < |s.tasks|
    ensures s.tasks[i].table < |s.rooms|
  {
    hide GoodRooms, GoodIds, L.GoodLog, Everywhere;
  }

  /** One step of the server. A request for an id that names no table does nothing. */
  function Step(s: Server, e: Event): Server
    requires Inv(s) && GoodEvent(e)
  {
    match e
    case OpenAccount(p) => s.(log := L.Ensured(s.log, p))
    case OpenTable(id, g) => Opened(s, id, g)
    case AskSit(p, amount, id, seat) =>
      if id in s.ids then s.(log := L.Ensured(s.log, p), tasks := s.tasks + [ToDebit(p, amount, s.ids[id], seat)]) else s
    case AskAddOn(p, amount, id) => if id in s.ids then s.(tasks := s.tasks + [ToAddOn(p, amount, s.ids[id])]) else s
    case AskLeave(p, id) => if id in s.ids then NamedInside(s, id); Left(s, p, s.ids[id]) else s
    case Resume(i) => if i < |s.tasks| then TaskInside(s, i); Resumed(s, i) else s
    case Begin(id, deck) =>
      if id in s.ids then NamedInside(s, id); Playable(s, s.ids[id]); Played(s, s.ids[id], Start(deck)) else s
    case Play(table, c) => if table < |s.rooms| then Playable(s, table); Played(s, table, c) else s
    case Elsewhere(p, amount, reason, ref) => Noted(s, p, amount, reason, ref)
  }

  // ---------------------------------------------------------------- sums

  lemma TasksAdd(tasks: seq<Task>, t: Task, f: Task -> nat)
    ensures SumTasks(tasks + [t], f) == SumTasks(tasks, f) + f(t)
  {
  }

  lemma {:induction false} TasksRemove(tasks: seq<Task>, i: nat, f: Task -> nat)
    requires i < |tasks|
    ensures SumTasks(Without(tasks, i), f) == SumTasks(tasks, f) - f(tasks[i])
  {
    var front, last := tasks[..|tasks| - 1], tasks[|tasks| - 1];
    if i == |front| {
      assert Without(tasks, i) == front;
    } else {
      TasksRemove(front, i, f);
      assert Without(tasks, i) == Without(front, i) + [last];
      TasksAdd(Without(front, i), last, f);
    }
  }

  lemma {:induction false} RoomsUpdate(rooms: seq<Room>, i: nat, r: Room, f: State -> nat)
    requires i < |rooms|
    ensures SumRooms(rooms[i := r], f) == SumRooms(rooms, f) - f(rooms[i].st) + f(r.st)
  {
    var front := rooms[..|rooms| - 1];
    if i == |front| {
      assert rooms[i := r][..|front|] == front;
    } else {
      RoomsUpdate(front, i, r, f);
      assert rooms[i := r][..|front|] == front[i := r];
    }
  }

  lemma RoomsAdd(rooms: seq<Room>, r: Room, f: State -> nat)
    ensures SumRooms(rooms + [r], f) == SumRooms(rooms, f) + f(r.st)
  {
  }

  // ---------------------------------------------------------------- each step keeps the invariant

  lemma TableKeeps(s: Server, owed: int, i: nat, st: State)
    requires Balanced(s, owed) && i < |s.rooms| && TableInv(s.rooms[i].g, st)
    ensures Balanced(WithTable(s, i, st), owed + Held(s.rooms[i].st) - Held(st))
  {
    hide TableInv, Held, L.GoodLog, GoodIds, Mapped;
    RoomsUpdate(s.rooms, i, s.rooms[i].(st := st), Held);
    SetKeepsIds(s.rooms, s.ids, i, st);
  }

  lemma TaskKeeps(s: Server, owed: int, t: Task)
    requires Balanced(s, owed) && GoodTask(t, |s.rooms|)
    ensures Balanced(s.(tasks := s.tasks + [t]), owed - Flight(t))
  {
    hide TableInv, Held, L.GoodLog, GoodIds;
  }

  lemma RestKeeps(s: Server, i: nat)
    requires Inv(s) && i < |s.tasks|
    ensures Balanced(s.(tasks := Without(s.tasks, i)), Flight(s.tasks[i])) && GoodTask(s.tasks[i], |s.rooms|)
  {
    hide TableInv, Held, L.GoodLog, GoodIds;
    TasksRemove(s.tasks, i, Flight);
  }

  lemma LogKeeps(s: Server, owed: int, p: PlayerId, amount: int, reason: L.Reason, ref: nat)
    requires Balanced(s, owed) && !reason.Seed?
    ensures match L.AppendTo(s.log, p, amount, reason, ref)
            case Appended(log) => Balanced(s.(log := log), owed - if L.Outside(reason) then 0 else amount)
            case Refused(_) => true
  {
    hide TableInv, Held, L.GoodLog, GoodIds;
    if L.AppendTo(s.log, p, amount, reason, ref).Appended? {
      L.AppendKeepsGood(s.log, p, amount, reason, ref);
    }
  }

  lemma DebitedKeeps(s: Server, p: PlayerId, amount: nat, reason: L.Reason, next: Task)
    requires Balanced(s, 0) && !reason.Seed? && !L.Outside(reason) && next.table < |s.rooms|
    requires !Unpaid(next) && next.amount == amount
    ensures Balanced(Debited(s, p, amount, reason, next), 0)
  {
    hide Balanced;
    var ref := s.rooms[next.table].id;
    match L.AppendTo(s.log, p, 0 - amount, reason, ref)
    case Appended(log) =>
      LogKeeps(s, 0, p, 0 - amount, reason, ref);
      TaskKeeps(s.(log := log), amount, next);
    case Refused(_) =>
  }

  /** The refund path: the table is only tidied up, and the chips are due back. */
  lemma RefundKeeps(s: Server, t: Task)
    requires Balanced(s, t.amount) && GoodTask(t, |s.rooms|) && !Unpaid(t)
    ensures Balanced(Refunded(s, t), 0)
  {
    hide TableInv, Held, L.GoodLog, Idle, GoodIds;
    var room := s.rooms[t.table];
    IdleKeeps(room.g, room.st);
    TableKeeps(s, t.amount, t.table, Idle(room.g, room.st));
    TaskKeeps(WithTable(s, t.table, Idle(room.g, room.st)), t.amount, ToCredit(t.player, t.amount, t.table));
  }

  lemma SeatedKeeps(s: Server, t: Task)
    requires Balanced(s, t.amount) && t.ToSeat? && GoodTask(t, |s.rooms|)
    ensures Balanced(Seated(s, t), 0)
  {
    hide Held, L.GoodLog, Idle, Sit, IdleInv, Refunded, GoodIds;
    var room := s.rooms[t.table];
    match Sit(room.g, room.st, t.player, t.amount, t.seat)
    case Ok(st) =>
      SitKeeps(room.g, room.st, t.player, t.amount, t.seat);
      TableKeeps(s, t.amount, t.table, st);
    case Err(_) => RefundKeeps(s, t);
  }

  lemma ToppedUpKeeps(s: Server, t: Task)
    requires Balanced(s, t.amount) && t.ToTopUp? && GoodTask(t, |s.rooms|)
    ensures Balanced(ToppedUp(s, t), 0)
  {
    hide Held, L.GoodLog, Idle, HandRules.AddOn, IdleInv, Refunded, GoodIds;
    var room := s.rooms[t.table];
    match HandRules.AddOn(room.g, room.st, t.player, t.amount)
    case Ok(st) =>
      AddOnKeeps(room.g, room.st, t.player, t.amount);
      TableKeeps(s, t.amount, t.table, st);
    case Err(_) => RefundKeeps(s, t);
  }

  /** A credit that is due cannot be refused. */
  lemma CreditedKeeps(s: Server, t: Task)
    requires Balanced(s, t.amount) && t.ToCredit? && GoodTask(t, |s.rooms|)
    ensures Balanced(Credited(s, t), 0)
    ensures Credited(s, t).log == s.log + [L.Entry(|s.log| + 1, t.player, t.amount, L.CashOut, s.rooms[t.table].id)]
  {
    hide TableInv, Held, L.GoodLog, GoodIds;
    LogKeeps(s, t.amount, t.player, t.amount, L.CashOut, s.rooms[t.table].id);
  }

  lemma LeftKeeps(s: Server, p: PlayerId, table: nat)
    requires Balanced(s, 0) && table < |s.rooms|
    ensures Balanced(Left(s, p, table), 0)
  {
    hide Held, L.GoodLog, Idle, HandRules.CashOut, IdleInv, GoodIds;
    var room := s.rooms[table];
    match HandRules.CashOut(room.g, room.st, p)
    case Ok(left) =>
      CashOutKeeps(room.g, room.st, p);
      TableKeeps(s, 0, table, left.0);
      if left.1 > 0 {
        TaskKeeps(WithTable(s, table, left.0), left.1, ToCredit(p, left.1, table));
      }
    case Err(_) =>
      IdleKeeps(room.g, room.st);
      TableKeeps(s, 0, table, Idle(room.g, room.st));
  }

  lemma FlowIsRake(g: Game, st: State, c: Command)
    requires Shaped(g, st) && IsPlay(c) && GoodCommand(c)
    ensures Flow(g, st, c) == 0 - RakeOf(g, st, c)
  {
  }

  lemma PlayedKeeps(s: Server, table: nat, c: Command)
    requires Balanced(s, 0) && table < |s.rooms| && IsPlay(c) && GoodCommand(c)
    ensures Shaped(s.rooms[table].g, s.rooms[table].st) && Balanced(Played(s, table, c), 0)
  {
    hide TableInv, Held, L.GoodLog, Exec, Flow, RakeOf, Shaped, GoodIds;
    var room := s.rooms[table];
    RoomShaped(s.rooms, table);
    ExecKeeps(room.g, room.st, c);
    FlowIsRake(room.g, room.st, c);
    TableKeeps(s, 0, table, Exec(room.g, room.st, c));
  }

  lemma ResumedKeeps(s: Server, i: nat)
    requires Inv(s) && i < |s.tasks|
    ensures s.tasks[i].table < |s.rooms| && Balanced(Resumed(s, i), 0)
  {
    hide Balanced, Seated, ToppedUp, Credited, Debited;
    var t := s.tasks[i];
    var rest := s.(tasks := Without(s.tasks, i));
    RestKeeps(s, i);
    match t
    case ToDebit(p, amount, table, seat) => DebitedKeeps(rest, p, amount, L.BuyIn, ToSeat(p, amount, table, seat));
    case ToAddOn(p, amount, table) => DebitedKeeps(rest, p, amount, L.AddOn, ToTopUp(p, amount, table));
    case ToSeat(_, _, _, _) => SeatedKeeps(rest, t);
    case ToTopUp(_, _, _) => ToppedUpKeeps(rest, t);
    case ToCredit(_, _, _) => CreditedKeeps(rest, t);
  }

  lemma EnsuredKeeps(s: Server, p: PlayerId)
    requires Balanced(s, 0)
    ensures Balanced(s.(log := L.Ensured(s.log, p)), 0)
  {
    hide TableInv, Held, L.GoodLog, GoodIds;
    L.EnsureKeeps(s.log, p);
  }

  lemma OpenedKeeps(s: Server, id: TableId, g: Game)
    requires Balanced(s, 0) && GoodConfig(g.cfg)
    ensures Balanced(Opened(s, id, g), 0)
  {
    hide TableInv, Held, L.GoodLog, NewTable, GoodIds, Mapped;
    NewTableInv(g);
    AddKeepsIds(s.rooms, s.ids, id, g);
    RoomsAdd(s.rooms, Room(id, g, NewTable(g)), Held);
  }

  lemma NamedRoom(s: Server, owed: int, id: TableId)
    requires Balanced(s, owed) && id in s.ids
    ensures s.ids[id] < |s.rooms|
  {
  }

  /**
   * Every step, whatever is in flight and whichever ids are used again: no chip is lost or made except by a seed or
   * outside the tables, no balance goes below zero, nobody is seeded twice, and every table stays well formed.
   */
  lemma StepKeeps(s: Server, e: Event)
    requires Inv(s) && GoodEvent(e)
    ensures Inv(Step(s, e))
  {
    hide Balanced, Debited, Left, Resumed, Played, Opened, Noted;
    match e
    case OpenAccount(p) => EnsuredKeeps(s, p);
    case OpenTable(id, g) => OpenedKeeps(s, id, g);
    case AskSit(p, amount, id, seat) =>
      if id in s.ids {
        NamedRoom(s, 0, id);
        EnsuredKeeps(s, p);
        TaskKeeps(s.(log := L.Ensured(s.log, p)), 0, ToDebit(p, amount, s.ids[id], seat));
      }
    case AskAddOn(p, amount, id) =>
      if id in s.ids {
        NamedRoom(s, 0, id);
        TaskKeeps(s, 0, ToAddOn(p, amount, s.ids[id]));
      }
    case AskLeave(p, id) =>
      if id in s.ids {
        NamedRoom(s, 0, id);
        LeftKeeps(s, p, s.ids[id]);
      }
    case Resume(i) => if i < |s.tasks| { ResumedKeeps(s, i); }
    case Begin(id, deck) =>
      if id in s.ids {
        NamedRoom(s, 0, id);
        PlayedKeeps(s, s.ids[id], Start(deck));
      }
    case Play(table, c) => if table < |s.rooms| { PlayedKeeps(s, table, c); }
    case Elsewhere(p, amount, reason, ref) => NotedKeeps(s, p, amount, reason, ref);
  }

  lemma NotedKeeps(s: Server, p: PlayerId, amount: int, reason: L.Reason, ref: nat)
    requires Balanced(s, 0) && L.Outside(reason)
    ensures Balanced(Noted(s, p, amount, reason, ref), 0)
  {
    hide Balanced;
    LogKeeps(s, 0, p, amount, reason, ref);
  }

  // ---------------------------------------------------------------- whole runs

  const EMPTY := Server([], [], map[], [], 0)

  predicate GoodEvents(es: seq<Event>) {
    forall i :: 0 <= i < |es| ==> GoodEvent(es[i])
  }

  function Run(s: Server, es: seq<Event>): Server
    requires Inv(s) && GoodEvents(es)
    decreases |es|
  {
    if es == [] then s
    else
      StepKeeps(s, es[0]);
      Run(Step(s, es[0]), es[1..])
  }

  lemma {:induction false} RunKeeps(s: Server, es: seq<Event>)
    requires Inv(s) && GoodEvents(es)
    ensures Inv(Run(s, es))
    decreases |es|
  {
    hide Inv;
    if es != [] {
      StepKeeps(s, es[0]);
      RunKeeps(Step(s, es[0]), es[1..]);
    }
  }

  lemma EmptyInv()
    ensures Inv(EMPTY)
  {
  }

  /** The server after some events, from nothing. */
  function After(es: seq<Event>): Server
    requires GoodEvents(es)
  {
    EmptyInv();
    Run(EMPTY, es)
  }

  // ---------------------------------------------------------------- tables on the map and off it

  /** The chips on the first n tables that are on the map, or on those that are not. */
  function HeldWhere(s: Server, mapped: bool, n: nat): nat
    requires n <= |s.rooms|
  {
    if n == 0 then 0
    else HeldWhere(s, mapped, n - 1) + if Mapped(s.rooms, s.ids, n - 1) == mapped then Held(s.rooms[n - 1].st) else 0
  }

  /** On tables that a new request can find. */
  function OnTables(s: Server): nat {
    HeldWhere(s, true, |s.rooms|)
  }

  /** On tables whose id names another: nobody can cash these out. */
  function Stranded(s: Server): nat {
    HeldWhere(s, false, |s.rooms|)
  }

  lemma {:induction false} HeldSplits(s: Server, n: nat)
    requires n <= |s.rooms|
    ensures HeldWhere(s, true, n) + HeldWhere(s, false, n) == SumRooms(s.rooms[..n], Held)
  {
    hide Held, Mapped;
    if n > 0 {
      HeldSplits(s, n - 1);
      assert s.rooms[..n][..n - 1] == s.rooms[..n - 1];
    }
  }

  lemma BooksBalance(s: Server, users: seq<PlayerId>)
    requires Inv(s) && L.AllUsers(s.log, users)
    ensures L.SumBalances(s.log, users) + SumTasks(s.tasks, Flight) + OnTables(s) + Stranded(s) + s.rake
         == L.WELCOME * |L.SeededUsers(s.log)| + L.OutsideTotal(s.log)
  {
    hide GoodRooms, GoodIds, HeldWhere, L.SumBalances, L.SeededUsers, L.SeedTotal, L.OutsideTotal, SumTasks, SumRooms;
    L.SeedsAreWelcomes(s.log);
    L.BalancesAreEntries(s.log, users);
    HeldSplits(s, |s.rooms|);
    assert s.rooms[..|s.rooms|] == s.rooms;
  }

  /**
   * However requests interleave and whichever ids are used again, balances, chips in flight, chips on the tables of the
   * map, chips stranded on tables off it, and rake add up to 100,000 for each account ever seeded and what tournaments
   * and the shop have brought; and no balance is negative.
   */
  lemma EscrowConserves(es: seq<Event>, users: seq<PlayerId>)
    requires GoodEvents(es) && L.AllUsers(After(es).log, users)
    ensures var s := After(es);
      && L.SumBalances(s.log, users) + SumTasks(s.tasks, Flight) + OnTables(s) + Stranded(s) + s.rake
         == L.WELCOME * |L.SeededUsers(s.log)| + L.OutsideTotal(s.log)
      && forall u: PlayerId :: L.Balance(s.log, u) >= 0
  {
    EmptyInv();
    RunKeeps(EMPTY, es);
    var s := After(es);
    hide After, Run, L.Balance, OnTables, Stranded, GoodRooms, GoodIds, Everywhere, L.NeverOverdrawn, L.SumBalances, L.SeededUsers;
    BooksBalance(s, users);
    forall u: PlayerId
      ensures L.Balance(s.log, u) >= 0
    {
      L.ChipLedger.NotOverdrawn(s.log, u);
    }
  }

  /** What every step leaves of one table: its id and settings, and, if it is off the map, its chips but for rake. */
  ghost predicate StillThere(s: Server, next: Server, i: nat) {
    && i < |s.rooms| <= |next.rooms| && next.rake >= s.rake
    && (!Mapped(s.rooms, s.ids, i) ==>
          && !Mapped(next.rooms, next.ids, i)
          && Held(next.rooms[i].st) + next.rake >= Held(s.rooms[i].st) + s.rake)
  }

  /** A table changes, its chips growing or going to the rake. */
  lemma SetThere(s: Server, j: nat, st: State, tasks: seq<Task>, rake: nat, i: nat)
    requires Inv(s) && j < |s.rooms| && i < |s.rooms|
    requires Mapped(s.rooms, s.ids, j) || Held(st) + rake >= Held(s.rooms[j].st)
    ensures StillThere(s, WithTable(s, j, st).(tasks := tasks, rake := s.rake + rake), i)
  {
    hide Held, TableInv, L.GoodLog, Mapped, GoodIds;
    SetKeepsIds(s.rooms, s.ids, j, st);
  }

  lemma PlayedThere(s: Server, table: nat, c: Command, i: nat)
    requires Inv(s) && table < |s.rooms| && i < |s.rooms| && IsPlay(c) && GoodCommand(c)
    ensures Shaped(s.rooms[table].g, s.rooms[table].st) && StillThere(s, Played(s, table, c), i)
  {
    hide TableInv, Held, L.GoodLog, Exec, Flow, RakeOf, Shaped, Mapped, GoodIds, Everywhere;
    var room := s.rooms[table];
    RoomShaped(s.rooms, table);
    ExecKeeps(room.g, room.st, c);
    FlowIsRake(room.g, room.st, c);
    SetThere(s, table, Exec(room.g, room.st, c), s.tasks, RakeOf(room.g, room.st, c), i);
    assert Played(s, table, c) == WithTable(s, table, Exec(room.g, room.st, c)).(tasks := s.tasks, rake := s.rake + RakeOf(room.g, room.st, c));
  }

  lemma RefundThere(s: Server, rest: Server, t: Task, i: nat)
    requires Inv(s) && t.table < |s.rooms| && i < |s.rooms| && rest == s.(tasks := rest.tasks)
    ensures StillThere(s, Refunded(rest, t), i)
  {
    hide TableInv, Held, Idle, Mapped, GoodIds, L.GoodLog, Everywhere, StillThere;
    var room := s.rooms[t.table];
    RoomShaped(s.rooms, t.table);
    IdleKeeps(room.g, room.st);
    var next := Refunded(rest, t);
    SetThere(s, t.table, Idle(room.g, room.st), next.tasks, 0, i);
    assert next == WithTable(s, t.table, Idle(room.g, room.st)).(tasks := next.tasks, rake := s.rake + 0);
  }

  lemma ResumedThere(s: Server, k: nat, i: nat)
    requires Inv(s) && k < |s.tasks| && i < |s.rooms|
    ensures s.tasks[k].table < |s.rooms| && StillThere(s, Resumed(s, k), i)
  {
    hide TableInv, Held, Idle, Sit, HandRules.AddOn, IdleInv, Mapped, GoodIds, L.GoodLog, Everywhere, L.AppendTo, Refunded;
    assert GoodTask(s.tasks[k], |s.rooms|);
    var t := s.tasks[k];
    var rest := s.(tasks := Without(s.tasks, k));
    var room := s.rooms[t.table];
    RoomShaped(s.rooms, t.table);
    match t
    case ToDebit(_, _, _, _) =>
    case ToAddOn(_, _, _) =>
    case ToSeat(p, amount, table, seat) =>
      if Sit(room.g, room.st, p, amount, seat).Ok? {
        SitKeeps(room.g, room.st, p, amount, seat);
        var st := Sit(room.g, room.st, p, amount, seat).value;
        SetThere(s, table, st, rest.tasks, 0, i);
        assert Resumed(s, k) == WithTable(s, table, st).(tasks := rest.tasks, rake := s.rake + 0);
      } else {
        RefundThere(s, rest, t, i);
      }
    case ToTopUp(p, amount, table) =>
      if HandRules.AddOn(room.g, room.st, p, amount).Ok? {
        AddOnKeeps(room.g, room.st, p, amount);
        var st := HandRules.AddOn(room.g, room.st, p, amount).value;
        SetThere(s, table, st, rest.tasks, 0, i);
        assert Resumed(s, k) == WithTable(s, table, st).(tasks := rest.tasks, rake := s.rake + 0);
      } else {
        RefundThere(s, rest, t, i);
      }
    case ToCredit(_, _, _) =>
  }

  lemma LeftThere(s: Server, p: PlayerId, id: TableId, i: nat)
    requires Inv(s) && id in s.ids && i < |s.rooms|
    ensures s.ids[id] < |s.rooms| && StillThere(s, Left(s, p, s.ids[id]), i)
  {
    hide TableInv, Held, Idle, HandRules.CashOut, Mapped, L.GoodLog, Everywhere, StillThere;
    IdIsMapped(s.rooms, s.ids, id);
    var j := s.ids[id];
    var room := s.rooms[j];
    var next := Left(s, p, j);
    match HandRules.CashOut(room.g, room.st, p)
    case Ok(left) =>
      SetThere(s, j, left.0, next.tasks, 0, i);
      assert next == WithTable(s, j, left.0).(tasks := next.tasks, rake := s.rake + 0);
    case Err(_) =>
      SetThere(s, j, Idle(room.g, room.st), next.tasks, 0, i);
      assert next == WithTable(s, j, Idle(room.g, room.st)).(tasks := next.tasks, rake := s.rake + 0);
  }

  lemma OpenedThere(s: Server, id: TableId, g: Game, i: nat)
    requires Inv(s) && i < |s.rooms|
    ensures StillThere(s, Opened(s, id, g), i)
  {
    hide TableInv, Held, L.GoodLog, Everywhere, GoodIds, Mapped, NewTable;
    AddKeepsIds(s.rooms, s.ids, id, g);
  }

  lemma StepThere(s: Server, e: Event, i: nat)
    requires Inv(s) && GoodEvent(e) && i < |s.rooms|
    ensures StillThere(s, Step(s, e), i)
  {
    hide TableInv, Held, L.GoodLog, Everywhere, Mapped, Resumed, Left, Played, Opened, L.AppendTo, L.Ensured;
    match e
    case OpenTable(id, g) => OpenedThere(s, id, g, i);
    case AskLeave(p, id) => if id in s.ids { LeftThere(s, p, id, i); }
    case Resume(k) => if k < |s.tasks| { ResumedThere(s, k, i); }
    case Begin(id, deck) => if id in s.ids { PlayedThere(s, s.ids[id], Start(deck), i); }
    case Play(table, c) => if table < |s.rooms| { PlayedThere(s, table, c, i); }
    case _ =>
  }

  /**
   * A table off the map stays off it, and nobody ever gets chips back from it: whatever happens, what it holds and the
   * rake do not fall.
   */
  lemma {:induction false} NeverComesBack(s: Server, es: seq<Event>, i: nat)
    requires Inv(s) && GoodEvents(es) && i < |s.rooms|
    ensures StillThere(s, Run(s, es), i)
    decreases |es|
  {
    hide Inv, Held, Mapped, Step;
    if es != [] {
      StepKeeps(s, es[0]);
      StepThere(s, es[0], i);
      NeverComesBack(Step(s, es[0]), es[1..], i);
    }
  }

  // ---------------------------------------------------------------- leaving

  /**
   * Between hands whoever asks to leave is gone from the table at once, and exactly their stack falls due to them;
   * during a hand nothing changes.
   */
  lemma LeavingPays(s: Server, p: PlayerId, id: TableId, k: nat)
    requires Inv(s) && id in s.ids && s.ids[id] < |s.rooms|
    requires var st := s.rooms[s.ids[id]].st; k < |st.seats| && st.seats[k].Some? && st.seats[k].value.playerId == p
    ensures var i := s.ids[id]; var room := s.rooms[i]; var next := Step(s, AskLeave(p, id)); var stack := room.st.seats[k].value.stack;
      if HandInv(room.g, room.st) then next == s
      else
        && |next.rooms| == |s.rooms| && next.log == s.log && FindSeat(next.rooms[i].st.seats, p).None?
        && next.tasks == if stack > 0 then s.tasks + [ToCredit(p, stack, i)] else s.tasks
  {
    hide HandInv, TableInv, Idle, HandRules.CashOut, IdleInv, L.GoodLog, Everywhere, GoodIds, Held;
    var room := s.rooms[s.ids[id]];
    RoomShaped(s.rooms, s.ids[id]);
    IdleKeeps(room.g, room.st);
    CashOutAcceptedIff(room.g, room.st, p, k);
    if !HandInv(room.g, room.st) {
      CashOutKeeps(room.g, room.st, p);
    }
  }

  // ---------------------------------------------------------------- a table id used twice

  /** The table this request has fetched would take its chips. */
  predicate Lands(s: Server, t: Task)
    requires t.table < |s.rooms|
  {
    var room := s.rooms[t.table];
    match t
    case ToDebit(p, amount, _, seat) => Sit(room.g, room.st, p, amount, seat).Ok?
    case ToSeat(p, amount, _, seat) => Sit(room.g, room.st, p, amount, seat).Ok?
    case ToAddOn(p, amount, _) => HandRules.AddOn(room.g, room.st, p, amount).Ok?
    case ToTopUp(p, amount, _) => HandRules.AddOn(room.g, room.st, p, amount).Ok?
    case ToCredit(_, _, _) => false
  }

  predicate NothingLands(s: Server, i: nat)
    requires i < |s.rooms|
  {
    forall k :: 0 <= k < |s.tasks| && s.tasks[k].table == i ==> !Lands(s, s.tasks[k])
  }

  /** The table holds no chips, and would turn down every request under way that has fetched it. */
  predicate Quiet(s: Server, i: nat) {
    i < |s.rooms| && Held(s.rooms[i].st) == 0 && NothingLands(s, i)
  }

  /** At most a clean-up has happened to the table, and no request for it that would be taken has come. */
  lemma QuietKept(s: Server, next: Server, i: nat)
    requires Inv(s) && Quiet(s, i) && i < |next.rooms|
    requires var room := s.rooms[i]; next.rooms[i] == room || next.rooms[i] == room.(st := Idle(room.g, room.st))
    requires forall k :: 0 <= k < |next.tasks| && next.tasks[k].table == i ==> !Lands(s, next.tasks[k])
    ensures Quiet(next, i)
  {
    hide TableInv, Held, Finish, Everywhere, L.GoodLog, GoodIds;
    var room := s.rooms[i];
    RoomShaped(s.rooms, i);
    IdleKeeps(room.g, room.st);
    IdleTwice(room.g, room.st);
    forall k | 0 <= k < |next.tasks| && next.tasks[k].table == i
      ensures !Lands(next, next.tasks[k])
    {
      assert !Lands(s, next.tasks[k]);
    }
  }

  lemma IdleTwice(g: Game, st: State)
    ensures Idle(g, Idle(g, st)) == Idle(g, st)
  {
  }

  lemma QuietResumed(s: Server, k: nat, i: nat)
    requires Inv(s) && Quiet(s, i) && k < |s.tasks|
    ensures s.tasks[k].table < |s.rooms| && Quiet(Resumed(s, k), i)
  {
    hide TableInv, Held, Idle, Sit, HandRules.AddOn, L.AppendTo, Everywhere, L.GoodLog, GoodIds, GoodRooms;
    assert GoodTask(s.tasks[k], |s.rooms|);
    var next := Resumed(s, k);
    forall h | 0 <= h < |next.tasks| && next.tasks[h].table == i
      ensures !Lands(s, next.tasks[h])
    {
      if h < |s.tasks| - 1 {
        assert next.tasks[h] == Without(s.tasks, k)[h];
        assert next.tasks[h] == s.tasks[if h < k then h else h + 1];
      } else {
        assert !Lands(s, s.tasks[k]);
      }
    }
    assert s.tasks[k].table == i ==> !Lands(s, s.tasks[k]);
    QuietKept(s, next, i);
  }

  lemma QuietPlayed(s: Server, table: nat, c: Command, i: nat)
    requires Inv(s) && Quiet(s, i) && table < |s.rooms| && IsPlay(c) && GoodCommand(c) && (table == i ==> !c.Start?)
    ensures Shaped(s.rooms[table].g, s.rooms[table].st) && Quiet(Played(s, table, c), i)
  {
    hide Held, Everywhere, L.GoodLog, GoodIds, RakeOf, Idle, StartHand, HandInv, PaidInv, IdleInv;
    RoomShaped(s.rooms, table);
    RoomShaped(s.rooms, i);
    if table == i {
      NoChipsNoBets(s.rooms[i].g, s.rooms[i].st);
    }
    QuietKept(s, Played(s, table, c), i);
  }

  lemma NoChipsNoBets(g: Game, st: State)
    requires TableInv(g, st) && Held(st) == 0
    ensures !IsBetting(st.street)
  {
    if HandInv(g, st) {
      BettingHoldsChips(g, st);
    }
  }

  /** A request for another table leaves this one as it is. */
  lemma QuietElsewhere(s: Server, next: Server, i: nat)
    requires Inv(s) && Quiet(s, i) && i < |next.rooms| && next.rooms[i] == s.rooms[i]
    requires next.tasks == s.tasks
      || (|next.tasks| == |s.tasks| + 1 && next.tasks[..|s.tasks|] == s.tasks && next.tasks[|s.tasks|].table != i)
    ensures Quiet(next, i)
  {
    hide TableInv, Held, Everywhere, L.GoodLog, GoodIds, GoodRooms, Lands;
    forall k | 0 <= k < |next.tasks| && next.tasks[k].table == i
      ensures !Lands(s, next.tasks[k])
    {
      assert next.tasks[k] == s.tasks[k];
    }
    QuietKept(s, next, i);
  }

  lemma QuietStep(s: Server, e: Event, i: nat)
    requires Inv(s) && GoodEvent(e) && Quiet(s, i) && !Mapped(s.rooms, s.ids, i)
    ensures Quiet(Step(s, e), i)
  {
    hide TableInv, Held, Idle, HandRules.CashOut, L.AppendTo, L.Ensured, Everywhere, L.GoodLog, NothingLands, Resumed, Played, Exec;
    match e
    case Resume(k) => if k < |s.tasks| { QuietResumed(s, k, i); }
    case Begin(id, deck) =>
      if id in s.ids {
        IdIsMapped(s.rooms, s.ids, id);
        QuietPlayed(s, s.ids[id], Start(deck), i);
      }
    case Play(table, c) => if table < |s.rooms| { QuietPlayed(s, table, c, i); }
    case _ => QuietElsewhere(s, Step(s, e), i);
  }

  lemma {:induction false} QuietRun(s: Server, es: seq<Event>, i: nat)
    requires Inv(s) && GoodEvents(es) && Quiet(s, i) && !Mapped(s.rooms, s.ids, i)
    ensures Quiet(Run(s, es), i)
    decreases |es|
  {
    hide Inv, Quiet, Mapped, Step, Held;
    if es != [] {
      StepKeeps(s, es[0]);
      QuietStep(s, es[0], i);
      QuietInside(s, i);
      StepThere(s, es[0], i);
      QuietRun(Step(s, es[0]), es[1..], i);
    }
  }

  lemma QuietInside(s: Server, i: nat)
    requires Quiet(s, i)
    ensures i < |s.rooms| && Held(s.rooms[i].st) == 0
  {
  }

  /** What a table holds after some events. */
  function HeldAfter(s: Server, es: seq<Event>, i: nat): nat
    requires Inv(s) && GoodEvents(es)
  {
    var end := Run(s, es);
    if i < |end.rooms| then Held(end.rooms[i].st) else 0
  }

  /** Chips that are paid for and would be taken are taken. */
  lemma PaidLands(s: Server, k: nat)
    requires Inv(s) && k < |s.tasks| && !Unpaid(s.tasks[k]) && s.tasks[k].table < |s.rooms| && Lands(s, s.tasks[k])
    ensures var i := s.tasks[k].table; HeldAfter(s, [Resume(k)], i) > 0
  {
    hide TableInv, Held, Sit, HandRules.AddOn, IdleInv, Everywhere, L.GoodLog, GoodIds;
    var t := s.tasks[k];
    assert GoodTask(t, |s.rooms|);
    var room := s.rooms[t.table];
    RoomShaped(s.rooms, t.table);
    StepKeeps(s, Resume(k));
    RunOne(s, Resume(k));
    if t.ToSeat? {
      SitKeeps(room.g, room.st, t.player, t.amount, t.seat);
    } else {
      AddOnKeeps(room.g, room.st, t.player, t.amount);
    }
  }

  lemma RunOne(s: Server, e: Event)
    requires Inv(s) && GoodEvent(e)
    ensures GoodEvents([e]) && Inv(Step(s, e)) && Run(s, [e]) == Step(s, e)
  {
    hide Inv, Step;
    StepKeeps(s, e);
    assert Run(Step(s, e), [e][1..]) == Step(s, e);
  }

  lemma RunStep(s: Server, es: seq<Event>)
    requires Inv(s) && es != [] && GoodEvents(es)
    ensures Inv(Step(s, es[0])) && Run(s, es) == Run(Step(s, es[0]), es[1..])
  {
    hide Inv, Step;
    StepKeeps(s, es[0]);
  }

  /** A request for positive chips, once its debit goes through. */
  function PaidFor(t: Task): Task
    requires Unpaid(t)
  {
    match t
    case ToDebit(p, amount, table, seat) => ToSeat(p, amount, table, seat)
    case ToAddOn(p, amount, table) => ToTopUp(p, amount, table)
  }

  lemma LandingIsPositive(s: Server, t: Task)
    requires Inv(s) && t.table < |s.rooms| && Lands(s, t)
    ensures t.amount > 0
  {
    hide L.GoodLog, Everywhere, GoodIds, HandInv, PaidInv;
    RoomShaped(s.rooms, t.table);
  }

  /** A player who is given enough can pay. */
  lemma GivenEnough(s: Server, p: PlayerId, amount: nat, reason: L.Reason, ref: nat)
    requires Inv(s) && amount > 0 && !reason.Seed?
    ensures var next := Step(s, Elsewhere(p, amount, L.TournamentPrize, 0));
      next == s.(log := next.log) && L.AppendTo(next.log, p, 0 - amount, reason, ref).Appended?
  {
    hide L.Balance, L.NeverOverdrawn, GoodRooms, GoodIds, Everywhere;
    L.ChipLedger.NotOverdrawn(s.log, p);
    L.AppendKeepsGood(s.log, p, amount, L.TournamentPrize, 0);
  }

  lemma PaysUp(s: Server, k: nat)
    requires Inv(s) && k < |s.tasks| && Unpaid(s.tasks[k]) && s.tasks[k].amount > 0
    ensures var t := s.tasks[k]; var prize := Elsewhere(t.player, t.amount, L.TournamentPrize, 0);
      && Inv(Step(s, prize))
      && var end := Step(Step(s, prize), Resume(k));
      end.rooms == s.rooms && |end.tasks| == |s.tasks| && end.tasks[|s.tasks| - 1] == PaidFor(t)
  {
    hide L.AppendTo, L.GoodLog, GoodRooms, GoodIds, Everywhere;
    var t := s.tasks[k];
    assert GoodTask(t, |s.rooms|);
    var prize := Elsewhere(t.player, t.amount, L.TournamentPrize, 0);
    StepKeeps(s, prize);
    GivenEnough(s, t.player, t.amount, if t.ToDebit? then L.BuyIn else L.AddOn, s.rooms[t.table].id);
  }

  /** A request that the table would take can be carried through to the table. */
  lemma LandsLater(s: Server, k: nat) returns (es: seq<Event>)
    requires Inv(s) && k < |s.tasks| && s.tasks[k].table < |s.rooms| && Lands(s, s.tasks[k])
    ensures GoodEvents(es) && HeldAfter(s, es, s.tasks[k].table) > 0
  {
    hide Inv, Step, Held;
    var t := s.tasks[k];
    LandingIsPositive(s, t);
    if Unpaid(t) {
      var prize := Elsewhere(t.player, t.amount, L.TournamentPrize, 0);
      es := [prize, Resume(k), Resume(|s.tasks| - 1)];
      PaysUp(s, k);
      var s1 := Step(s, prize);
      StepKeeps(s1, Resume(k));
      var s2 := Step(s1, Resume(k));
      assert Lands(s2, PaidFor(t));
      PaidLands(s2, |s.tasks| - 1);
      RunStep(s, es);
      RunStep(s1, es[1..]);
      assert es[1..][1..] == [Resume(|s.tasks| - 1)];
    } else {
      es := [Resume(k)];
      PaidLands(s, k);
    }
  }

  /**
   * Creating a table under an id in use takes the old table off the map with all it holds. Nothing is ever lost that
   * way, whatever happens later, exactly when the old table holds no chips and would turn down every sit and add-on
   * under way that has fetched it: chips that such a request brings later are stranded too.
   */
  lemma ReopeningLosesNothingIff(s: Server, id: TableId, g: Game)
    requires Inv(s) && GoodConfig(g.cfg) && id in s.ids
    ensures var i, next := s.ids[id], Step(s, OpenTable(id, g));
      && Inv(next) && i < |s.rooms| && i < |next.rooms| && !Mapped(next.rooms, next.ids, i)
      && ((forall es: seq<Event> :: GoodEvents(es) ==> HeldAfter(next, es, i) == 0) <==> Quiet(s, i))
  {
    hide Inv, Held, Lands, NewTable;
    var i, next := s.ids[id], Step(s, OpenTable(id, g));
    StepKeeps(s, OpenTable(id, g));
    Detaches(s, id, g);
    if Quiet(s, i) {
      forall es: seq<Event> | GoodEvents(es)
        ensures HeldAfter(next, es, i) == 0
      {
        QuietRun(next, es, i);
        QuietInside(Run(next, es), i);
      }
    } else {
      LosesSomehow(next, i);
    }
  }

  lemma Detaches(s: Server, id: TableId, g: Game)
    requires Inv(s) && GoodConfig(g.cfg) && id in s.ids
    ensures var i, next := s.ids[id], Step(s, OpenTable(id, g));
      && i < |s.rooms| && i < |next.rooms| && !Mapped(next.rooms, next.ids, i) && (Quiet(next, i) <==> Quiet(s, i))
  {
    hide L.GoodLog, Everywhere, GoodRooms, Held, NewTable;
    var i, next := s.ids[id], Step(s, OpenTable(id, g));
    assert next.rooms[i] == s.rooms[i];
    forall k | 0 <= k < |s.tasks| && s.tasks[k].table == i
      ensures Lands(next, s.tasks[k]) == Lands(s, s.tasks[k])
    {
    }
  }

  lemma LosesSomehow(s: Server, i: nat)
    requires Inv(s) && i < |s.rooms| && !Quiet(s, i)
    ensures exists es: seq<Event> :: GoodEvents(es) && HeldAfter(s, es, i) > 0
  {
    hide Inv, Held, Lands, Step;
    if Held(s.rooms[i].st) > 0 {
      assert GoodEvents([]) && HeldAfter(s, [], i) > 0;
    } else {
      var k :| 0 <= k < |s.tasks| && s.tasks[k].table == i && Lands(s, s.tasks[k]);
      var es := LandsLater(s, k);
    }
  }

  lemma {:induction false} WhereSame(s: Server, next: Server, mapped: bool, n: nat)
    requires n <= |s.rooms| && n <= |next.rooms|
    requires forall k: nat :: k < n ==> next.rooms[k] == s.rooms[k] && Mapped(next.rooms, next.ids, k) == Mapped(s.rooms, s.ids, k)
    ensures HeldWhere(next, mapped, n) == HeldWhere(s, mapped, n)
  {
    hide Held, Mapped;
    if n > 0 {
      WhereSame(s, next, mapped, n - 1);
    }
  }

  lemma {:induction false} WhereButOne(s: Server, next: Server, i: nat, n: nat)
    requires i < n <= |s.rooms| && n <= |next.rooms|
    requires forall k: nat :: k < n ==>
      next.rooms[k] == s.rooms[k] && (Mapped(next.rooms, next.ids, k) <==> Mapped(s.rooms, s.ids, k) && k != i)
    requires Mapped(s.rooms, s.ids, i)
    ensures HeldWhere(next, false, n) == HeldWhere(s, false, n) + Held(s.rooms[i].st)
  {
    hide Held, Mapped;
    if i == n - 1 {
      WhereSame(s, next, false, n - 1);
    } else {
      WhereButOne(s, next, i, n - 1);
    }
  }

  /** Creating a table strands exactly what the table it replaces holds: nothing under a new id. */
  lemma OpeningStrands(s: Server, id: TableId, g: Game)
    requires Inv(s) && GoodConfig(g.cfg)
    ensures (id in s.ids ==> s.ids[id] < |s.rooms|)
      && Stranded(Step(s, OpenTable(id, g))) == Stranded(s) + if id in s.ids then Held(s.rooms[s.ids[id]].st) else 0
  {
    hide L.GoodLog, Everywhere, GoodRooms, Held, NewTable, Mapped, HeldWhere;
    var next, n := Step(s, OpenTable(id, g)), |s.rooms|;
    AddKeepsIds(s.rooms, s.ids, id, g);
    WhereLast(next);
    if id in s.ids {
      IdIsMapped(s.rooms, s.ids, id);
      OnlyOne(s, id);
      WhereButOne(s, next, s.ids[id], n);
    } else {
      WhereSame(s, next, false, n);
    }
  }

  lemma WhereLast(s: Server)
    requires s.rooms != [] && Mapped(s.rooms, s.ids, |s.rooms| - 1)
    ensures HeldWhere(s, false, |s.rooms|) == HeldWhere(s, false, |s.rooms| - 1)
  {
  }

  lemma OnlyOne(s: Server, id: TableId)
    requires GoodIds(s.rooms, s.ids) && id in s.ids
    ensures forall k: nat :: Mapped(s.rooms, s.ids, k) ==> (s.rooms[k].id == id <==> k == s.ids[id])
  {
  }

  // ---------------------------------------------------------------- two ways to lose a buy-in

  function OneTable(g: Game, log: seq<L.Entry>, tasks: seq<Task>): Server {
    Server(log, [Room(0, g, NewTable(g))], map[0 := 0], tasks, 0)
  }

  const WELCOMED := [L.Entry(1, 1, L.WELCOME, L.Seed, 0)]

  /** The ledger once the first player has paid for a seat. */
  function PaidLog(buyIn: nat): seq<L.Entry> {
    WELCOMED + [L.Entry(2, 1, 0 - buyIn, L.BuyIn, 0)]
  }

  lemma TableOpened(g: Game)
    requires GoodConfig(g.cfg)
    ensures Inv(EMPTY) && Step(EMPTY, OpenTable(0, g)) == OneTable(g, [], []) && Inv(OneTable(g, [], []))
  {
    hide Inv, NewTable;
    EmptyInv();
    StepKeeps(EMPTY, OpenTable(0, g));
  }

  lemma SeatAsked(g: Game, buyIn: nat)
    requires GoodConfig(g.cfg)
    ensures var e := AskSit(1, buyIn, 0, None); var next := OneTable(g, WELCOMED, [ToDebit(1, buyIn, 0, None)]);
      Inv(OneTable(g, [], [])) && Step(OneTable(g, [], []), e) == next && Inv(next)
  {
    hide Inv, NewTable;
    TableOpened(g);
    StepKeeps(OneTable(g, [], []), AskSit(1, buyIn, 0, None));
    assert L.Ensured([], 1) == WELCOMED;
  }

  lemma FirstDebit(buyIn: nat)
    requires 0 < buyIn <= L.WELCOME
    ensures L.AppendTo(WELCOMED, 1, 0 - buyIn, L.BuyIn, 0) == L.Appended(PaidLog(buyIn))
  {
    L.BalanceExtends([], WELCOMED[0], 1);
    assert [] + [WELCOMED[0]] == WELCOMED && L.Balance([], 1) == 0;
  }

  lemma SeatPaid(g: Game, buyIn: nat)
    requires GoodConfig(g.cfg) && 0 < buyIn <= L.WELCOME
    ensures var s := OneTable(g, WELCOMED, [ToDebit(1, buyIn, 0, None)]);
      var next := OneTable(g, PaidLog(buyIn), [ToSeat(1, buyIn, 0, None)]);
      Inv(s) && Step(s, Resume(0)) == next && Inv(next)
  {
    hide Inv, NewTable, L.AppendTo, Seated, ToppedUp, Credited;
    SeatAsked(g, buyIn);
    var s := OneTable(g, WELCOMED, [ToDebit(1, buyIn, 0, None)]);
    StepKeeps(s, Resume(0));
    FirstDebit(buyIn);
    assert Without(s.tasks, 0) == [];
  }

  lemma FirstSeatOf(g: Game, buyIn: nat)
    requires GoodConfig(g.cfg) && g.cfg.minBuyIn <= buyIn <= g.cfg.maxBuyIn
    ensures Sit(g, NewTable(g), 1, buyIn, None).Ok? && Held(Sit(g, NewTable(g), 1, buyIn, None).value) == buyIn
  {
    hide HandInv;
    NewTableInv(g);
    FindNone(NewTable(g).seats, 1);
    assert FirstEmpty(NewTable(g).seats) == Some(0);
    SitKeeps(g, NewTable(g), 1, buyIn, None);
  }

  /** The first table is empty, and a seat at it is paid for. */
  ghost predicate SeatDue(s: Server, g: Game, buyIn: nat) {
    && Inv(s) && s.rooms != [] && s.rooms[0] == Room(0, g, NewTable(g)) && s.tasks == [ToSeat(1, buyIn, 0, None)]
    && GoodConfig(g.cfg) && g.cfg.minBuyIn <= buyIn <= g.cfg.maxBuyIn
  }

  lemma SeatTaken(s: Server, g: Game, buyIn: nat)
    requires SeatDue(s, g, buyIn)
    ensures var next := Step(s, Resume(0));
      && Inv(next) && |next.rooms| == |s.rooms| && next.ids == s.ids
      && next.rooms[0].id == 0 && Held(next.rooms[0].st) == buyIn
  {
    hide NewTable, Held, L.GoodLog, GoodRooms, GoodIds, Everywhere;
    StepKeeps(s, Resume(0));
    FirstSeatOf(g, buyIn);
  }

  /** A table is opened, and its first player has paid for a seat. */
  function UpToDue(g: Game, buyIn: nat): seq<Event> {
    [OpenTable(0, g), AskSit(1, buyIn, 0, None), Resume(0)]
  }

  lemma RunFromDue(g: Game, buyIn: nat, rest: seq<Event>)
    requires GoodConfig(g.cfg) && g.cfg.minBuyIn <= buyIn <= g.cfg.maxBuyIn && buyIn <= L.WELCOME && GoodEvents(rest)
    ensures var es := UpToDue(g, buyIn) + rest; var s := OneTable(g, PaidLog(buyIn), [ToSeat(1, buyIn, 0, None)]);
      SeatDue(s, g, buyIn) && GoodEvents(es) && After(es) == Run(s, rest)
  {
    hide Inv, Step, NewTable;
    var es := UpToDue(g, buyIn) + rest;
    TableOpened(g);
    SeatAsked(g, buyIn);
    SeatPaid(g, buyIn);
    RunStep(EMPTY, es);
    RunStep(OneTable(g, [], []), es[1..]);
    RunStep(OneTable(g, WELCOMED, [ToDebit(1, buyIn, 0, None)]), es[2..]);
    assert es[1..][1..] == es[2..] && es[2..][1..] == rest;
  }

  lemma OneTableHolds(g: Game, log: seq<L.Entry>, tasks: seq<Task>)
    requires GoodConfig(g.cfg)
    ensures Held(NewTable(g)) == 0 && Stranded(OneTable(g, log, tasks)) == 0
  {
    hide Held, NewTable;
    NewTableInv(g);
    assert HeldWhere(OneTable(g, log, tasks), false, 1) == HeldWhere(OneTable(g, log, tasks), false, 0);
  }

  /** One player sits down; creating the same table again strands the buy-in. */
  lemma SeatedIsLost(g: Game)
    requires GoodConfig(g.cfg) && g.cfg.minBuyIn <= g.cfg.maxBuyIn && g.cfg.minBuyIn <= L.WELCOME
    ensures var es := UpToDue(g, g.cfg.minBuyIn) + [Resume(0), OpenTable(0, g)];
      GoodEvents(es) && Stranded(After(es)) == g.cfg.minBuyIn > 0
  {
    hide Inv, Held, Step, NewTable, Stranded, Run;
    var b := g.cfg.minBuyIn;
    RunFromDue(g, b, [Resume(0), OpenTable(0, g)]);
    var s := OneTable(g, PaidLog(b), [ToSeat(1, b, 0, None)]);
    OneTableHolds(g, PaidLog(b), [ToSeat(1, b, 0, None)]);
    SeatTaken(s, g, b);
    RunStep(s, [Resume(0), OpenTable(0, g)]);
    var next := Step(s, Resume(0));
    RunOne(next, OpenTable(0, g));
    assert [Resume(0), OpenTable(0, g)][1..] == [OpenTable(0, g)];
    OpeningStrands(next, 0, g);
    OnMapStrandsNothing(next);
  }

  lemma OnMapStrandsNothing(s: Server)
    requires |s.rooms| == 1 && s.rooms[0].id == 0 && s.ids == map[0 := 0]
    ensures Stranded(s) == 0
  {
    hide Held;
    assert HeldWhere(s, false, 1) == HeldWhere(s, false, 0);
  }

  /**
   * Nobody has sat down yet, so the table holds nothing when it is created again; the seat that has been paid for is
   * then taken at the old table all the same, and the buy-in is stranded.
   */
  lemma SeatUnderWayIsLost(g: Game)
    requires GoodConfig(g.cfg) && g.cfg.minBuyIn <= g.cfg.maxBuyIn && g.cfg.minBuyIn <= L.WELCOME
    ensures var b := g.cfg.minBuyIn; var es := UpToDue(g, b) + [OpenTable(0, g), Resume(0)];
      && GoodEvents(UpToDue(g, b)) && GoodEvents(es)
      && var first, last := After(UpToDue(g, b)), After(es);
      && |first.rooms| == 1 && first.ids == map[0 := 0] && Held(first.rooms[0].st) == 0
      && |last.rooms| == 2 && last.ids == map[0 := 1]
      && Held(last.rooms[0].st) == b > 0
  {
    hide Inv, Held, Step, NewTable, Run;
    var b := g.cfg.minBuyIn;
    var s := OneTable(g, PaidLog(b), [ToSeat(1, b, 0, None)]);
    RunFromDue(g, b, []);
    assert UpToDue(g, b) + [] == UpToDue(g, b);
    RunNone(s);
    RunFromDue(g, b, [OpenTable(0, g), Resume(0)]);
    OneTableHolds(g, PaidLog(b), [ToSeat(1, b, 0, None)]);
    RunStep(s, [OpenTable(0, g), Resume(0)]);
    var next := Step(s, OpenTable(0, g));
    StillDue(s, g, b);
    RunOne(next, Resume(0));
    assert [OpenTable(0, g), Resume(0)][1..] == [Resume(0)];
    SeatTaken(next, g, b);
  }

  lemma RunNone(s: Server)
    requires Inv(s)
    ensures GoodEvents([]) && Run(s, []) == s
  {
  }

  lemma StillDue(s: Server, g: Game, buyIn: nat)
    requires SeatDue(s, g, buyIn) && |s.rooms| == 1 && s.ids == map[0 := 0]
    ensures var next := Step(s, OpenTable(0, g)); SeatDue(next, g, buyIn) && |next.rooms| == 2 && next.ids == map[0 := 1]
  {
    hide Inv, NewTable;
    StepKeeps(s, OpenTable(0, g));
  }

  // ---------------------------------------------------------------- player by player

  /** The event seeds this player's account. */
  predicate Seeds(s: Server, e: Event, p: PlayerId) {
    && L.History(s.log, p) == []
    && (e == OpenAccount(p) || (e.AskSit? && e.player == p && e.id in s.ids))
  }

  lemma TidyStack(g: Game, st: State, p: PlayerId)
    requires TableInv(g, st)
    ensures TableStack(p)(Idle(g, st)) == TableStack(p)(st)
  {
    if st.awaiting {
      var next := MapSeats(st.seats, Cleared);
      forall i: nat | i < |next|
        ensures StackFor(p)(next[i]) == StackFor(p)(st.seats[i])
      {
        assert next[i] == if st.seats[i].Some? then Some(Cleared(st.seats[i].value)) else None;
      }
      SumSame(next, st.seats, StackFor(p));
    }
  }

  lemma SitStack(g: Game, st: State, id: PlayerId, buyIn: nat, seat: Option<int>, p: PlayerId)
    requires TableInv(g, st) && Sit(g, st, id, buyIn, seat).Ok?
    ensures TableStack(p)(Sit(g, st, id, buyIn, seat).value) == TableStack(p)(st) + if p == id then buyIn else 0
  {
    hide TableInv;
    TidyStack(g, st, p);
    var idle := Idle(g, st);
    var k: nat := if seat.Some? then seat.value else FirstEmpty(idle.seats).value;
    SumUpdate(idle.seats, k, Some(NewSeat(id, buyIn)), StackFor(p));
  }

  lemma AddOnStack(g: Game, st: State, id: PlayerId, amount: int, p: PlayerId)
    requires TableInv(g, st) && HandRules.AddOn(g, st, id, amount).Ok?
    ensures TableStack(p)(HandRules.AddOn(g, st, id, amount).value) == TableStack(p)(st) + if p == id then amount else 0
  {
    hide TableInv;
    TidyStack(g, st, p);
    var idle := Idle(g, st);
    var k := FindSeat(idle.seats, id).value;
    SumUpdate(idle.seats, k, HandRules.AddOn(g, st, id, amount).value.seats[k], StackFor(p));
  }

  lemma CashOutStack(g: Game, st: State, id: PlayerId, p: PlayerId)
    requires TableInv(g, st) && HandRules.CashOut(g, st, id).Ok?
    ensures var (next, chips) := HandRules.CashOut(g, st, id).value;
      TableStack(p)(next) == TableStack(p)(st) - if p == id then chips else 0
  {
    hide TableInv;
    TidyStack(g, st, p);
    var idle := Idle(g, st);
    SumUpdate(idle.seats, FindSeat(idle.seats, id).value, None, StackFor(p));
  }

  lemma DebitedWealth(s: Server, id: PlayerId, amount: nat, reason: L.Reason, next: Task, p: PlayerId)
    requires L.GoodLog(s.log) && !reason.Seed? && next.table < |s.rooms|
    requires !Unpaid(next) && next.amount == amount && next.player == id
    ensures Wealth(Debited(s, id, amount, reason, next), p) == Wealth(s, p)
  {
    hide L.Balance, L.GoodLog;
    var ref := s.rooms[next.table].id;
    match L.AppendTo(s.log, id, 0 - amount, reason, ref)
    case Appended(log) =>
      L.AppendKeepsGood(s.log, id, 0 - amount, reason, ref);
      TasksAdd(s.tasks, next, PlayerFlight(p));
    case Refused(_) =>
  }

  lemma TableWealth(s: Server, i: nat, st: State, p: PlayerId)
    requires i < |s.rooms|
    ensures Wealth(WithTable(s, i, st), p) == Wealth(s, p) - TableStack(p)(s.rooms[i].st) + TableStack(p)(st)
  {
    RoomsUpdate(s.rooms, i, s.rooms[i].(st := st), TableStack(p));
  }

  lemma RefundWealth(s: Server, t: Task, p: PlayerId)
    requires GoodRooms(s.rooms) && GoodTask(t, |s.rooms|) && !Unpaid(t)
    ensures Wealth(Refunded(s, t), p) == Wealth(s, p) + FlightOf(t, p)
  {
    hide TableInv, Idle, TableStack, L.Balance, SumTasks, SumRooms;
    var room := s.rooms[t.table];
    TidyStack(room.g, room.st, p);
    TableWealth(s, t.table, Idle(room.g, room.st), p);
    TasksAdd(s.tasks, ToCredit(t.player, t.amount, t.table), PlayerFlight(p));
  }

  lemma ResumedWealth(s: Server, i: nat, p: PlayerId)
    requires Inv(s) && i < |s.tasks|
    ensures s.tasks[i].table < |s.rooms| && Wealth(Resumed(s, i), p) == Wealth(s, p)
  {
    hide TableInv, Idle, Sit, HandRules.AddOn, TableStack, L.Balance, L.GoodLog, Debited, Refunded, GoodIds, Everywhere;
    var t := s.tasks[i];
    assert GoodTask(t, |s.rooms|);
    var rest := s.(tasks := Without(s.tasks, i));
    TasksRemove(s.tasks, i, PlayerFlight(p));
    assert Wealth(rest, p) == Wealth(s, p) - FlightOf(t, p);
    var room := s.rooms[t.table];
    match t
    case ToDebit(id, amount, table, seat) => DebitedWealth(rest, id, amount, L.BuyIn, ToSeat(id, amount, table, seat), p);
    case ToAddOn(id, amount, table) => DebitedWealth(rest, id, amount, L.AddOn, ToTopUp(id, amount, table), p);
    case ToSeat(id, amount, table, seat) =>
      if Sit(room.g, room.st, id, amount, seat).Ok? {
        SitStack(room.g, room.st, id, amount, seat, p);
        TableWealth(rest, table, Sit(room.g, room.st, id, amount, seat).value, p);
      } else {
        RefundWealth(rest, t, p);
      }
    case ToTopUp(id, amount, table) =>
      if HandRules.AddOn(room.g, room.st, id, amount).Ok? {
        AddOnStack(room.g, room.st, id, amount, p);
        TableWealth(rest, table, HandRules.AddOn(room.g, room.st, id, amount).value, p);
      } else {
        RefundWealth(rest, t, p);
      }
    case ToCredit(id, amount, table) =>
      L.AppendKeepsGood(s.log, id, amount, L.CashOut, room.id);
  }

  lemma LeftWealth(s: Server, id: PlayerId, table: nat, p: PlayerId)
    requires Inv(s) && table < |s.rooms|
    ensures Wealth(Left(s, id, table), p) == Wealth(s, p)
  {
    hide TableInv, Idle, HandRules.CashOut, TableStack, L.Balance, L.GoodLog, GoodIds, Everywhere;
    var room := s.rooms[table];
    match HandRules.CashOut(room.g, room.st, id)
    case Ok(left) =>
      CashOutStack(room.g, room.st, id, p);
      TableWealth(s, table, left.0, p);
      TasksAdd(s.tasks, ToCredit(id, left.1, table), PlayerFlight(p));
    case Err(_) =>
      TidyStack(room.g, room.st, p);
      TableWealth(s, table, Idle(room.g, room.st), p);
  }

  lemma EnsuredWealth(s: Server, id: PlayerId, p: PlayerId)
    requires L.GoodLog(s.log)
    ensures Wealth(s.(log := L.Ensured(s.log, id)), p)
         == Wealth(s, p) + if id == p && L.History(s.log, p) == [] then L.WELCOME else 0
  {
    hide L.Balance, L.GoodLog, L.Ensured, TableStack;
    L.EnsureKeeps(s.log, id);
  }

  lemma OpenedWealth(s: Server, id: TableId, g: Game, p: PlayerId)
    requires GoodConfig(g.cfg)
    ensures Wealth(Opened(s, id, g), p) == Wealth(s, p)
  {
    hide L.Balance, TableStack, NewTable;
    NewTableStack(g, p);
    RoomsAdd(s.rooms, Room(id, g, NewTable(g)), TableStack(p));
  }

  lemma AskedWealth(s: Server, t: Task, p: PlayerId)
    requires Unpaid(t)
    ensures Wealth(s.(tasks := s.tasks + [t]), p) == Wealth(s, p)
  {
    hide L.Balance, TableStack;
    TasksAdd(s.tasks, t, PlayerFlight(p));
  }

  /** What an entry from outside the tables gives this player. */
  function Given(s: Server, e: Event, p: PlayerId): int {
    if e.Elsewhere? && e.player == p && L.AppendTo(s.log, p, e.change, e.reason, e.ref).Appended? then e.change else 0
  }

  lemma NotedWealth(s: Server, e: Event, p: PlayerId)
    requires L.GoodLog(s.log) && e.Elsewhere? && L.Outside(e.reason)
    ensures Wealth(Noted(s, e.player, e.change, e.reason, e.ref), p) == Wealth(s, p) + Given(s, e, p)
  {
    hide L.Balance, L.GoodLog, TableStack;
    if L.AppendTo(s.log, e.player, e.change, e.reason, e.ref).Appended? {
      L.AppendKeepsGood(s.log, e.player, e.change, e.reason, e.ref);
    }
  }

  /**
   * Only playing a hand, a first seed, or an entry from outside the tables changes what a player owns in balance, flight
   * and stacks: a refused or interrupted request costs nothing.
   */
  lemma OnlyPlayMovesWealth(s: Server, e: Event, p: PlayerId)
    requires Inv(s) && GoodEvent(e) && !e.Play? && !e.Begin?
    ensures Wealth(Step(s, e), p) == Wealth(s, p) + (if Seeds(s, e, p) then L.WELCOME else 0) + Given(s, e, p)
  {
    hide GoodRooms, Resumed, Left, L.GoodLog, Debited, L.Ensured, Wealth, NewTable, L.History, Opened, Noted, L.AppendTo, Everywhere;
    match e
    case OpenAccount(id) => EnsuredWealth(s, id, p);
    case OpenTable(id, g) => OpenedWealth(s, id, g, p);
    case AskSit(player, amount, id, seat) =>
      if id in s.ids {
        EnsuredWealth(s, player, p);
        AskedWealth(s.(log := L.Ensured(s.log, player)), ToDebit(player, amount, s.ids[id], seat), p);
      }
    case AskAddOn(player, amount, id) => if id in s.ids { AskedWealth(s, ToAddOn(player, amount, s.ids[id]), p); }
    case AskLeave(player, id) => if id in s.ids { LeftWealth(s, player, s.ids[id], p); }
    case Resume(i) => if i < |s.tasks| { ResumedWealth(s, i, p); }
    case Elsewhere(_, _, _, _) => NotedWealth(s, e, p);
  }

  lemma NewTableStack(g: Game, p: PlayerId)
    requires GoodConfig(g.cfg)
    ensures TableStack(p)(NewTable(g)) == 0
  {
    EmptySum(NewTable(g).seats, StackFor(p));
  }

  // ---------------------------------------------------------------- every request ends

  function StagesLeft(t: Task): nat {
    match t
    case ToDebit(_, _, _, _) => 3
    case ToAddOn(_, _, _) => 3
    case ToSeat(_, _, _, _) => 2
    case ToTopUp(_, _, _) => 2
    case ToCredit(_, _, _) => 1
  }

  /** A resumed request is gone, is paid for and waits at its table, or has its chips due back. */
  lemma ResumedTasks(s: Server, i: nat)
    requires i < |s.tasks| && s.tasks[i].table < |s.rooms|
    ensures var t := s.tasks[i]; var rest := Without(s.tasks, i);
      || Resumed(s, i).tasks == rest
      || (!t.ToCredit? && Resumed(s, i).tasks == rest + [if Unpaid(t) then PaidFor(t) else ToCredit(t.player, t.amount, t.table)])
  {
    hide Idle, Sit, HandRules.AddOn, L.AppendTo, Without;
  }

  /** Each resumption brings the waiting requests closer to done, so nothing stays in flight for ever. */
  lemma ResumeProgresses(s: Server, i: nat)
    requires Inv(s) && i < |s.tasks|
    ensures SumTasks(Step(s, Resume(i)).tasks, StagesLeft) < SumTasks(s.tasks, StagesLeft)
  {
    hide GoodRooms, L.GoodLog, Everywhere, GoodIds, Resumed, SumTasks, Without;
    var t := s.tasks[i];
    TaskInside(s, i);
    ResumedTasks(s, i);
    TasksRemove(s.tasks, i, StagesLeft);
    TasksAdd(Without(s.tasks, i), if Unpaid(t) then PaidFor(t) else ToCredit(t.player, t.amount, t.table), StagesLeft);
  }
}
