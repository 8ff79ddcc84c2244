/** The auto-fold timers: one per table of the map while betting is on, armed for whoever is to act. */
module ActionTimer {
  import opened Common
  import opened Cards
  import opened Seats
  import opened Betting
  import opened HandRules
  import opened HandInvariant
  import opened HandRuns
  import opened HandStart
  import opened TableSession
  import opened TableDirectory

  /** What a timer will do when it fires: fold this player's hand at this table object. */
  datatype Alarm = Alarm(table: nat, player: PlayerId)

  /** The `timers` map from a table's id to its last timer, and the timers still due to fire. */
  datatype Clock = Clock(timers: map<TableId, nat>, due: map<nat, Alarm>, next: nat)

  function Actor(st: State): Option<PlayerId> {
    if st.toAct.Some? && st.toAct.value < |st.seats| && st.seats[st.toAct.value].Some?
    then Some(st.seats[st.toAct.value].value.playerId) else None
  }

  function Cleared(c: Clock, id: TableId): Clock {
    if id in c.timers then c.(due := c.due - {c.timers[id]}) else c
  }

  /** `armTimeout`: clear the timer of the table's id, and set a new one if somebody is to act at the table. */
  function Armed(c: Clock, id: TableId, table: nat, st: State): Clock {
    var clear := Cleared(c, id);
    match Actor(st)
    case None => clear
    case Some(p) => Clock(clear.timers[id := clear.next], clear.due[clear.next := Alarm(table, p)], clear.next + 1)
  }

  /** Every table object ever made, the map of ids, the timers, and the tables that act requests under way have fetched. */
  datatype World = World(rooms: seq<Room>, ids: map<TableId, nat>, clock: Clock, acts: seq<nat>)

  /** An act request fetches its table before it awaits its body; `Between` is a sit, an add-on, a leave or a clean-up. */
  datatype Event =
    | OpenTable(id: TableId, g: Game)
    | StartRoute(id: TableId, deck: seq<Card>)
    | AskAct(id: TableId)
    | FinishAct(k: nat, move: Move)
    | Between(table: nat, command: Command)
    | Fire(timer: nat)

  predicate GoodEvent(e: Event) {
    && (e.OpenTable? ==> GoodConfig(e.g.cfg))
    && (e.StartRoute? ==> |e.deck| == DECK_SIZE)
    && (e.Between? ==> e.command.SitDown? || e.command.TopUp? || e.command.Leave? || e.command.Finalize?)
  }

  // ---------------------------------------------------------------- the invariant

  /** What every event keeps, whichever ids are used again. */
  ghost predicate Formed(w: World) {
    && GoodRooms(w.rooms) && GoodIds(w.rooms, w.ids)
    && (forall k :: 0 <= k < |w.acts| ==> w.acts[k] < |w.rooms|)
    && forall h :: h in w.clock.due ==> w.clock.due[h].table < |w.rooms|
  }

  /** A timer that is due is the timer of its table's id, betting is on at the table, and it names the one to act. */
  predicate AlarmRight(rooms: seq<Room>, c: Clock, h: nat)
    requires h in c.due
  {
    var a := c.due[h];
    && h < c.next && a.table < |rooms| && rooms[a.table].id in c.timers && c.timers[rooms[a.table].id] == h
    && IsBetting(rooms[a.table].st.street) && Actor(rooms[a.table].st) == Some(a.player)
  }

  /** A table of the map where betting is on has its timer due. */
  predicate TableWatched(rooms: seq<Room>, ids: map<TableId, nat>, c: Clock, i: nat) {
    Mapped(rooms, ids, i) && IsBetting(rooms[i].st.street) ==>
      var id := rooms[i].id;
      id in c.timers && c.timers[id] in c.due && c.due[c.timers[id]].table == i
  }

  /** No two ids have the same timer, and the next number is new. */
  predicate Numbered(c: Clock) {
    && (forall id :: id in c.timers ==> c.timers[id] < c.next)
    && forall id, other :: id in c.timers && other in c.timers && id != other ==> c.timers[id] != c.timers[other]
  }

  ghost predicate Watched(rooms: seq<Room>, ids: map<TableId, nat>, c: Clock) {
    && (forall h :: h in c.due ==> AlarmRight(rooms, c, h))
    && (forall i: nat :: i < |rooms| ==> TableWatched(rooms, ids, c, i))
    && Numbered(c)
  }

  /** No act request under way holds a table off the map where betting is still on. */
  predicate NoStrays(w: World) {
    forall k :: 0 <= k < |w.acts| && w.acts[k] < |w.rooms| && IsBetting(w.rooms[w.acts[k]].st.street)
      ==> Mapped(w.rooms, w.ids, w.acts[k])
  }

  ghost predicate Inv(w: World) {
    Formed(w) && Watched(w.rooms, w.ids, w.clock) && NoStrays(w)
  }

  /** Exactly one timer is due for a table where betting is on, and it is for the player to act; none otherwise. */
  ghost predicate TimerRight(w: World, i: nat)
    requires i < |w.rooms|
  {
    var st := w.rooms[i].st;
    && (forall h, k :: h in w.clock.due && k in w.clock.due && w.clock.due[h].table == i == w.clock.due[k].table ==> h == k)
    && if IsBetting(st.street)
       then exists h :: h in w.clock.due && w.clock.due[h].table == i && Actor(st) == Some(w.clock.due[h].player)
       else forall h :: h in w.clock.due ==> w.clock.due[h].table != i
  }

  /** Every table that a new request can find has its timer right. */
  ghost predicate TimersRight(w: World) {
    forall i: nat :: Mapped(w.rooms, w.ids, i) ==> TimerRight(w, i)
  }

  lemma OneTimer(w: World, i: nat)
    requires Inv(w) && Mapped(w.rooms, w.ids, i)
    ensures TimerRight(w, i)
  {
    hide TableInv, Actor;
    assert TableWatched(w.rooms, w.ids, w.clock, i);
    assert forall h :: h in w.clock.due ==> AlarmRight(w.rooms, w.clock, h);
  }

  lemma AllTimersRight(w: World)
    requires Inv(w)
    ensures TimersRight(w)
  {
    hide Inv, TimerRight;
    forall i: nat | Mapped(w.rooms, w.ids, i)
      ensures TimerRight(w, i)
    {
      OneTimer(w, i);
    }
  }

  // ---------------------------------------------------------------- the steps

  function WithTable(w: World, i: nat, st: State): World
    requires i < |w.rooms|
  {
    w.(rooms := SetRoom(w.rooms, i, st))
  }

  /** `broadcast` cleans up a finished hand at the table the id names. */
  function Tidied(w: World, id: TableId): World {
    if id in w.ids && w.ids[id] < |w.rooms|
    then var room := w.rooms[w.ids[id]]; WithTable(w, w.ids[id], Idle(room.g, room.st))
    else w
  }

  /**
   * After an accepted action at a table: arm it, then broadcast its id. The timer callback does the two in the other
   * order.
   */
  function Acted(w: World, i: nat, next: State, armFirst: bool): World
    requires i < |w.rooms|
  {
    var id, moved := w.rooms[i].id, WithTable(w, i, next);
    if armFirst then Tidied(moved.(clock := Armed(w.clock, id, i, next)), id)
    else
      var tidy := Tidied(moved, id);
      tidy.(clock := Armed(w.clock, id, i, tidy.rooms[i].st))
  }

  function Fired(w: World, timer: nat): World
    requires timer in w.clock.due && w.clock.due[timer].table < |w.rooms|
    requires var room := w.rooms[w.clock.due[timer].table]; Shaped(room.g, room.st)
  {
    var a := w.clock.due[timer];
    var room := w.rooms[a.table];
    var rest := w.(clock := w.clock.(due := w.clock.due - {timer}));
    match Act(room.g, room.st, a.player, PlayerAction(Fold, 0))
    case Ok(next) => Acted(rest, a.table, next, false)
    case Err(_) => rest
  }

  function Started(w: World, i: nat, deck: seq<Card>): World
    requires i < |w.rooms| && Shaped(w.rooms[i].g, w.rooms[i].st) && |deck| == DECK_SIZE
  {
    var room := w.rooms[i];
    match StartHand(room.g, room.st, deck)
    case Ok(next) => Acted(w, i, next, true)
    case Err(_) => WithTable(w, i, Idle(room.g, room.st))
  }

  function Moved(w: World, i: nat, m: Move): World
    requires i < |w.rooms| && Shaped(w.rooms[i].g, w.rooms[i].st)
  {
    var room := w.rooms[i];
    match Act(room.g, room.st, m.playerId, m.action)
    case Ok(next) => Acted(w, i, next, true)
    case Err(_) => w
  }

  function Opened(w: World, id: TableId, g: Game): World {
    w.(rooms := AddRoom(w.rooms, id, g), ids := w.ids[id := |w.rooms|])
  }

  function WithoutAct(w: World, k: nat): World
    requires k < |w.acts|
  {
    w.(acts := w.acts[..k] + w.acts[k + 1..])
  }

  lemma FormedRoom(w: World, i: nat)
    requires Formed(w) && i < |w.rooms|
    ensures Shaped(w.rooms[i].g, w.rooms[i].st) && TableInv(w.rooms[i].g, w.rooms[i].st)
  {
    hide TableInv, Shaped, GoodIds;
    RoomShaped(w.rooms, i);
  }

  function Step(w: World, e: Event): World
    requires Formed(w) && GoodEvent(e)
  {
    match e
    case OpenTable(id, g) => Opened(w, id, g)
    case StartRoute(id, deck) => if id !in w.ids then w else FormedRoom(w, w.ids[id]); Started(w, w.ids[id], deck)
    case AskAct(id) => if id !in w.ids then w else w.(acts := w.acts + [w.ids[id]])
    case FinishAct(k, m) => if k >= |w.acts| then w else FormedRoom(w, w.acts[k]); Moved(WithoutAct(w, k), w.acts[k], m)
    case Between(i, c) =>
      if i >= |w.rooms| then w else FormedRoom(w, i); WithTable(w, i, Exec(w.rooms[i].g, w.rooms[i].st, c))
    case Fire(h) => if h !in w.clock.due then w else FormedRoom(w, w.clock.due[h].table); Fired(w, h)
  }

  // ---------------------------------------------------------------- every step keeps the tables well formed

  lemma SetFormed(w: World, i: nat, st: State, c: Clock)
    requires Formed(w) && i < |w.rooms| && TableInv(w.rooms[i].g, st)
    requires forall h :: h in c.due ==> c.due[h].table < |w.rooms|
    ensures Formed(WithTable(w, i, st).(clock := c))
  {
    hide TableInv, GoodIds, Mapped;
    SetKeepsIds(w.rooms, w.ids, i, st);
  }

  lemma TidiedFormed(w: World, id: TableId)
    requires Formed(w)
    ensures Formed(Tidied(w, id)) && Tidied(w, id).clock == w.clock
  {
    hide TableInv, Idle, GoodIds;
    if id in w.ids && w.ids[id] < |w.rooms| {
      var i := w.ids[id];
      FormedRoom(w, i);
      IdleKeeps(w.rooms[i].g, w.rooms[i].st);
      SetFormed(w, i, Idle(w.rooms[i].g, w.rooms[i].st), w.clock);
    }
  }

  lemma ActedFormed(w: World, i: nat, next: State, armFirst: bool)
    requires Formed(w) && i < |w.rooms| && TableInv(w.rooms[i].g, next)
    ensures Formed(Acted(w, i, next, armFirst))
  {
    hide TableInv, Tidied, Actor, GoodRooms, GoodIds;
    var id, moved := w.rooms[i].id, WithTable(w, i, next);
    SetFormed(w, i, next, w.clock);
    SetFormed(w, i, next, Armed(w.clock, id, i, next));
    TidiedFormed(moved.(clock := Armed(w.clock, id, i, next)), id);
    TidiedFormed(moved, id);
    TidiedSize(moved, id);
  }

  lemma TidiedSize(w: World, id: TableId)
    ensures var tidy := Tidied(w, id);
      |tidy.rooms| == |w.rooms| && tidy.ids == w.ids && tidy.acts == w.acts && tidy.clock == w.clock
    ensures forall i: nat :: i < |w.rooms| ==>
      var room, st := w.rooms[i], if id in w.ids && w.ids[id] == i then Idle(w.rooms[i].g, w.rooms[i].st) else w.rooms[i].st;
      Tidied(w, id).rooms[i] == room.(st := st)
  {
    hide Idle;
  }

  lemma HandIsTable(g: Game, st: State)
    requires HandOrPaid(g, st)
    ensures TableInv(g, st)
  {
  }

  lemma ActsTable(g: Game, st: State, m: Move)
    requires TableInv(g, st) && Shaped(g, st) && Act(g, st, m.playerId, m.action).Ok?
    ensures TableInv(g, Act(g, st, m.playerId, m.action).value)
  {
    hide TableInv, HandOrPaid, Act, Running;
    MoveKeeps(g, st, m);
    HandIsTable(g, Act(g, st, m.playerId, m.action).value);
  }

  lemma StartsTable(g: Game, st: State, deck: seq<Card>)
    requires TableInv(g, st) && Shaped(g, st) && |deck| == DECK_SIZE && StartHand(g, st, deck).Ok?
    ensures TableInv(g, StartHand(g, st, deck).value)
  {
    hide TableInv, HandOrPaid, StartHand, Running;
    StartKeeps(g, st, deck);
    HandIsTable(g, StartHand(g, st, deck).value);
  }

  /** Whatever happens, tables stay well formed and ids name tables. */
  lemma StepForms(w: World, e: Event)
    requires Formed(w) && GoodEvent(e)
    ensures Formed(Step(w, e))
  {
    hide Formed, Shaped, Exec, Act, StartHand, Acted, Opened, TableInv, Idle;
    match e
    case OpenTable(id, g) => OpenedForms(w, id, g);
    case StartRoute(id, deck) =>
      if id in w.ids {
        IdInside(w, id);
        StartedForms(w, w.ids[id], deck);
      }
    case AskAct(id) => if id in w.ids { AskedForms(w, id); }
    case FinishAct(k, m) =>
      if k < |w.acts| {
        ActInside(w, k);
        MovedForms(WithoutAct(w, k), w.acts[k], m);
      }
    case Between(i, c) => if i < |w.rooms| { BetweenForms(w, i, c); }
    case Fire(h) =>
      if h in w.clock.due {
        DueInside(w, h);
        FiredForms(w, h);
      }
  }

  lemma IdInside(w: World, id: TableId)
    requires Formed(w) && id in w.ids
    ensures w.ids[id] < |w.rooms| && Mapped(w.rooms, w.ids, w.ids[id]) && w.rooms[w.ids[id]].id == id
  {
    hide TableInv;
  }

  lemma ActInside(w: World, k: nat)
    requires Formed(w) && k < |w.acts|
    ensures w.acts[k] < |w.rooms| && Formed(WithoutAct(w, k))
  {
    hide TableInv, GoodIds;
  }

  lemma DueInside(w: World, h: nat)
    requires Formed(w) && h in w.clock.due
    ensures w.clock.due[h].table < |w.rooms| && Formed(w.(clock := w.clock.(due := w.clock.due - {h})))
  {
    hide TableInv, GoodIds;
  }

  lemma AskedForms(w: World, id: TableId)
    requires Formed(w) && id in w.ids
    ensures Formed(w.(acts := w.acts + [w.ids[id]]))
  {
    hide TableInv;
  }

  lemma OpenedForms(w: World, id: TableId, g: Game)
    requires Formed(w) && GoodConfig(g.cfg)
    ensures Formed(Opened(w, id, g))
  {
    hide TableInv, GoodIds, Mapped, NewTable;
    NewTableInv(g);
    AddKeepsIds(w.rooms, w.ids, id, g);
  }

  lemma StartedForms(w: World, i: nat, deck: seq<Card>)
    requires Formed(w) && i < |w.rooms| && |deck| == DECK_SIZE
    ensures Shaped(w.rooms[i].g, w.rooms[i].st) && Formed(Started(w, i, deck))
  {
    hide Formed, TableInv, Running, StartHand, Acted, Idle;
    var room := w.rooms[i];
    FormedRoom(w, i);
    match StartHand(room.g, room.st, deck)
    case Ok(next) =>
      StartsTable(room.g, room.st, deck);
      ActedFormed(w, i, next, true);
    case Err(_) =>
      IdleKeeps(room.g, room.st);
      SetSame(w, i, Idle(room.g, room.st));
  }

  lemma SetSame(w: World, i: nat, st: State)
    requires Formed(w) && i < |w.rooms| && TableInv(w.rooms[i].g, st)
    ensures Formed(WithTable(w, i, st))
  {
    hide TableInv, GoodIds;
    SetFormed(w, i, st, w.clock);
  }

  lemma MovedForms(w: World, i: nat, m: Move)
    requires Formed(w) && i < |w.rooms|
    ensures Shaped(w.rooms[i].g, w.rooms[i].st) && Formed(Moved(w, i, m))
  {
    hide Formed, TableInv, Running, Act, Acted;
    var room := w.rooms[i];
    FormedRoom(w, i);
    match Act(room.g, room.st, m.playerId, m.action)
    case Ok(next) =>
      ActsTable(room.g, room.st, m);
      ActedFormed(w, i, next, true);
    case Err(_) =>
  }

  lemma BetweenForms(w: World, i: nat, c: Command)
    requires Formed(w) && i < |w.rooms| && GoodCommand(c)
    ensures var room := w.rooms[i]; Shaped(room.g, room.st) && Formed(WithTable(w, i, Exec(room.g, room.st, c)))
  {
    hide Formed, TableInv, Shaped, Exec;
    FormedRoom(w, i);
    ExecKeeps(w.rooms[i].g, w.rooms[i].st, c);
    SetSame(w, i, Exec(w.rooms[i].g, w.rooms[i].st, c));
  }

  lemma FiredForms(w: World, h: nat)
    requires Formed(w) && h in w.clock.due && w.clock.due[h].table < |w.rooms|
    ensures var room := w.rooms[w.clock.due[h].table]; Shaped(room.g, room.st) && Formed(Fired(w, h))
  {
    hide Formed, TableInv, Running, Act, Acted;
    var a := w.clock.due[h];
    var room := w.rooms[a.table];
    var rest := w.(clock := w.clock.(due := w.clock.due - {h}));
    FormedRoom(w, a.table);
    DueInside(w, h);
    match Act(room.g, room.st, a.player, PlayerAction(Fold, 0))
    case Ok(next) =>
      ActsTable(room.g, room.st, Move(a.player, PlayerAction(Fold, 0)));
      ActedFormed(rest, a.table, next, false);
    case Err(_) =>
  }

  // ---------------------------------------------------------------- every step keeps the timers right

  /** While betting is on there is an actor. */
  lemma BettingHasActor(g: Game, st: State)
    requires TableInv(g, st)
    ensures IsBetting(st.street) <==> Actor(st).Some?
    ensures IsBetting(st.street) <==> HandInv(g, st)
  {
  }

  /** The clock, but that a timer of this id may have fired or been cleared. */
  predicate Trimmed(rooms: seq<Room>, before: Clock, c: Clock, id: TableId) {
    && c.timers == before.timers && c.next == before.next
    && (forall h :: h in c.due ==> h in before.due && c.due[h] == before.due[h])
    && forall h :: h in before.due && before.due[h].table < |rooms| && rooms[before.due[h].table].id != id ==> h in c.due
  }

  /** Setting a timer under the table's id takes none from another table of the map. */
  ghost predicate MayArm(w: World, i: nat) {
    && i < |w.rooms|
    && forall k: nat :: Mapped(w.rooms, w.ids, k) && w.rooms[k].id == w.rooms[i].id && k != i ==> !IsBetting(w.rooms[k].st.street)
  }

  lemma ArmedAlarm(w: World, c: Clock, i: nat, st: State, h: nat)
    requires i < |w.rooms| && (IsBetting(st.street) <==> Actor(st).Some?) && Watched(w.rooms, w.ids, w.clock)
    requires Trimmed(w.rooms, w.clock, c, w.rooms[i].id)
    requires h in Armed(c, w.rooms[i].id, i, st).due
    ensures AlarmRight(SetRoom(w.rooms, i, st), Armed(c, w.rooms[i].id, i, st), h)
  {
    hide Actor, TableWatched, Mapped;
    if h in c.due && h != c.next {
      assert AlarmRight(w.rooms, w.clock, h);
    }
  }

  lemma ArmedTable(w: World, c: Clock, i: nat, st: State, k: nat)
    requires i < |w.rooms| && (IsBetting(st.street) <==> Actor(st).Some?) && Watched(w.rooms, w.ids, w.clock)
    requires Trimmed(w.rooms, w.clock, c, w.rooms[i].id) && MayArm(w, i) && k < |w.rooms|
    ensures TableWatched(SetRoom(w.rooms, i, st), w.ids, Armed(c, w.rooms[i].id, i, st), k)
  {
    hide Actor, Mapped;
    var id := w.rooms[i].id;
    assert TableWatched(w.rooms, w.ids, w.clock, k);
    MappedSame(w.rooms, w.ids, i, st, k);
    if k != i && Mapped(w.rooms, w.ids, k) && IsBetting(w.rooms[k].st.street) {
      var h := w.clock.timers[w.rooms[k].id];
      assert w.rooms[k].id != id;
      assert AlarmRight(w.rooms, w.clock, h);
      assert id in w.clock.timers ==> w.clock.timers[id] != h;
    }
  }

  lemma MappedSame(rooms: seq<Room>, ids: map<TableId, nat>, i: nat, st: State, k: nat)
    requires i < |rooms|
    ensures Mapped(SetRoom(rooms, i, st), ids, k) == Mapped(rooms, ids, k)
  {
  }

  lemma ArmedNumbers(c: Clock, id: TableId, i: nat, st: State)
    requires Numbered(c)
    ensures Numbered(Armed(c, id, i, st))
  {
    hide Actor;
  }

  /** A change to one table that re-arms its timer keeps every timer right. */
  lemma ArmedWatched(w: World, c: Clock, i: nat, st: State)
    requires i < |w.rooms| && TableInv(w.rooms[i].g, st) && Watched(w.rooms, w.ids, w.clock)
    requires Trimmed(w.rooms, w.clock, c, w.rooms[i].id) && MayArm(w, i)
    ensures Watched(SetRoom(w.rooms, i, st), w.ids, Armed(c, w.rooms[i].id, i, st))
  {
    hide TableInv, Actor, Armed, AlarmRight, TableWatched, MayArm, Numbered;
    BettingHasActor(w.rooms[i].g, st);
    var rooms, next := SetRoom(w.rooms, i, st), Armed(c, w.rooms[i].id, i, st);
    forall h | h in next.due
      ensures AlarmRight(rooms, next, h)
    {
      ArmedAlarm(w, c, i, st, h);
    }
    forall k: nat | k < |rooms|
      ensures TableWatched(rooms, w.ids, next, k)
    {
      ArmedTable(w, c, i, st, k);
    }
    TrimmedNumbers(w.rooms, w.clock, c, w.rooms[i].id);
    ArmedNumbers(c, w.rooms[i].id, i, st);
  }

  lemma TrimmedNumbers(rooms: seq<Room>, before: Clock, c: Clock, id: TableId)
    requires Numbered(before) && Trimmed(rooms, before, c, id)
    ensures Numbered(c)
  {
  }

  /** A change to a table where betting is off, and stays off, needs no timer. */
  lemma QuietKeeps(w: World, i: nat, st: State)
    requires Inv(w) && i < |w.rooms| && TableInv(w.rooms[i].g, st)
    requires st == w.rooms[i].st || (!IsBetting(w.rooms[i].st.street) && !IsBetting(st.street))
    ensures Inv(WithTable(w, i, st))
  {
    hide TableInv, Actor, GoodRooms, GoodIds, Mapped, Numbered;
    var rooms := SetRoom(w.rooms, i, st);
    SetSame(w, i, st);
    forall h | h in w.clock.due
      ensures AlarmRight(rooms, w.clock, h)
    {
      assert AlarmRight(w.rooms, w.clock, h);
    }
    forall k: nat | k < |rooms|
      ensures TableWatched(rooms, w.ids, w.clock, k)
    {
      MappedSame(w.rooms, w.ids, i, st, k);
      assert TableWatched(w.rooms, w.ids, w.clock, k);
    }
    forall k | 0 <= k < |w.acts| && IsBetting(rooms[w.acts[k]].st.street)
      ensures Mapped(rooms, w.ids, w.acts[k])
    {
      MappedSame(w.rooms, w.ids, i, st, w.acts[k]);
    }
  }

  /** Between hands nothing starts betting; during one nothing else is accepted. */
  lemma BetweenQuiet(g: Game, st: State, c: Command)
    requires TableInv(g, st) && GoodCommand(c) && (c.SitDown? || c.TopUp? || c.Leave? || c.Finalize?)
    ensures Shaped(g, st) && TableInv(g, Exec(g, st, c))
    ensures Exec(g, st, c) == st || (!IsBetting(st.street) && !IsBetting(Exec(g, st, c).street))
  {
    hide Settled, CardsAt, MapSeats, FindSeat, FirstEmpty;
    ExecKeeps(g, st, c);
    IdleKeeps(g, st);
  }

  /** Tidying a table up after payout changes nothing the timers depend on. */
  lemma TidyArms(g: Game, st: State)
    requires TableInv(g, st)
    ensures TableInv(g, Idle(g, st)) && Actor(Idle(g, st)) == Actor(st)
    ensures Idle(g, st) == st || (!IsBetting(st.street) && !IsBetting(Idle(g, st).street))
  {
    hide Settled, CardsAt, MapSeats;
    IdleKeeps(g, st);
  }

  lemma TidiedKeeps(w: World, id: TableId)
    requires Inv(w)
    ensures Inv(Tidied(w, id))
  {
    hide Inv, Idle, TableInv;
    if id in w.ids && w.ids[id] < |w.rooms| {
      var i := w.ids[id];
      InvForms(w);
      FormedRoom(w, i);
      TidyArms(w.rooms[i].g, w.rooms[i].st);
      QuietKeeps(w, i, Idle(w.rooms[i].g, w.rooms[i].st));
    }
  }

  lemma InvForms(w: World)
    requires Inv(w)
    ensures Formed(w) && Watched(w.rooms, w.ids, w.clock) && NoStrays(w)
  {
  }

  lemma ArmedSame(c: Clock, id: TableId, i: nat, a: State, b: State)
    requires Actor(a) == Actor(b)
    ensures Armed(c, id, i, a) == Armed(c, id, i, b)
  {
  }

  /** Arming before or after the broadcast comes to the same. */
  lemma EitherOrder(w: World, i: nat, next: State)
    requires i < |w.rooms| && TableInv(w.rooms[i].g, next)
    ensures Acted(w, i, next, false) == Acted(w, i, next, true)
  {
    hide TableInv, Actor, Idle, Armed, Tidied;
    var id, g, moved := w.rooms[i].id, w.rooms[i].g, WithTable(w, i, next);
    var c := Armed(w.clock, id, i, next);
    TidyArms(g, next);
    TidiedSize(moved, id);
    TidiedSize(moved.(clock := c), id);
    var tidy := Tidied(moved, id);
    assert tidy.rooms[i].st == next || tidy.rooms[i].st == Idle(g, next);
    ArmedSame(w.clock, id, i, next, tidy.rooms[i].st);
    assert tidy.rooms == Tidied(moved.(clock := c), id).rooms;
  }

  lemma ArmedKeeps(w: World, c: Clock, i: nat, next: State)
    requires Inv(w) && i < |w.rooms| && TableInv(w.rooms[i].g, next) && MayArm(w, i)
    requires Trimmed(w.rooms, w.clock, c, w.rooms[i].id)
    requires Mapped(w.rooms, w.ids, i) || IsBetting(w.rooms[i].st.street)
    ensures Inv(WithTable(w, i, next).(clock := Armed(c, w.rooms[i].id, i, next)))
  {
    hide TableInv, Actor, Watched, GoodRooms, GoodIds, Mapped, Trimmed, MayArm;
    var rooms, armed := SetRoom(w.rooms, i, next), Armed(c, w.rooms[i].id, i, next);
    ArmedWatched(w, c, i, next);
    ArmedDue(w, c, i, next);
    SetFormed(w, i, next, armed);
    forall k | 0 <= k < |w.acts| && IsBetting(rooms[w.acts[k]].st.street)
      ensures Mapped(rooms, w.ids, w.acts[k])
    {
      MappedSame(w.rooms, w.ids, i, next, w.acts[k]);
    }
  }

  lemma ArmedDue(w: World, c: Clock, i: nat, next: State)
    requires Formed(w) && i < |w.rooms| && Trimmed(w.rooms, w.clock, c, w.rooms[i].id)
    ensures forall h :: h in Armed(c, w.rooms[i].id, i, next).due ==> Armed(c, w.rooms[i].id, i, next).due[h].table < |w.rooms|
  {
    hide TableInv, Actor, GoodIds;
  }

  lemma ActedKeeps(w: World, c: Clock, i: nat, next: State, armFirst: bool)
    requires Inv(w) && i < |w.rooms| && TableInv(w.rooms[i].g, next) && MayArm(w, i)
    requires Trimmed(w.rooms, w.clock, c, w.rooms[i].id)
    requires Mapped(w.rooms, w.ids, i) || IsBetting(w.rooms[i].st.street)
    ensures Inv(Acted(w.(clock := c), i, next, armFirst))
  {
    hide Inv, TableInv, Armed, Trimmed, MayArm, Mapped, Tidied;
    ArmedKeeps(w, c, i, next);
    EitherOrder(w.(clock := c), i, next);
    TidiedKeeps(WithTable(w, i, next).(clock := Armed(c, w.rooms[i].id, i, next)), w.rooms[i].id);
  }

  lemma TrimmedSame(rooms: seq<Room>, c: Clock, id: TableId)
    ensures Trimmed(rooms, c, c, id)
  {
  }

  lemma MappedMayArm(w: World, i: nat)
    requires Mapped(w.rooms, w.ids, i)
    ensures MayArm(w, i)
  {
  }

  lemma StartedKeeps(w: World, id: TableId, deck: seq<Card>)
    requires Inv(w) && id in w.ids && |deck| == DECK_SIZE && w.ids[id] < |w.rooms|
    ensures var room := w.rooms[w.ids[id]]; Shaped(room.g, room.st) && Inv(Started(w, w.ids[id], deck))
  {
    hide Inv, TableInv, Running, StartHand, Acted, Idle, Trimmed, MayArm;
    InvForms(w);
    IdInside(w, id);
    var i := w.ids[id];
    var room := w.rooms[i];
    FormedRoom(w, i);
    match StartHand(room.g, room.st, deck)
    case Ok(next) =>
      StartsTable(room.g, room.st, deck);
      TrimmedSame(w.rooms, w.clock, room.id);
      MappedMayArm(w, i);
      ActedKeeps(w, w.clock, i, next, true);
    case Err(_) =>
      TidyArms(room.g, room.st);
      QuietKeeps(w, i, Idle(room.g, room.st));
  }

  /** An action on a table of the map, or one that is refused. */
  lemma MovedKeeps(w: World, i: nat, m: Move)
    requires Inv(w) && i < |w.rooms| && (IsBetting(w.rooms[i].st.street) ==> Mapped(w.rooms, w.ids, i))
    ensures Shaped(w.rooms[i].g, w.rooms[i].st) && Inv(Moved(w, i, m))
  {
    hide Inv, TableInv, Running, Act, Acted, Trimmed, MayArm, Mapped;
    InvForms(w);
    FormedRoom(w, i);
    var room := w.rooms[i];
    match Act(room.g, room.st, m.playerId, m.action)
    case Ok(next) =>
      OnlyBettingActs(room.g, room.st, m);
      ActsTable(room.g, room.st, m);
      TrimmedSame(w.rooms, w.clock, room.id);
      MappedMayArm(w, i);
      ActedKeeps(w, w.clock, i, next, true);
    case Err(_) =>
  }

  lemma OnlyBettingActs(g: Game, st: State, m: Move)
    requires Shaped(g, st) && Act(g, st, m.playerId, m.action).Ok?
    ensures IsBetting(st.street)
  {
  }

  lemma WithoutActKeeps(w: World, k: nat)
    requires Inv(w) && k < |w.acts|
    ensures Inv(WithoutAct(w, k)) && w.acts[k] < |w.rooms|
    ensures IsBetting(w.rooms[w.acts[k]].st.street) ==> Mapped(w.rooms, w.ids, w.acts[k])
  {
    hide GoodRooms, GoodIds, Watched, Mapped;
  }

  /** The fold a timer attempts is always accepted. */
  lemma FoldAccepted(w: World, h: nat)
    requires Inv(w) && h in w.clock.due
    ensures w.clock.due[h].table < |w.rooms|
    ensures var a := w.clock.due[h]; var room := w.rooms[a.table];
      HandInv(room.g, room.st) && Act(room.g, room.st, a.player, PlayerAction(Fold, 0)).Ok?
  {
    hide TableInv, HandInv, Act, GoodIds;
    assert AlarmRight(w.rooms, w.clock, h);
    var a := w.clock.due[h];
    var room := w.rooms[a.table];
    FormedRoom(w, a.table);
    BettingHasActor(room.g, room.st);
    ActAcceptedIff(room.g, room.st, a.player, PlayerAction(Fold, 0));
  }

  lemma FiringMayArm(w: World, h: nat)
    requires Inv(w) && h in w.clock.due
    ensures var i := w.clock.due[h].table;
      && i < |w.rooms| && IsBetting(w.rooms[i].st.street) && MayArm(w, i)
      && Trimmed(w.rooms, w.clock, w.clock.(due := w.clock.due - {h}), w.rooms[i].id)
  {
    hide TableInv, Actor, GoodIds;
    assert AlarmRight(w.rooms, w.clock, h);
    var i := w.clock.due[h].table;
    forall k: nat | Mapped(w.rooms, w.ids, k) && w.rooms[k].id == w.rooms[i].id && k != i
      ensures !IsBetting(w.rooms[k].st.street)
    {
      assert TableWatched(w.rooms, w.ids, w.clock, k);
    }
    forall other | other in w.clock.due && w.clock.due[other].table < |w.rooms| && w.rooms[w.clock.due[other].table].id != w.rooms[i].id
      ensures other != h
    {
    }
  }

  lemma FiredKeeps(w: World, h: nat)
    requires Inv(w) && h in w.clock.due
    ensures w.clock.due[h].table < |w.rooms|
    ensures var room := w.rooms[w.clock.due[h].table]; Shaped(room.g, room.st) && Inv(Fired(w, h))
  {
    hide Inv, TableInv, Running, Act, Acted, HandInv, Trimmed, MayArm, Mapped;
    InvForms(w);
    FoldAccepted(w, h);
    FiringMayArm(w, h);
    var a := w.clock.due[h];
    var room := w.rooms[a.table];
    FormedRoom(w, a.table);
    ActsTable(room.g, room.st, Move(a.player, PlayerAction(Fold, 0)));
    ActedKeeps(w, w.clock.(due := w.clock.due - {h}), a.table, Act(room.g, room.st, a.player, PlayerAction(Fold, 0)).value, false);
  }

  /** The event takes a table off the map in the middle of a hand, while an act request under way has fetched it. */
  predicate Strands(w: World, e: Event) {
    && e.OpenTable? && e.id in w.ids && w.ids[e.id] < |w.rooms|
    && IsBetting(w.rooms[w.ids[e.id]].st.street) && w.ids[e.id] in w.acts
  }

  /**
   * Every other step keeps one right timer for each table of the map where betting is on, none for the others of the map,
   * and the act requests under way harmless.
   */
  lemma StepKeeps(w: World, e: Event)
    requires Inv(w) && GoodEvent(e) && !Strands(w, e)
    ensures Formed(w) && Inv(Step(w, e))
  {
    hide Inv, TableInv, Shaped, Started, Moved, Fired, Exec, Opened;
    InvForms(w);
    match e
    case OpenTable(id, g) => OpenedKeepsIff(w, id, g);
    case StartRoute(id, deck) =>
      if id in w.ids {
        IdInside(w, id);
        StartedKeeps(w, id, deck);
      }
    case AskAct(id) => if id in w.ids { AskedKeeps(w, id); }
    case FinishAct(k, m) =>
      if k < |w.acts| {
        WithoutActKeeps(w, k);
        MovedKeeps(WithoutAct(w, k), w.acts[k], m);
      }
    case Between(i, c) =>
      if i < |w.rooms| {
        FormedRoom(w, i);
        BetweenQuiet(w.rooms[i].g, w.rooms[i].st, c);
        QuietKeeps(w, i, Exec(w.rooms[i].g, w.rooms[i].st, c));
      }
    case Fire(h) => if h in w.clock.due { FiredKeeps(w, h); }
  }

  lemma AskedKeeps(w: World, id: TableId)
    requires Inv(w) && id in w.ids
    ensures Inv(w.(acts := w.acts + [w.ids[id]]))
  {
    hide GoodRooms, GoodIds, Watched, Mapped;
    AskedForms(w, id);
    IdInside(w, id);
  }

  lemma OpenedWatched(w: World, id: TableId, g: Game)
    requires Inv(w) && GoodConfig(g.cfg)
    ensures var next := Opened(w, id, g); Formed(next) && Watched(next.rooms, next.ids, next.clock)
  {
    hide TableInv, Actor, GoodIds, GoodRooms, Mapped, Numbered;
    OpenedForms(w, id, g);
    AddKeepsIds(w.rooms, w.ids, id, g);
    var next := Opened(w, id, g);
    forall h | h in w.clock.due
      ensures AlarmRight(next.rooms, w.clock, h)
    {
      assert AlarmRight(w.rooms, w.clock, h);
    }
    forall k: nat | k < |next.rooms|
      ensures TableWatched(next.rooms, next.ids, w.clock, k)
    {
      if k < |w.rooms| {
        assert TableWatched(w.rooms, w.ids, w.clock, k);
      }
    }
  }

  /** Creating a table keeps the timers and the requests right exactly when it strands no act request in a hand. */
  lemma OpenedKeepsIff(w: World, id: TableId, g: Game)
    requires Inv(w) && GoodConfig(g.cfg)
    ensures Inv(Opened(w, id, g)) <==> !Strands(w, OpenTable(id, g))
  {
    hide Watched, GoodIds, GoodRooms, Mapped;
    OpenedWatched(w, id, g);
    var next := Opened(w, id, g);
    forall k | 0 <= k < |w.acts|
      ensures w.acts[k] < |w.rooms| && next.rooms[w.acts[k]] == w.rooms[w.acts[k]]
      ensures Mapped(next.rooms, next.ids, w.acts[k])
          <==> Mapped(w.rooms, w.ids, w.acts[k]) && !(id in w.ids && w.ids[id] == w.acts[k])
    {
      StillMapped(w, id, g, w.acts[k]);
    }
    if Strands(w, OpenTable(id, g)) {
      var k :| 0 <= k < |w.acts| && w.acts[k] == w.ids[id];
      assert !Mapped(next.rooms, next.ids, w.acts[k]);
    }
  }

  lemma StillMapped(w: World, id: TableId, g: Game, i: nat)
    requires GoodIds(w.rooms, w.ids) && i < |w.rooms|
    ensures var next := Opened(w, id, g);
      Mapped(next.rooms, next.ids, i) <==> Mapped(w.rooms, w.ids, i) && !(id in w.ids && w.ids[id] == i)
  {
    AddKeepsIds(w.rooms, w.ids, id, g);
  }

  /** What the first half of the condition is about: a timer is left over for a table off the map exactly in mid-hand. */
  lemma TimerLeftIff(w: World, id: TableId, g: Game)
    requires Inv(w) && GoodConfig(g.cfg) && id in w.ids
    ensures var i, next := w.ids[id], Opened(w, id, g);
      && i < |w.rooms| && !Mapped(next.rooms, next.ids, i)
      && ((exists h :: h in next.clock.due && next.clock.due[h].table == i) <==> IsBetting(w.rooms[i].st.street))
  {
    hide TableInv, Actor, GoodIds, GoodRooms, Numbered;
    IdInside(w, id);
    var i := w.ids[id];
    StillMapped(w, id, g, i);
    assert TableWatched(w.rooms, w.ids, w.clock, i);
    assert forall h :: h in w.clock.due ==> AlarmRight(w.rooms, w.clock, h);
  }

  // ---------------------------------------------------------------- whole runs

  const EMPTY := World([], map[], Clock(map[], map[], 0), [])

  predicate GoodEvents(es: seq<Event>) {
    forall i :: 0 <= i < |es| ==> GoodEvent(es[i])
  }

  function Run(w: World, es: seq<Event>): World
    requires Formed(w) && GoodEvents(es)
    decreases |es|
  {
    if es == [] then w
    else
      StepForms(w, es[0]);
      Run(Step(w, es[0]), es[1..])
  }

  /** No event of the run strands an act request in a hand. */
  predicate Harmless(w: World, es: seq<Event>)
    requires Formed(w) && GoodEvents(es)
    decreases |es|
  {
    es == [] || (!Strands(w, es[0]) && (StepForms(w, es[0]); Harmless(Step(w, es[0]), es[1..])))
  }

  /** Whatever else happens, however often ids are used again, every table of the map keeps its timer right. */
  lemma {:induction false} RunKeeps(w: World, es: seq<Event>)
    requires Inv(w) && GoodEvents(es) && Harmless(w, es)
    ensures Inv(Run(w, es)) && TimersRight(Run(w, es))
    decreases |es|
  {
    hide Inv, Formed, Step, Strands, TimersRight;
    InvForms(w);
    if es == [] {
      AllTimersRight(w);
    } else {
      StepKeeps(w, es[0]);
      StepForms(w, es[0]);
      RunKeeps(Step(w, es[0]), es[1..]);
    }
  }

  lemma EmptyInv()
    ensures Inv(EMPTY)
  {
  }

  lemma RunStep(w: World, es: seq<Event>)
    requires Formed(w) && es != [] && GoodEvents(es)
    ensures Formed(Step(w, es[0])) && Run(w, es) == Run(Step(w, es[0]), es[1..])
    ensures Harmless(w, es) <==> !Strands(w, es[0]) && Harmless(Step(w, es[0]), es[1..])
  {
    hide Formed, Step, Strands;
    StepForms(w, es[0]);
  }

  // ---------------------------------------------------------------- a request stranded in a hand

  /** A table at which two players can sit down and play. */
  function SmallGame(): Game {
    Game(Config(2, 1, 2, 10, 10, 0.0, 0, false), (hole, board) => 0)
  }

  function AnyDeck(): seq<Card> {
    seq(DECK_SIZE, i => Card(0, 0))
  }

  function Taken(): State {
    NewTable(SmallGame()).(seats := [Some(NewSeat(0, 10)), Some(NewSeat(1, 10))])
  }

  lemma TwoSit()
    ensures var half := NewTable(SmallGame()).(seats := [Some(NewSeat(0, 10)), None]);
      && GoodConfig(SmallGame().cfg) && Shaped(SmallGame(), NewTable(SmallGame())) && Shaped(SmallGame(), half)
      && Exec(SmallGame(), NewTable(SmallGame()), SitDown(0, 10, None)) == half && Exec(SmallGame(), half, SitDown(1, 10, None)) == Taken()
      && IdleInv(SmallGame(), Taken())
  {
    var empty := NewTable(SmallGame());
    var half := empty.(seats := [Some(NewSeat(0, 10)), None]);
    assert empty.seats == [None, None];
    assert FindSeat(empty.seats, 0).None? && FirstEmpty(empty.seats) == Some(0);
    assert empty.seats[0 := Some(NewSeat(0, 10))] == half.seats;
    assert FindSeat(half.seats, 1).None? && FirstEmpty(half.seats) == Some(1);
    assert half.seats[1 := Some(NewSeat(1, 10))] == Taken().seats;
  }

  /** The hand that those two players start. */
  lemma TwoPlay()
    ensures Shaped(SmallGame(), Taken()) && StartHand(SmallGame(), Taken(), AnyDeck()).Ok?
    ensures HandInv(SmallGame(), StartHand(SmallGame(), Taken(), AnyDeck()).value)
  {
    TwoSit();
    StartsBetting(SmallGame(), Taken(), AnyDeck(), 0, 1);
  }

  function HalfTaken(): State {
    NewTable(SmallGame()).(seats := [Some(NewSeat(0, 10)), None])
  }

  /** A new table under an id, two players, and their first hand. */
  function NewHand(id: TableId, n: nat): seq<Event> {
    [OpenTable(id, SmallGame()), Between(n, SitDown(0, 10, None)), Between(n, SitDown(1, 10, None)), StartRoute(id, AnyDeck())]
  }

  /** Only the id's own timer can be due for the table. */
  predicate OneAlarm(w: World, id: TableId, n: nat) {
    forall h :: h in w.clock.due && w.clock.due[h].table == n ==> id in w.clock.timers && w.clock.timers[id] == h
  }

  /** The hand has started at the newest table, and everything else is as it was. */
  ghost predicate HandAt(w: World, end: World, id: TableId, n: nat) {
    && Formed(end) && |end.rooms| == n + 1 && end.rooms[..n] == w.rooms && end.ids == w.ids[id := n] && end.acts == w.acts
    && end.rooms[n].id == id && HandInv(end.rooms[n].g, end.rooms[n].st) && OneAlarm(end, id, n)
  }

  lemma BetweenStep(w: World, n: nat, room: Room, c: Command, st: State)
    requires Formed(w) && n < |w.rooms| && w.rooms[n] == room && GoodEvent(Between(n, c))
    requires Shaped(room.g, room.st) && GoodCommand(c) && Exec(room.g, room.st, c) == st
    ensures Step(w, Between(n, c)) == WithTable(w, n, st) && Formed(WithTable(w, n, st))
  {
    hide Formed, Exec, TableInv;
    StepForms(w, Between(n, c));
  }

  lemma StartStep(w: World, id: TableId, n: nat)
    requires Formed(w) && n < |w.rooms| && id in w.ids && w.ids[id] == n && w.rooms[n] == Room(id, SmallGame(), Taken())
    requires forall h :: h in w.clock.due ==> w.clock.due[h].table != n
    ensures var end := Step(w, StartRoute(id, AnyDeck()));
      && Formed(end) && |end.rooms| == |w.rooms| && end.ids == w.ids && end.acts == w.acts
      && (forall k: nat :: k < |w.rooms| && k != n ==> end.rooms[k] == w.rooms[k])
      && end.rooms[n].id == id && HandInv(end.rooms[n].g, end.rooms[n].st) && OneAlarm(end, id, n)
  {
    hide Formed, StartHand, Idle, TableInv, HandInv, SmallGame, Taken, AnyDeck, Actor, Shaped;
    TwoPlay();
    StepForms(w, StartRoute(id, AnyDeck()));
    FormedRoom(w, n);
    var st := StartHand(SmallGame(), Taken(), AnyDeck()).value;
    HandStays(SmallGame(), st);
    var armed := WithTable(w, n, st).(clock := Armed(w.clock, id, n, st));
    TidiedSize(armed, id);
    ArmedOne(w.clock, id, n, st);
  }

  lemma HandStays(g: Game, st: State)
    requires HandInv(g, st)
    ensures Idle(g, st) == st && IsBetting(st.street) && Actor(st).Some?
  {
  }

  lemma ArmedOne(c: Clock, id: TableId, n: nat, st: State)
    requires forall h :: h in c.due ==> c.due[h].table != n
    ensures var next := Armed(c, id, n, st); forall h :: h in next.due && next.due[h].table == n ==> id in next.timers && next.timers[id] == h
  {
    hide Actor;
  }

  /** The newest table has its two players. */
  ghost predicate SeatedAt(w: World, end: World, id: TableId, n: nat) {
    && Formed(end) && |end.rooms| == n + 1 && end.rooms[..n] == w.rooms && end.rooms[n] == Room(id, SmallGame(), Taken())
    && end.ids == w.ids[id := n] && end.acts == w.acts && end.clock == w.clock
  }

  lemma NewPlayersSit(w: World, id: TableId) returns (end: World)
    requires Formed(w)
    ensures var n := |w.rooms|; var es := NewHand(id, n);
      && SeatedAt(w, end, id, n) && GoodEvents(es)
      && Run(w, es) == Run(end, es[3..]) && (Harmless(w, es) <==> !Strands(w, es[0]) && Harmless(end, es[3..]))
  {
    hide Formed, Exec, TableInv, SmallGame, Taken, HalfTaken, AnyDeck, NewTable, HandInv, Shaped, GoodConfig, Started;
    TwoSit();
    var n := |w.rooms|;
    var es := NewHand(id, n);
    NewTables(w, id);
    RunStep(w, es);
    var w1 := Opened(w, id, SmallGame());
    assert w1.rooms[n] == Room(id, SmallGame(), NewTable(SmallGame()));
    BetweenStep(w1, n, w1.rooms[n], SitDown(0, 10, None), HalfTaken());
    RunStep(w1, es[1..]);
    var w2 := WithTable(w1, n, HalfTaken());
    BetweenStep(w2, n, w2.rooms[n], SitDown(1, 10, None), Taken());
    RunStep(w2, es[2..]);
    end := WithTable(w2, n, Taken());
    assert es[1..][1..] == es[2..] && es[2..][1..] == es[3..];
    assert end.rooms[..n] == w.rooms;
  }

  lemma NewHandStarts(w: World, id: TableId)
    requires Formed(w)
    ensures var n := |w.rooms|; var es := NewHand(id, n);
      && GoodEvents(es) && HandAt(w, Run(w, es), id, n)
      && (Harmless(w, es) <==> !Strands(w, es[0]))
  {
    hide Formed, SmallGame, Taken, AnyDeck, OneAlarm, HandInv, Started, StartHand;
    var n := |w.rooms|;
    var es := NewHand(id, n);
    NewTables(w, id);
    var seated := NewPlayersSit(w, id);
    StartStep(seated, id, n);
    RunStep(seated, es[3..]);
    var end := Step(seated, es[3]);
    RunNone(end);
    assert es[3..][1..] == [];
    assert end.rooms[..n] == seated.rooms[..n];
  }

  lemma RunNone(w: World)
    requires Formed(w)
    ensures GoodEvents([]) && Run(w, []) == w && Harmless(w, [])
  {
  }

  lemma NewTables(w: World, id: TableId)
    requires Formed(w)
    ensures GoodEvents(NewHand(id, |w.rooms|)) && HalfTaken() == NewTable(SmallGame()).(seats := [Some(NewSeat(0, 10)), None])
    ensures forall h :: h in w.clock.due ==> w.clock.due[h].table != |w.rooms|
  {
  }

  /** The actor of a table folds. */
  function ActorFolds(st: State): Move {
    Move(Actor(st).GetOr(0), PlayerAction(Fold, 0))
  }

  lemma ActorCanFold(g: Game, st: State)
    requires HandInv(g, st)
    ensures Shaped(g, st) && Act(g, st, ActorFolds(st).playerId, ActorFolds(st).action).Ok?
  {
    hide HandInv, Act;
    HandIsTable(g, st);
    InvShaped(g, st);
    BettingHasActor(g, st);
    ActAcceptedIff(g, st, ActorFolds(st).playerId, ActorFolds(st).action);
    ActorIs(g, st);
  }

  lemma ActorIs(g: Game, st: State)
    requires HandInv(g, st)
    ensures Actor(st) == Some(st.seats[st.toAct.value].value.playerId)
  {
  }

  lemma ClearedOff(c: Clock, id: TableId, o: nat, st: State, n: nat)
    requires o != n && forall h :: h in c.due && c.due[h].table == n ==> id in c.timers && c.timers[id] == h
    ensures forall h :: h in Armed(c, id, o, st).due ==> Armed(c, id, o, st).due[h].table != n
  {
    hide Actor;
  }

  /**
   * An act request finishes on a table off the map, in a hand, while a hand runs at the table its id now names: it clears
   * that table's timer, and no timer will end that hand.
   */
  lemma StrayActStops(w: World, k: nat, n: nat)
    requires Formed(w) && k < |w.acts| && w.acts[k] < |w.rooms| && w.acts[k] != n && Mapped(w.rooms, w.ids, n)
    requires var o := w.rooms[w.acts[k]];
      o.id == w.rooms[n].id && HandInv(o.g, o.st) && HandInv(w.rooms[n].g, w.rooms[n].st) && OneAlarm(w, o.id, n)
    ensures var next := Step(w, FinishAct(k, ActorFolds(w.rooms[w.acts[k]].st)));
      && |next.rooms| == |w.rooms| && next.rooms[n] == w.rooms[n] && Mapped(next.rooms, next.ids, n)
      && (forall h :: h in next.clock.due ==> next.clock.due[h].table != n)
      && !TimersRight(next)
  {
    hide Formed, Act, HandInv, Idle, TableInv, Actor, Running, ActorFolds;
    var i := w.acts[k];
    var o := w.rooms[i];
    var m := ActorFolds(o.st);
    FormedRoom(w, i);
    ActorCanFold(o.g, o.st);
    var st := Act(o.g, o.st, m.playerId, m.action).value;
    var rest := WithoutAct(w, k);
    var armed := WithTable(rest, i, st).(clock := Armed(w.clock, o.id, i, st));
    TidiedSize(armed, o.id);
    HandStays(w.rooms[n].g, w.rooms[n].st);
    ClearedOff(w.clock, o.id, i, st, n);
    var next := Step(w, FinishAct(k, m));
    assert next == Tidied(armed, o.id);
    assert !TimerRight(next, n);
  }

  /** What follows a request stranded in a hand: a new table, its first hand, and the request. */
  function Stall(w: World, id: TableId, k: nat): seq<Event>
    requires k < |w.acts| && w.acts[k] < |w.rooms|
  {
    NewHand(id, |w.rooms|) + [FinishAct(k, ActorFolds(w.rooms[w.acts[k]].st))]
  }

  lemma {:induction false} RunAppend(w: World, es: seq<Event>, e: Event)
    requires Formed(w) && GoodEvents(es) && GoodEvent(e)
    ensures GoodEvents(es + [e]) && Formed(Run(w, es)) && Run(w, es + [e]) == Step(Run(w, es), e)
    ensures !e.OpenTable? ==> (Harmless(w, es + [e]) <==> Harmless(w, es))
    decreases |es|
  {
    hide Formed, Step;
    if es == [] {
      assert [] + [e] == [e];
      RunStep(w, [e]);
      RunNone(Step(w, e));
    } else {
      StepForms(w, es[0]);
      RunStep(w, es);
      RunStep(w, es + [e]);
      assert (es + [e])[1..] == es[1..] + [e];
      RunAppend(Step(w, es[0]), es[1..], e);
    }
  }

  lemma Stalls(w: World, id: TableId, k: nat)
    requires Formed(w) && k < |w.acts| && w.acts[k] < |w.rooms|
    requires var o := w.rooms[w.acts[k]]; o.id == id && HandInv(o.g, o.st)
    requires !Strands(w, OpenTable(id, SmallGame()))
    ensures GoodEvents(Stall(w, id, k)) && Harmless(w, Stall(w, id, k)) && !TimersRight(Run(w, Stall(w, id, k)))
  {
    hide Formed, Step, HandInv, SmallGame, AnyDeck, Strands, TimersRight, ActorFolds, OneAlarm;
    var n := |w.rooms|;
    NewHandStarts(w, id);
    var end := Run(w, NewHand(id, n));
    var last := FinishAct(k, ActorFolds(w.rooms[w.acts[k]].st));
    RunAppend(w, NewHand(id, n), last);
    assert end.rooms[w.acts[k]] == end.rooms[..n][w.acts[k]];
    StrayActStops(end, k, n);
  }

  /**
   * Creating a table under an id in use is harmless to the timers, whatever follows that is not itself such a creation
   * in mid-hand, exactly when the old table is not in a hand that an act request under way has fetched. Otherwise a run
   * exists in which a hand at a table of the map loses its timer.
   */
  lemma ReopeningHarmlessIff(w: World, id: TableId, g: Game)
    requires Inv(w) && GoodConfig(g.cfg) && id in w.ids
    ensures var next := Step(w, OpenTable(id, g));
      && Formed(next)
      && ((forall es: seq<Event> :: GoodEvents(es) && Harmless(next, es) ==> TimersRight(Run(next, es)))
          <==> !Strands(w, OpenTable(id, g)))
  {
    hide Inv, Formed, Step, Opened, TimersRight;
    InvForms(w);
    var next := Step(w, OpenTable(id, g));
    StepForms(w, OpenTable(id, g));
    OpenedKeepsIff(w, id, g);
    StepOpens(w, id, g);
    if Strands(w, OpenTable(id, g)) {
      var k :| 0 <= k < |w.acts| && w.acts[k] == w.ids[id];
      OldHand(w, id, g);
      Stalls(next, id, k);
    } else {
      forall es: seq<Event> | GoodEvents(es) && Harmless(next, es)
        ensures TimersRight(Run(next, es))
      {
        RunKeeps(next, es);
      }
    }
  }

  lemma StepOpens(w: World, id: TableId, g: Game)
    requires Formed(w) && GoodConfig(g.cfg)
    ensures Step(w, OpenTable(id, g)) == Opened(w, id, g)
  {
  }

  lemma OldHand(w: World, id: TableId, g: Game)
    requires Inv(w) && Strands(w, OpenTable(id, g))
    ensures var next := Opened(w, id, g); var i := w.ids[id];
      && i < |next.rooms| && next.acts == w.acts && next.rooms[i].id == id && HandInv(next.rooms[i].g, next.rooms[i].st)
      && !Strands(next, OpenTable(id, SmallGame()))
  {
    hide HandInv, TableInv, Actor, Watched;
    IdInside(w, id);
    var i := w.ids[id];
    FormedRoom(w, i);
    BettingHasActor(w.rooms[i].g, w.rooms[i].st);
  }

  /** It can come to that: a first hand, an act request that has fetched its table, and the table created again. */
  lemma HandCanLoseItsTimer()
    ensures var es := NewHand(0, 0) + [AskAct(0)];
      && Formed(EMPTY) && GoodEvents(es) && Harmless(EMPTY, es)
      && Inv(Run(EMPTY, es)) && Strands(Run(EMPTY, es), OpenTable(0, SmallGame()))
  {
    hide Inv, Formed, Step, SmallGame, AnyDeck, HandInv, TimersRight;
    EmptyInv();
    InvForms(EMPTY);
    NewHandStarts(EMPTY, 0);
    var es := NewHand(0, 0);
    RunAppend(EMPTY, es, AskAct(0));
    RunKeeps(EMPTY, es + [AskAct(0)]);
    var end := Run(EMPTY, es);
    Asked(end, 0);
    HandStays(end.rooms[0].g, end.rooms[0].st);
  }

  lemma Asked(w: World, id: TableId)
    requires Formed(w) && id in w.ids
    ensures Step(w, AskAct(id)) == w.(acts := w.acts + [w.ids[id]])
  {
  }

  // ---------------------------------------------------------------- timers alone end the hand

  /** An auto-fold ends the hand or leaves one player fewer in it. */
  lemma FoldShrinks(g: Game, st: State, id: PlayerId)
    requires HandInv(g, st) && Act(g, st, id, PlayerAction(Fold, 0)).Ok?
    ensures |LiveSet(st.seats)| >= 2
    ensures var next := Act(g, st, id, PlayerAction(Fold, 0)).value;
      HandOrPaid(g, next) && (IsBetting(next.street) ==> |LiveSet(next.seats)| == |LiveSet(st.seats)| - 1)
  {
    hide Settled, NextStreet, AwardUncontested;
    var fold := PlayerAction(Fold, 0);
    ActKeeps(g, st, id, fold);
    ActIsPlay(g, st, id, fold);
    var t := st.toAct.value;
    var o := Apply(g.cfg, st.seats[t].value, st.currentBet, st.lastRaise, fold);
    FoldedLive(g, st);
    AdvanceLive(g, Mid(st, o), t);
  }

  lemma FoldedLive(g: Game, st: State)
    requires HandInv(g, st)
    ensures var t := st.toAct.value; var o := Apply(g.cfg, st.seats[t].value, st.currentBet, st.lastRaise, PlayerAction(Fold, 0));
      o.Played? && Running(g, Mid(st, o)) && |LiveSet(Mid(st, o).seats)| == |LiveSet(st.seats)| - 1
  {
    var t := st.toAct.value;
    var o := Apply(g.cfg, st.seats[t].value, st.currentBet, st.lastRaise, PlayerAction(Fold, 0));
    MidSettled(g, st, PlayerAction(Fold, 0));
    LiveAfter(st.seats, t, st.currentBet, Mid(st, o).seats, o.bet);
  }

  /** Moving on while betting continues folds nobody. */
  lemma AdvanceLive(g: Game, st: State, from: nat)
    requires Running(g, st) && from < |st.seats|
    ensures IsBetting(Advance(g, st, from).street) ==> |LiveSet(Advance(g, st, from).seats)| == |LiveSet(st.seats)|
  {
    hide DoShowdown, Closed;
    FreshSets(st.seats);
    if st.street.River? || IsRunOut(st.seats) {
      ShowdownPays(g, RunOut(st));
    }
  }

  lemma ShowdownPays(g: Game, st: State)
    requires GoodConfig(g.cfg)
    ensures DoShowdown(g, st).street.Payout?
  {
  }

  /** The timer of a table, if one is due. */
  function TimerOf(w: World, i: nat): Option<nat>
    requires i < |w.rooms|
  {
    var id := w.rooms[i].id;
    if id in w.clock.timers && w.clock.timers[id] in w.clock.due && w.clock.due[w.clock.timers[id]].table == i
    then Some(w.clock.timers[id]) else None
  }

  /** Let a table's timer fire up to n times. */
  function FireTimes(w: World, i: nat, n: nat): World
    requires Formed(w) && i < |w.rooms|
    decreases n
  {
    if n == 0 || TimerOf(w, i).None? then w
    else
      var e := Fire(TimerOf(w, i).value);
      StepForms(w, e);
      SameTables(w, TimerOf(w, i).value);
      FireTimes(Step(w, e), i, n - 1)
  }

  lemma SameTables(w: World, h: nat)
    requires Formed(w) && h in w.clock.due
    ensures var next := Step(w, Fire(h));
      && |next.rooms| == |w.rooms| && next.ids == w.ids && (forall k: nat :: k < |w.rooms| ==> next.rooms[k].id == w.rooms[k].id)
  {
    hide TableInv, Act, Idle, Armed, Running, GoodRooms, GoodIds, Actor, Tidied;
    FormedRoom(w, w.clock.due[h].table);
    var a := w.clock.due[h];
    var room := w.rooms[a.table];
    var rest := w.(clock := w.clock.(due := w.clock.due - {h}));
    match Act(room.g, room.st, a.player, PlayerAction(Fold, 0))
    case Ok(next) => TidiedSize(WithTable(rest, a.table, next), room.id);
    case Err(_) =>
  }

  lemma FireAt(w: World, h: nat)
    requires Formed(w) && h in w.clock.due && Mapped(w.rooms, w.ids, w.clock.due[h].table)
    requires var room := w.rooms[w.clock.due[h].table];
      Shaped(room.g, room.st) && Act(room.g, room.st, w.clock.due[h].player, PlayerAction(Fold, 0)).Ok?
    ensures |Step(w, Fire(h)).rooms| == |w.rooms|
    ensures var a := w.clock.due[h]; var room := w.rooms[a.table];
      Step(w, Fire(h)).rooms[a.table].st == Idle(room.g, Act(room.g, room.st, a.player, PlayerAction(Fold, 0)).value)
  {
    hide TableInv, Act, HandInv, Idle, Armed, Running, Actor, Tidied;
    var a := w.clock.due[h];
    var room := w.rooms[a.table];
    FormedRoom(w, a.table);
    var rest := w.(clock := w.clock.(due := w.clock.due - {h}));
    TidiedSize(WithTable(rest, a.table, Act(room.g, room.st, a.player, PlayerAction(Fold, 0)).value), room.id);
  }

  /** The table's timer is due, and its firing ends the hand or leaves one player fewer. */
  ghost predicate FiresOnce(w: World, i: nat) {
    && Formed(w) && i < |w.rooms| && TimerOf(w, i).Some? && |LiveSet(w.rooms[i].st.seats)| >= 2
    && var next := Step(w, Fire(TimerOf(w, i).value));
    && |next.rooms| == |w.rooms|
    && (IsBetting(next.rooms[i].st.street) ==> |LiveSet(next.rooms[i].st.seats)| == |LiveSet(w.rooms[i].st.seats)| - 1)
  }

  lemma OneFire(w: World, i: nat)
    requires Inv(w) && Mapped(w.rooms, w.ids, i) && IsBetting(w.rooms[i].st.street)
    ensures FiresOnce(w, i)
  {
    TimerDue(w, i);
    hide Inv, TableInv, Act, HandInv, Idle, Armed, Mapped, Step;
    InvForms(w);
    var h := TimerOf(w, i).value;
    var room := w.rooms[i];
    FoldAccepted(w, h);
    FireAt(w, h);
    FoldShrinks(room.g, room.st, w.clock.due[h].player);
    TidyStreet(room.g, Act(room.g, room.st, w.clock.due[h].player, PlayerAction(Fold, 0)).value);
  }

  lemma TimerDue(w: World, i: nat)
    requires Inv(w) && Mapped(w.rooms, w.ids, i) && IsBetting(w.rooms[i].st.street)
    ensures TimerOf(w, i).Some? && TimerOf(w, i).value in w.clock.due && w.clock.due[TimerOf(w, i).value].table == i
  {
    hide GoodRooms, GoodIds, Actor;
    assert TableWatched(w.rooms, w.ids, w.clock, i);
  }

  lemma TidyStreet(g: Game, st: State)
    requires HandOrPaid(g, st)
    ensures !IsBetting(st.street) ==> !IsBetting(Idle(g, st).street)
    ensures IsBetting(st.street) ==> Idle(g, st) == st
  {
  }

  /**
   * With nobody answering, the timers fold a hand at a table of the map to its end, in at most one firing fewer than there
   * are players in it.
   */
  lemma {:induction false} TimersEndHand(w: World, i: nat, n: nat)
    requires Inv(w) && Mapped(w.rooms, w.ids, i) && |LiveSet(w.rooms[i].st.seats)| <= n + 1
    ensures Formed(w) && i < |FireTimes(w, i, n).rooms| && !IsBetting(FireTimes(w, i, n).rooms[i].st.street)
    decreases n
  {
    hide Inv, Formed, Step, TimerOf;
    InvForms(w);
    if IsBetting(w.rooms[i].st.street) {
      OneFire(w, i);
      var h := TimerOf(w, i).value;
      TimerInside(w, i);
      StepKeeps(w, Fire(h));
      SameTables(w, h);
      var next := Step(w, Fire(h));
      if IsBetting(next.rooms[i].st.street) {
        TimersEndHand(next, i, n - 1);
      } else {
        QuietFires(next, i, n - 1);
      }
    } else {
      QuietFires(w, i, n);
    }
  }

  lemma TimerInside(w: World, i: nat)
    requires i < |w.rooms| && TimerOf(w, i).Some?
    ensures TimerOf(w, i).value in w.clock.due
  {
  }

  lemma QuietFires(w: World, i: nat, n: nat)
    requires Inv(w) && i < |w.rooms| && !IsBetting(w.rooms[i].st.street)
    ensures FireTimes(w, i, n) == w
  {
    hide GoodRooms, GoodIds, Actor;
    assert forall h :: h in w.clock.due ==> AlarmRight(w.rooms, w.clock, h);
  }
}
