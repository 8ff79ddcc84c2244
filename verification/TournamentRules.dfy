/** A tournament as functions on its state: registration, seating, busting and completion. */
module TournamentRules {
  import opened Common
  import opened TournamentTables
  import opened Payouts

  datatype Status = Scheduled | Registering | Running | Completed

  /** A player's id as the program spells it: a string of UTF-16 code units. */
  type CodeUnit = u: int | 0 <= u < 0x1_0000

  type Text = seq<CodeUnit>

  datatype Config = Config(
    buyIn: nat, startingStack: nat, seatsPerTable: nat, maxPlayers: nat, minPlayers: nat, spelled: PlayerId -> Text)

  datatype Player = Player(stack: nat, tableId: Option<TableId>, seat: Option<nat>, out: bool, finishPlace: Option<nat>,
                           prize: int, points: nat)

  datatype State = State(status: Status, players: map<PlayerId, Player>, tables: seq<TTable>, finishOrder: seq<PlayerId>,
                         payouts: seq<Prize>)

  datatype Error = CannotOpen | RegistrationClosed | AlreadyRegistered | TournamentFull | NotRegistering | TooFew
                 | NotRunning | NotActive

  datatype Result = Ok(state: State) | Err(error: Error)

  /** The error of a result, if it is one. */
  function ErrorOf(r: Result): Option<Error> {
    match r
    case Ok(_) => None
    case Err(e) => Some(e)
  }

  predicate GoodConfig(cfg: Config) {
    cfg.minPlayers >= 2 && cfg.seatsPerTable > 0
  }

  function Entrant(cfg: Config): Player {
    Player(cfg.startingStack, None, None, false, None, 0, 0)
  }

  function Alive(players: map<PlayerId, Player>): set<PlayerId> {
    set p | p in players && !players[p].out
  }

  // ---------------------------------------------------------------- the operations

  function OpenRegistration(s: State): Result {
    if !s.status.Scheduled? then Err(CannotOpen) else Ok(s.(status := Registering))
  }

  function Register(cfg: Config, s: State, p: PlayerId): Result {
    if !s.status.Registering? then Err(RegistrationClosed)
    else if p in s.players then Err(AlreadyRegistered)
    else if |s.players| >= cfg.maxPlayers then Err(TournamentFull)
    else Ok(s.(players := s.players[p := Entrant(cfg)]))
  }

  /** The order in which the program sorts strings: code unit by code unit, a prefix first. */
  predicate TextLeq(a: Text, b: Text) {
    if a == [] then true
    else if b == [] then false
    else if a[0] != b[0] then a[0] < b[0]
    else TextLeq(a[1..], b[1..])
  }

  predicate IdLeq(cfg: Config, a: PlayerId, b: PlayerId) {
    TextLeq(cfg.spelled(a), cfg.spelled(b))
  }

  function Inserted(cfg: Config, ids: seq<PlayerId>, p: PlayerId): (r: seq<PlayerId>)
    ensures |r| == |ids| + 1
  {
    if ids == [] || IdLeq(cfg, p, ids[0]) then [p] + ids else [ids[0]] + Inserted(cfg, ids[1..], p)
  }

  predicate Ascending(cfg: Config, ids: seq<PlayerId>) {
    forall i, j :: 0 <= i < j < |ids| ==> IdLeq(cfg, ids[i], ids[j])
  }

  /** The members, each once, in the order of their spelling. */
  ghost predicate SortedList(cfg: Config, ids: seq<PlayerId>, members: set<PlayerId>) {
    multiset(ids) == multiset(members) && Ascending(cfg, ids)
  }

  /** Give the first n players of a table their seats. */
  function SeatTable(players: map<PlayerId, Player>, t: TTable, n: nat): (m: map<PlayerId, Player>)
    requires n <= |t.players|
    ensures m.Keys == players.Keys
  {
    if n == 0 then players
    else
      var m := SeatTable(players, t, n - 1);
      var p := t.players[n - 1];
      if p in m && !m[p].out then m[p := m[p].(tableId := Some(t.id), seat := Some(n - 1))] else m
  }

  /** `assignSeats`, for the first n tables. */
  function SeatAll(players: map<PlayerId, Player>, tables: seq<TTable>, n: nat): (m: map<PlayerId, Player>)
    requires n <= |tables|
    ensures m.Keys == players.Keys
  {
    if n == 0 then players else SeatTable(SeatAll(players, tables, n - 1), tables[n - 1], |tables[n - 1].players|)
  }

  /** Tables made from the ids in order, and everyone seated. */
  function Start(cfg: Config, s: State, ids: seq<PlayerId>): Result
    requires GoodConfig(cfg)
  {
    if !s.status.Registering? then Err(NotRegistering)
    else if |s.players| < cfg.minPlayers then Err(TooFew)
    else
      var tables := Built(ids, cfg.seatsPerTable);
      Ok(s.(status := Running, tables := tables, players := SeatAll(s.players, tables, |tables|)))
  }

  function Others(ids: seq<PlayerId>, p: PlayerId): seq<PlayerId> {
    if ids == [] then [] else (if ids[0] != p then [ids[0]] else []) + Others(ids[1..], p)
  }

  function Removed(ts: seq<TTable>, p: PlayerId): (r: seq<TTable>)
    ensures |r| == |ts|
  {
    if ts == [] then [] else [ts[0].(players := Others(ts[0].players, p))] + Removed(ts[1..], p)
  }

  /** The state once a player is out and the tables are rebalanced, before completion is considered. */
  function Busted(cfg: Config, s: State, p: PlayerId): State
    requires p in s.players
  {
    var place := Excess(|s.players|, |s.finishOrder|);
    var players := s.players[p := s.players[p].(out := true, stack := 0, finishPlace := Some(place))];
    var tables := Rebalanced(Removed(s.tables, p), cfg.seatsPerTable);
    s.(players := SeatAll(players, tables, |tables|), tables := tables, finishOrder := [p] + s.finishOrder)
  }

  /** Write the first n prizes into the players' records. */
  function PaidOut(players: map<PlayerId, Player>, rows: seq<Prize>, n: nat): (m: map<PlayerId, Player>)
    requires n <= |rows|
    ensures m.Keys == players.Keys
  {
    if n == 0 then players
    else
      var m := PaidOut(players, rows, n - 1);
      var row := rows[n - 1];
      match row.player
      case Some(p) => if p in m then m[p := m[p].(prize := row.chips, points := row.points)] else m
      case None => m
  }

  /** `complete`, for the winner who is still in. */
  function Finished(cfg: Config, s: State, winner: PlayerId): State
    requires winner in s.players
  {
    var order := [winner] + s.finishOrder;
    var rows := Payout(|s.players| * cfg.buyIn, order);
    var crowned := s.players[winner := s.players[winner].(finishPlace := Some(1))];
    s.(status := Completed, finishOrder := order, payouts := rows, players := PaidOut(crowned, rows, |rows|))
  }

  lemma TheOne(s: set<PlayerId>)
    requires |s| == 1
    ensures exists w :: s == {w}
  {
    var w :| w in s;
    assert |s - {w}| == 0;
    assert s == {w};
  }

  ghost function Survivor(s: set<PlayerId>): (w: PlayerId)
    requires |s| == 1
    ensures s == {w}
  {
    TheOne(s);
    var w :| s == {w};
    w
  }

  ghost function Bust(cfg: Config, s: State, p: PlayerId): Result {
    if !s.status.Running? then Err(NotRunning)
    else if p !in s.players || s.players[p].out then Err(NotActive)
    else
      var next := Busted(cfg, s, p);
      if |Alive(next.players)| == 1 && Survivor(Alive(next.players)) in next.players
      then Ok(Finished(cfg, next, Survivor(Alive(next.players)))) else Ok(next)
  }

  // ---------------------------------------------------------------- invariants

  predicate PlacedAt(players: map<PlayerId, Player>, t: TTable, j: nat)
    requires j < |t.players|
  {
    var p := t.players[j];
    p in players && players[p].tableId == Some(t.id) && players[p].seat == Some(j)
  }

  /** Each player listed at a table has that table and list position on record. */
  predicate Placed(players: map<PlayerId, Player>, tables: seq<TTable>, n: nat)
    requires n <= |tables|
  {
    forall i: nat, j: nat :: i < n && j < |tables[i].players| ==> PlacedAt(players, tables[i], j)
  }

  /** Finishing places so far: out means listed, and the list ends with the last place. */
  ghost predicate Ranked(players: map<PlayerId, Player>, order: seq<PlayerId>) {
    && |order| <= |players| && |order| + |Alive(players)| == |players|
    && (forall k: nat :: k < |order| ==>
         order[k] in players && players[order[k]].out && players[order[k]].finishPlace == Some(|players| - |order| + k + 1))
    && (forall p :: p in players && players[p].out ==> p in order)
    && (forall p :: p in players ==> players[p].prize == 0 && players[p].points == 0)
  }

  ghost predicate Seating(cfg: Config, players: map<PlayerId, Player>, tables: seq<TTable>) {
    && Everyone(tables) == multiset(Alive(players))
    && WithinCap(tables, cfg.seatsPerTable) && DistinctIds(tables) && (forall t :: t in tables ==> Taken(t))
    && Placed(players, tables, |tables|)
  }

  /** The field of a tournament that has started: as many as the settings allow, with the starting stack until out. */
  predicate Field(cfg: Config, players: map<PlayerId, Player>) {
    && cfg.minPlayers <= |players| <= cfg.maxPlayers
    && forall p :: p in players ==> players[p].stack == if players[p].out then 0 else cfg.startingStack
  }

  ghost predicate RunInv(cfg: Config, s: State) {
    && s.status.Running? && |Alive(s.players)| >= 2 && Field(cfg, s.players)
    && Seating(cfg, s.players, s.tables) && Ranked(s.players, s.finishOrder)
  }

  ghost predicate EntryInv(cfg: Config, s: State) {
    && (s.status.Scheduled? || s.status.Registering?) && s.finishOrder == [] && s.tables == []
    && |s.players| <= cfg.maxPlayers && forall p :: p in s.players ==> s.players[p] == Entrant(cfg)
  }

  /** The k-th of the ranking holds place k + 1 and has its prize and points on record, if that place is paid. */
  predicate RowDone(s: State, k: nat)
    requires k < |s.finishOrder|
  {
    var p := s.finishOrder[k];
    && p in s.players && s.players[p].finishPlace == Some(k + 1)
    && s.players[p].prize == (if k < |s.payouts| then s.payouts[k].chips else 0)
    && s.players[p].points == if k < |s.payouts| then s.payouts[k].points else 0
  }

  /** Complete: everyone is ranked once, first to last, and the pool is paid out along the ranking. */
  ghost predicate DoneInv(cfg: Config, s: State) {
    && s.status.Completed? && |s.finishOrder| == |s.players| && s.finishOrder != [] && Field(cfg, s.players)
    && multiset(s.finishOrder) == multiset(s.players.Keys)
    && s.payouts == Payout(|s.players| * cfg.buyIn, s.finishOrder)
    && forall k: nat :: k < |s.finishOrder| ==> RowDone(s, k)
  }

  // ---------------------------------------------------------------- seating

  /** The same players, but for where they sit. */
  predicate SameButSeats(a: map<PlayerId, Player>, b: map<PlayerId, Player>) {
    a.Keys == b.Keys && forall p :: p in a ==> b[p].(tableId := a[p].tableId, seat := a[p].seat) == a[p]
  }

  lemma {:induction false} SeatTableSame(players: map<PlayerId, Player>, t: TTable, n: nat, p: PlayerId)
    requires n <= |t.players| && p in players
    ensures var m := SeatTable(players, t, n);
      && m[p].(tableId := players[p].tableId, seat := players[p].seat) == players[p]
      && (p !in t.players[..n] ==> m[p] == players[p])
  {
    if n > 0 {
      SeatTableSame(players, t, n - 1, p);
      assert t.players[..n] == t.players[..n - 1] + [t.players[n - 1]];
    }
  }

  lemma {:induction false} SeatTablePlaces(players: map<PlayerId, Player>, t: TTable, n: nat, j: nat)
    requires j < n <= |t.players| && t.players[j] in Alive(players)
    requires forall i, k :: 0 <= i < k < |t.players| ==> t.players[i] != t.players[k]
    ensures var q := SeatTable(players, t, n)[t.players[j]]; q.tableId == Some(t.id) && q.seat == Some(j)
  {
    SeatTableSame(players, t, n - 1, t.players[j]);
    if j < n - 1 {
      SeatTablePlaces(players, t, n - 1, j);
    }
  }

  lemma {:induction false} CountAtLeast(ts: seq<TTable>, i: nat, x: PlayerId)
    requires i < |ts|
    ensures Count(ts, PlayersOf, x) >= multiset(ts[i].players)[x]
  {
    if i > 0 {
      CountAtLeast(ts[1..], i - 1, x);
    }
  }

  lemma {:induction false} CountTwo(ts: seq<TTable>, i: nat, j: nat, x: PlayerId)
    requires i < j < |ts|
    ensures Count(ts, PlayersOf, x) >= multiset(ts[i].players)[x] + multiset(ts[j].players)[x]
  {
    if i > 0 {
      CountTwo(ts[1..], i - 1, j - 1, x);
    } else {
      CountAtLeast(ts[1..], j - 1, x);
    }
  }

  lemma TwiceInList(ids: seq<PlayerId>, i: nat, j: nat)
    requires i < j < |ids| && ids[i] == ids[j]
    ensures multiset(ids)[ids[i]] >= 2
  {
    assert ids == ids[..i] + [ids[i]] + ids[i + 1..j] + [ids[j]] + ids[j + 1..];
  }

  /** When nobody is counted twice, nobody is listed twice. */
  lemma ListedOnce(ts: seq<TTable>, members: set<PlayerId>, i: nat)
    requires Everyone(ts) == multiset(members) && i < |ts|
    ensures forall j, k :: 0 <= j < k < |ts[i].players| ==> ts[i].players[j] != ts[i].players[k]
    ensures forall j: nat, x :: j < i && x in ts[i].players ==> x !in ts[j].players
    ensures forall x :: x in ts[i].players ==> x in members
  {
    forall j, k | 0 <= j < k < |ts[i].players|
      ensures ts[i].players[j] != ts[i].players[k]
    {
      var x := ts[i].players[j];
      BagCount(ts, PlayersOf, x);
      CountAtLeast(ts, i, x);
      if x == ts[i].players[k] {
        TwiceInList(ts[i].players, j, k);
      }
    }
    forall j: nat, x | j < i && x in ts[i].players
      ensures x !in ts[j].players
    {
      BagCount(ts, PlayersOf, x);
      CountTwo(ts, j, i, x);
    }
    forall x | x in ts[i].players
      ensures x in members
    {
      BagCount(ts, PlayersOf, x);
      CountAtLeast(ts, i, x);
    }
  }

  /** Seating one more table keeps the earlier ones placed and places its own players. */
  lemma SeatOneMore(before: map<PlayerId, Player>, ts: seq<TTable>, n: nat)
    requires n < |ts| && Everyone(ts) == multiset(Alive(before)) && Placed(before, ts, n)
    ensures var m := SeatTable(before, ts[n], |ts[n].players|); SameButSeats(before, m) && Placed(m, ts, n + 1)
  {
    hide SeatTable, Everyone;
    var t := ts[n];
    var m := SeatTable(before, t, |t.players|);
    ListedOnce(ts, Alive(before), n);
    assert t.players[..|t.players|] == t.players;
    forall p | p in before
      ensures m[p].(tableId := before[p].tableId, seat := before[p].seat) == before[p] && (p !in t.players ==> m[p] == before[p])
    {
      SeatTableSame(before, t, |t.players|, p);
    }
    forall i: nat, j: nat | i < n + 1 && j < |ts[i].players|
      ensures PlacedAt(m, ts[i], j)
    {
      var p := ts[i].players[j];
      assert p in ts[i].players;
      if i == n {
        assert p in Alive(before);
        SeatTablePlaces(before, t, |t.players|, j);
      } else {
        assert PlacedAt(before, ts[i], j);
        assert p !in t.players;
      }
      assert p in m.Keys;
    }
  }

  /** After seating, every listed player's record says where they are. */
  lemma {:induction false} SeatAllIs(players: map<PlayerId, Player>, ts: seq<TTable>, n: nat)
    requires n <= |ts| && Everyone(ts) == multiset(Alive(players))
    ensures SameButSeats(players, SeatAll(players, ts, n)) && Placed(SeatAll(players, ts, n), ts, n)
  {
    if n > 0 {
      hide Everyone, Alive, SameButSeats, Placed;
      SeatAllIs(players, ts, n - 1);
      var before := SeatAll(players, ts, n - 1);
      SameAlive(players, before);
      SeatOneMore(before, ts, n - 1);
    }
  }

  lemma SameAlive(a: map<PlayerId, Player>, b: map<PlayerId, Player>)
    requires SameButSeats(a, b)
    ensures Alive(a) == Alive(b) && |a| == |b|
  {
  }

  lemma SameRanked(a: map<PlayerId, Player>, b: map<PlayerId, Player>, order: seq<PlayerId>)
    requires SameButSeats(a, b) && Ranked(a, order)
    ensures Ranked(b, order)
  {
    SameAlive(a, b);
    assert forall p :: p in a ==>
      b[p].out == a[p].out && b[p].finishPlace == a[p].finishPlace && b[p].prize == a[p].prize && b[p].points == a[p].points;
  }

  lemma FieldSeated(cfg: Config, a: map<PlayerId, Player>, b: map<PlayerId, Player>)
    requires SameButSeats(a, b) && Field(cfg, a)
    ensures Field(cfg, b)
  {
    SameAlive(a, b);
    assert forall p :: p in a ==> b[p].out == a[p].out && b[p].stack == a[p].stack;
  }

  // ---------------------------------------------------------------- starting

  lemma StartKeeps(cfg: Config, s: State, ids: seq<PlayerId>)
    requires GoodConfig(cfg) && EntryInv(cfg, s) && SortedList(cfg, ids, s.players.Keys) && Start(cfg, s, ids).Ok?
    ensures RunInv(cfg, Start(cfg, s, ids).state)
  {
    var tables := Built(ids, cfg.seatsPerTable);
    assert Alive(s.players) == s.players.Keys;
    BuiltSeatsAll(ids, cfg.seatsPerTable);
    BuiltIds(ids, cfg.seatsPerTable);
    SeatAllIs(s.players, tables, |tables|);
    SameAlive(s.players, SeatAll(s.players, tables, |tables|));
    SameRanked(s.players, SeatAll(s.players, tables, |tables|), []);
    FieldSeated(cfg, s.players, SeatAll(s.players, tables, |tables|));
    BuiltTaken(ids, cfg.seatsPerTable);
  }

  lemma BuiltTaken(ids: seq<PlayerId>, seats: nat)
    requires seats > 0
    ensures WithinCap(Built(ids, seats), seats) && forall t :: t in Built(ids, seats) ==> Taken(t)
  {
    forall t | t in Built(ids, seats)
      ensures 0 < |t.players| <= seats
    {
      var i: nat :| i < |Built(ids, seats)| && Built(ids, seats)[i] == t;
      BuiltEven(ids, seats, i, i);
    }
  }

  // ---------------------------------------------------------------- busting

  lemma {:induction false} OthersCount(ids: seq<PlayerId>, p: PlayerId, x: PlayerId)
    ensures multiset(Others(ids, p))[x] == if x == p then 0 else multiset(ids)[x]
    ensures |Others(ids, p)| <= |ids|
  {
    if ids != [] {
      OthersCount(ids[1..], p, x);
      assert ids == [ids[0]] + ids[1..];
    }
  }

  lemma {:induction false} NobodyTaken(ids: seq<PlayerId>, p: PlayerId)
    requires p !in ids
    ensures Others(ids, p) == ids
  {
    if ids != [] {
      NobodyTaken(ids[1..], p);
    }
  }

  /** Taking a player off a list leaves the others in their order. */
  lemma {:induction false} TakenOff(a: seq<PlayerId>, b: seq<PlayerId>, p: PlayerId)
    requires p !in a && p !in b
    ensures Others(a + [p] + b, p) == a + b
  {
    if a == [] {
      assert a + [p] + b == [p] + b && ([p] + b)[1..] == b && a + b == b;
      NobodyTaken(b, p);
    } else {
      assert (a + [p] + b)[1..] == a[1..] + [p] + b;
      TakenOff(a[1..], b, p);
    }
  }

  lemma {:induction false} RemovedCount(ts: seq<TTable>, p: PlayerId, x: PlayerId, id: TableId)
    ensures Count(Removed(ts, p), PlayersOf, x) == if x == p then 0 else Count(ts, PlayersOf, x)
    ensures Count(Removed(ts, p), IdOf, id) == Count(ts, IdOf, id)
  {
    if ts != [] {
      OthersCount(ts[0].players, p, x);
      RemovedCount(ts[1..], p, x, id);
    }
  }

  lemma {:induction false} RemovedFits(ts: seq<TTable>, p: PlayerId, cap: nat)
    requires WithinCap(ts, cap)
    ensures WithinCap(Removed(ts, p), cap)
  {
    if ts != [] {
      OthersCount(ts[0].players, p, p);
      RemovedFits(ts[1..], p, cap);
    }
  }

  lemma RemovedSeats(ts: seq<TTable>, members: set<PlayerId>, p: PlayerId)
    requires Everyone(ts) == multiset(members)
    ensures Everyone(Removed(ts, p)) == multiset(members - {p})
  {
    forall x: PlayerId
      ensures Everyone(Removed(ts, p))[x] == multiset(members - {p})[x]
    {
      BagCount(Removed(ts, p), PlayersOf, x);
      BagCount(ts, PlayersOf, x);
      RemovedCount(ts, p, x, Final);
    }
  }

  /** Rebalancing after a bust leaves the survivors, and only them, seated in range at tables of their own. */
  lemma TablesAfter(cfg: Config, ts: seq<TTable>, members: set<PlayerId>, p: PlayerId)
    requires Everyone(ts) == multiset(members) && WithinCap(ts, cfg.seatsPerTable)
    requires DistinctIds(ts) && members - {p} != {}
    ensures var next := Rebalanced(Removed(ts, p), cfg.seatsPerTable);
      && Everyone(next) == multiset(members - {p}) && WithinCap(next, cfg.seatsPerTable) && DistinctIds(next)
      && forall t :: t in next ==> Taken(t)
  {
    hide Rebalanced;
    var rest := Removed(ts, p);
    RemovedSeats(ts, members, p);
    RemovedFits(ts, p, cfg.seatsPerTable);
    TotalIs(rest);
    RebalancedKeeps(rest, cfg.seatsPerTable);
    RebalancedFits(rest, cfg.seatsPerTable);
    forall id
      ensures Count(Rebalanced(rest, cfg.seatsPerTable), IdOf, id) <= 1
    {
      RebalancedIds(rest, cfg.seatsPerTable, id);
      RemovedCount(ts, p, 0, id);
    }
  }

  /** Going out takes the last place still open. */
  lemma OutRanked(players: map<PlayerId, Player>, order: seq<PlayerId>, p: PlayerId, q: Player)
    requires Ranked(players, order) && p in Alive(players)
    requires q.out && q.prize == 0 && q.points == 0 && q.finishPlace == Some(|players| - |order|)
    ensures Ranked(players[p := q], [p] + order)
    ensures Alive(players[p := q]) == Alive(players) - {p} && |Alive(players[p := q])| == |Alive(players)| - 1
  {
    var next := players[p := q];
    assert next.Keys == players.Keys && |next| == |next.Keys| && |players| == |players.Keys|;
    assert Alive(next) == Alive(players) - {p};
    assert p !in order;
  }

  lemma BustedKeeps(cfg: Config, s: State, p: PlayerId)
    requires RunInv(cfg, s) && p in Alive(s.players)
    ensures var next := Busted(cfg, s, p);
      && Seating(cfg, next.players, next.tables) && Ranked(next.players, next.finishOrder) && Field(cfg, next.players)
      && Alive(next.players) == Alive(s.players) - {p} && |Alive(next.players)| == |Alive(s.players)| - 1
      && |next.players| == |s.players| && next.players.Keys == s.players.Keys
  {
    hide Rebalanced, SeatAll, Ranked, SameButSeats, Removed;
    var place := Excess(|s.players|, |s.finishOrder|);
    var q := s.players[p].(out := true, stack := 0, finishPlace := Some(place));
    var players := s.players[p := q];
    RankedRoom(s.players, s.finishOrder, p);
    OutRanked(s.players, s.finishOrder, p, q);
    assert Alive(s.players) - {p} != {};
    TablesAfter(cfg, s.tables, Alive(s.players), p);
    var tables := Rebalanced(Removed(s.tables, p), cfg.seatsPerTable);
    SeatAllIs(players, tables, |tables|);
    SameAlive(players, SeatAll(players, tables, |tables|));
    SameRanked(players, SeatAll(players, tables, |tables|), [p] + s.finishOrder);
    assert players.Keys == s.players.Keys && |players| == |players.Keys| && |s.players| == |s.players.Keys|;
    FieldSeated(cfg, players, SeatAll(players, tables, |tables|));
  }

  lemma RankedRoom(players: map<PlayerId, Player>, order: seq<PlayerId>, p: PlayerId)
    requires Ranked(players, order) && p in Alive(players)
    ensures |order| < |players| && players[p].prize == 0 && players[p].points == 0
  {
  }

  // ---------------------------------------------------------------- completion

  lemma {:induction false} PaidOutIs(players: map<PlayerId, Player>, rows: seq<Prize>, n: nat, p: PlayerId)
    requires n <= |rows| && p in players
    ensures var m := PaidOut(players, rows, n);
      && m[p].finishPlace == players[p].finishPlace && m[p].out == players[p].out
      && m[p].stack == players[p].stack
      && ((forall k :: 0 <= k < n ==> rows[k].player != Some(p)) ==>
            m[p].prize == players[p].prize && m[p].points == players[p].points)
  {
    if n > 0 {
      PaidOutIs(players, rows, n - 1, p);
    }
  }

  lemma {:induction false} PaidOutRow(players: map<PlayerId, Player>, rows: seq<Prize>, n: nat, k: nat)
    requires k < n <= |rows| && rows[k].player.Some? && rows[k].player.value in players
    requires forall i, j :: 0 <= i < j < |rows| ==> rows[i].player != rows[j].player
    ensures var q := PaidOut(players, rows, n)[rows[k].player.value];
      q.prize == rows[k].chips && q.points == rows[k].points
  {
    if k < n - 1 {
      PaidOutRow(players, rows, n - 1, k);
    }
  }

  /** A list without repeats that covers a set of its own members is that set. */
  lemma CoversOnce(ids: seq<PlayerId>, members: set<PlayerId>)
    requires forall i, j :: 0 <= i < j < |ids| ==> ids[i] != ids[j]
    requires forall p :: p in members <==> p in ids
    ensures multiset(ids) == multiset(members)
  {
    forall x: PlayerId
      ensures multiset(ids)[x] == multiset(members)[x]
    {
      if x in ids {
        var i :| 0 <= i < |ids| && ids[i] == x;
        OnlyOnce(ids, i);
      }
    }
  }

  lemma OnlyOnce(ids: seq<PlayerId>, i: nat)
    requires i < |ids| && forall i, j :: 0 <= i < j < |ids| ==> ids[i] != ids[j]
    ensures multiset(ids)[ids[i]] == 1
  {
    assert ids == ids[..i] + [ids[i]] + ids[i + 1..];
  }

  /** The winner's place completes the ranking: every place from 1 to the field is held once. */
  lemma RankingComplete(players: map<PlayerId, Player>, order: seq<PlayerId>, w: PlayerId, k: nat)
    requires Ranked(players, order) && Alive(players) == {w} && k <= |order|
    ensures |order| + 1 == |players|
    ensures var p := ([w] + order)[k]; p in players && (k > 0 ==> p != w && players[p].finishPlace == Some(k + 1))
  {
  }

  lemma RankingDistinct(players: map<PlayerId, Player>, order: seq<PlayerId>, w: PlayerId)
    requires Ranked(players, order) && Alive(players) == {w}
    ensures forall i, j :: 0 <= i < j < |order| + 1 ==> ([w] + order)[i] != ([w] + order)[j]
    ensures forall p :: p in players <==> p in [w] + order
  {
    forall i, j | 0 <= i < j < |order| + 1
      ensures ([w] + order)[i] != ([w] + order)[j]
    {
      RankingComplete(players, order, w, i);
      RankingComplete(players, order, w, j);
    }
    assert w in Alive(players);
    assert forall p :: p in players && p != w ==> players[p].out by {
      assert forall p :: p in players && !players[p].out ==> p in Alive(players);
    }
  }

  /** One player's record on completion: the place, and the prize of that place if it is paid. */
  lemma FinishedRow(cfg: Config, s: State, w: PlayerId, k: nat)
    requires Ranked(s.players, s.finishOrder) && Alive(s.players) == {w} && w in s.players && k <= |s.finishOrder|
    ensures RowDone(Finished(cfg, s, w), k)
  {
    hide Ranked, Payout, PaidOut, Alive;
    var order := [w] + s.finishOrder;
    var crowned := s.players[w := s.players[w].(finishPlace := Some(1))];
    var rows := Payout(|s.players| * cfg.buyIn, order);
    RankingComplete(s.players, s.finishOrder, w, k);
    RankingDistinct(s.players, s.finishOrder, w);
    PayoutRows(|s.players| * cfg.buyIn, order);
    PaidOutIs(crowned, rows, |rows|, order[k]);
    Unpaid(s.players, s.finishOrder, order[k]);
    if k < |rows| {
      PaidOutRow(crowned, rows, |rows|, k);
    } else {
      assert forall j :: 0 <= j < |rows| ==> rows[j].player == Some(order[j]) && order[j] != order[k];
    }
  }

  lemma FinishedKeeps(cfg: Config, s: State, w: PlayerId)
    requires Ranked(s.players, s.finishOrder) && Alive(s.players) == {w} && Field(cfg, s.players)
    ensures w in s.players && DoneInv(cfg, Finished(cfg, s, w))
  {
    FieldPaid(cfg, s, w);
    hide Ranked, Payout, PaidOut, Alive, RowDone, Field;
    RankingComplete(s.players, s.finishOrder, w, 0);
    RankingDistinct(s.players, s.finishOrder, w);
    CoversOnce([w] + s.finishOrder, s.players.Keys);
    forall k: nat | k <= |s.finishOrder|
      ensures RowDone(Finished(cfg, s, w), k)
    {
      FinishedRow(cfg, s, w, k);
    }
  }

  lemma FieldPaid(cfg: Config, s: State, w: PlayerId)
    requires w in s.players && Field(cfg, s.players)
    ensures Field(cfg, Finished(cfg, s, w).players)
  {
    hide PaidOut, Payout;
    var crowned := s.players[w := s.players[w].(finishPlace := Some(1))];
    var rows := Payout(|s.players| * cfg.buyIn, [w] + s.finishOrder);
    assert |crowned| == |crowned.Keys| == |s.players.Keys| == |s.players|;
    var m := PaidOut(crowned, rows, |rows|);
    assert |m| == |m.Keys| == |crowned|;
    forall p | p in m
      ensures m[p].stack == s.players[p].stack && m[p].out == s.players[p].out
    {
      PaidOutIs(crowned, rows, |rows|, p);
    }
  }

  lemma Unpaid(players: map<PlayerId, Player>, order: seq<PlayerId>, p: PlayerId)
    requires Ranked(players, order) && p in players
    ensures players[p].prize == 0 && players[p].points == 0
  {
  }

  lemma PayoutRows(pool: nat, order: seq<PlayerId>)
    requires order != []
    ensures |Payout(pool, order)| <= |order| && forall k :: 0 <= k < |Payout(pool, order)| ==> Payout(pool, order)[k].player == Some(order[k])
  {
  }

  // ---------------------------------------------------------------- whole runs

  ghost predicate Inv(cfg: Config, s: State) {
    EntryInv(cfg, s) || RunInv(cfg, s) || DoneInv(cfg, s)
  }

  /** A bust leaves one player fewer, and the bust that leaves one player completes the tournament. */
  lemma BustKeeps(cfg: Config, s: State, p: PlayerId)
    requires RunInv(cfg, s) && Bust(cfg, s, p).Ok?
    ensures var next := Bust(cfg, s, p).state;
      && next.players.Keys == s.players.Keys
      && (if |Alive(s.players)| == 2 then DoneInv(cfg, next)
          else RunInv(cfg, next) && Alive(next.players) == Alive(s.players) - {p} && |Alive(next.players)| == |Alive(s.players)| - 1)
  {
    hide Seating, Ranked, Busted;
    BustedKeeps(cfg, s, p);
    var mid := Busted(cfg, s, p);
    StillRunning(cfg, s, p);
    if |Alive(mid.players)| == 1 {
      var w := Survivor(Alive(mid.players));
      assert w in Alive(mid.players);
      FinishedKeeps(cfg, mid, w);
    }
  }

  /**
   * The tables after a bust that leaves two players or more are the rebalanced tables of those left; once all of them
   * fit at one table, they sit at one table.
   */
  lemma BustMerges(cfg: Config, s: State, p: PlayerId)
    requires GoodConfig(cfg) && RunInv(cfg, s) && Bust(cfg, s, p).Ok? && |Alive(s.players)| > 2
    ensures var next := Bust(cfg, s, p).state;
      && next.tables == Rebalanced(Removed(s.tables, p), cfg.seatsPerTable)
      && (|Alive(next.players)| <= cfg.seatsPerTable ==> |next.tables| == 1)
  {
    hide Rebalanced, Removed, SeatAll, Ranked, SameButSeats, Everyone, Placed;
    BustedKeeps(cfg, s, p);
    var rest := Removed(s.tables, p);
    RemovedSeats(s.tables, Alive(s.players), p);
    TotalIs(rest);
    if Total(rest) <= cfg.seatsPerTable {
      RebalancedMerges(rest, cfg.seatsPerTable);
    }
  }

  lemma StillRunning(cfg: Config, s: State, p: PlayerId)
    requires p in s.players
    ensures Busted(cfg, s, p).status == s.status
  {
  }

  /** Who is turned away, and why. */
  lemma Refusals(cfg: Config, s: State, p: PlayerId, ids: seq<PlayerId>)
    requires GoodConfig(cfg)
    ensures ErrorOf(OpenRegistration(s)) == if s.status == Scheduled then None else Some(CannotOpen)
    ensures ErrorOf(Register(cfg, s, p)) ==
      if s.status != Registering then Some(RegistrationClosed)
      else if p in s.players then Some(AlreadyRegistered)
      else if |s.players| < cfg.maxPlayers then None else Some(TournamentFull)
    ensures ErrorOf(Start(cfg, s, ids)) ==
      if s.status != Registering then Some(NotRegistering) else if |s.players| >= cfg.minPlayers then None else Some(TooFew)
    ensures ErrorOf(Bust(cfg, s, p)) ==
      if s.status != Running then Some(NotRunning) else if p in Alive(s.players) then None else Some(NotActive)
  {
    hide Busted, Finished, Built, SeatAll;
  }

  datatype Event = Open | Enter(p: PlayerId) | Begin(ids: seq<PlayerId>) | Lose(p: PlayerId)

  /** A refused call changes nothing. */
  ghost function Step(cfg: Config, s: State, e: Event): State
    requires GoodConfig(cfg)
  {
    var r := match e
      case Open => OpenRegistration(s)
      case Enter(p) => Register(cfg, s, p)
      case Begin(ids) => Start(cfg, s, ids)
      case Lose(p) => Bust(cfg, s, p);
    if r.Ok? then r.state else s
  }

  ghost predicate GoodEvent(cfg: Config, s: State, e: Event) {
    e.Begin? ==> SortedList(cfg, e.ids, s.players.Keys)
  }

  lemma StepKeeps(cfg: Config, s: State, e: Event)
    requires GoodConfig(cfg) && Inv(cfg, s) && GoodEvent(cfg, s, e)
    ensures Inv(cfg, Step(cfg, s, e))
  {
    hide RunInv, DoneInv, Bust, Start;
    RunStatus(cfg, s);
    match e
    case Open =>
    case Enter(p) =>
    case Begin(ids) =>
      StartOnlyRegistering(cfg, s, ids);
      if Start(cfg, s, ids).Ok? { StartKeeps(cfg, s, ids); }
    case Lose(p) =>
      BustOnlyRunning(cfg, s, p);
      if Bust(cfg, s, p).Ok? { BustKeeps(cfg, s, p); }
  }

  lemma RunStatus(cfg: Config, s: State)
    ensures RunInv(cfg, s) ==> s.status.Running?
    ensures DoneInv(cfg, s) ==> s.status.Completed?
  {
  }

  lemma StartOnlyRegistering(cfg: Config, s: State, ids: seq<PlayerId>)
    requires GoodConfig(cfg)
    ensures Start(cfg, s, ids).Ok? ==> s.status.Registering?
  {
  }

  lemma BustOnlyRunning(cfg: Config, s: State, p: PlayerId)
    ensures Bust(cfg, s, p).Ok? ==> s.status.Running?
  {
  }

  const NEW := State(Scheduled, map[], [], [], [])

  ghost function Run(cfg: Config, s: State, es: seq<Event>): State
    requires GoodConfig(cfg)
    decreases |es|
  {
    if es == [] then s else Run(cfg, Step(cfg, s, es[0]), es[1..])
  }

  ghost predicate GoodRun(cfg: Config, s: State, es: seq<Event>)
    requires GoodConfig(cfg)
    decreases |es|
  {
    es != [] ==> GoodEvent(cfg, s, es[0]) && GoodRun(cfg, Step(cfg, s, es[0]), es[1..])
  }

  /**
   * Over any order of entries and busts: while it runs everyone alive has one seat of their own, and once done
   * the ranking and prizes are complete.
   */
  lemma {:induction false} RunKeeps(cfg: Config, s: State, es: seq<Event>)
    requires GoodConfig(cfg) && Inv(cfg, s) && GoodRun(cfg, s, es)
    ensures Inv(cfg, Run(cfg, s, es))
    decreases |es|
  {
    hide Inv, GoodEvent;
    if es != [] {
      StepKeeps(cfg, s, es[0]);
      RunKeeps(cfg, Step(cfg, s, es[0]), es[1..]);
    }
  }

  /** On completion the prizes are the whole pool: every entrant's buy-in. */
  lemma DonePaysAll(cfg: Config, s: State)
    requires DoneInv(cfg, s)
    ensures SumPrizes(s.payouts) == |s.players| * cfg.buyIn
  {
    PaysThePool(|s.players| * cfg.buyIn, s.finishOrder);
  }

  /** While it runs, two players alive never share a table and seat, and each is listed where their record says. */
  lemma OneSeatEach(cfg: Config, s: State, p: PlayerId, q: PlayerId)
    requires RunInv(cfg, s) && p in Alive(s.players) && q in Alive(s.players) && p != q
    ensures var a, b := s.players[p], s.players[q];
      && (exists i: nat :: i < |s.tables| && IsAt(s.tables[i], p, a))
      && !(a.tableId == b.tableId && a.seat == b.seat)
  {
    var i := TableOf(s.tables, Alive(s.players), p);
    var j := TableOf(s.tables, Alive(s.players), q);
    var x: nat :| x < |s.tables[i].players| && s.tables[i].players[x] == p;
    var y: nat :| y < |s.tables[j].players| && s.tables[j].players[y] == q;
    assert PlacedAt(s.players, s.tables[i], x) && PlacedAt(s.players, s.tables[j], y);
    assert IsAt(s.tables[i], p, s.players[p]);
    if s.tables[i].id == s.tables[j].id && i != j {
      if i < j { SharedId(s.tables, i, j); } else { SharedId(s.tables, j, i); }
    }
  }

  /** Listed at this table in the recorded seat. */
  predicate IsAt(t: TTable, p: PlayerId, record: Player) {
    record.tableId == Some(t.id) && record.seat.Some? && record.seat.value < |t.players| && t.players[record.seat.value] == p
  }

  lemma {:induction false} SharedId(ts: seq<TTable>, i: nat, j: nat)
    requires i < j < |ts| && ts[i].id == ts[j].id
    ensures Count(ts, IdOf, ts[i].id) >= 2
  {
    if i > 0 {
      SharedId(ts[1..], i - 1, j - 1);
    } else {
      IdCounted(ts[1..], j - 1);
    }
  }

  lemma {:induction false} IdCounted(ts: seq<TTable>, j: nat)
    requires j < |ts|
    ensures Count(ts, IdOf, ts[j].id) >= 1
  {
    if j > 0 {
      IdCounted(ts[1..], j - 1);
    }
  }

  lemma {:induction false} FindTable(ts: seq<TTable>, p: PlayerId) returns (i: nat)
    requires Count(ts, PlayersOf, p) >= 1
    ensures i < |ts| && p in ts[i].players
  {
    if p in ts[0].players {
      i := 0;
    } else {
      i := FindTable(ts[1..], p);
      i := i + 1;
    }
  }

  lemma TableOf(ts: seq<TTable>, members: set<PlayerId>, p: PlayerId) returns (i: nat)
    requires Everyone(ts) == multiset(members) && p in members
    ensures i < |ts| && p in ts[i].players
  {
    BagCount(ts, PlayersOf, p);
    i := FindTable(ts, p);
  }
}
