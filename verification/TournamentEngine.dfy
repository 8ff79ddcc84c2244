/** The tournament as the program has it: one object, updated step by step, proved to follow `TournamentRules`. */
module TournamentEngine {
  import opened Common
  import opened TournamentTables
  import opened Payouts
  import opened TournamentRules

  // ---------------------------------------------------------------- sorting ids

  lemma {:induction false} TextTotal(a: Text, b: Text)
    ensures TextLeq(a, b) || TextLeq(b, a)
    ensures TextLeq(a, b) && TextLeq(b, a) ==> a == b
  {
    if a != [] && b != [] {
      TextTotal(a[1..], b[1..]);
      assert a == [a[0]] + a[1..] && b == [b[0]] + b[1..];
    }
  }

  lemma {:induction false} TextTransitive(a: Text, b: Text, c: Text)
    requires TextLeq(a, b) && TextLeq(b, c)
    ensures TextLeq(a, c)
  {
    if a != [] && a[0] == b[0] && b[0] == c[0] {
      TextTransitive(a[1..], b[1..], c[1..]);
    }
  }

  lemma {:induction false} InsertedBag(cfg: Config, ids: seq<PlayerId>, p: PlayerId)
    ensures multiset(Inserted(cfg, ids, p)) == multiset(ids) + multiset{p}
  {
    hide IdLeq;
    if ids != [] && !IdLeq(cfg, p, ids[0]) {
      InsertedBag(cfg, ids[1..], p);
      assert ids == [ids[0]] + ids[1..];
    }
  }

  lemma {:induction false} InsertedAscends(cfg: Config, ids: seq<PlayerId>, p: PlayerId)
    requires Ascending(cfg, ids)
    ensures Ascending(cfg, Inserted(cfg, ids, p))
  {
    hide IdLeq;
    if ids == [] {
    } else if IdLeq(cfg, p, ids[0]) {
      forall j | 0 <= j < |ids|
        ensures IdLeq(cfg, p, ids[j])
      {
        if j > 0 {
          IdTransitive(cfg, p, ids[0], ids[j]);
        }
      }
    } else {
      InsertedAscends(cfg, ids[1..], p);
      IdTotal(cfg, p, ids[0]);
      HeadFirst(cfg, ids, p);
    }
  }

  lemma HeadFirst(cfg: Config, ids: seq<PlayerId>, p: PlayerId)
    requires ids != [] && Ascending(cfg, ids) && IdLeq(cfg, ids[0], p)
    ensures forall x :: x in Inserted(cfg, ids[1..], p) ==> IdLeq(cfg, ids[0], x)
  {
    hide IdLeq;
    InsertedBag(cfg, ids[1..], p);
    forall x | x in Inserted(cfg, ids[1..], p)
      ensures IdLeq(cfg, ids[0], x)
    {
      assert x in multiset(Inserted(cfg, ids[1..], p));
      if x != p {
        var j :| 0 <= j < |ids[1..]| && ids[1..][j] == x;
        assert ids[j + 1] == x;
      }
    }
  }

  lemma IdTotal(cfg: Config, a: PlayerId, b: PlayerId)
    ensures IdLeq(cfg, a, b) || IdLeq(cfg, b, a)
  {
    TextTotal(cfg.spelled(a), cfg.spelled(b));
  }

  lemma IdTransitive(cfg: Config, a: PlayerId, b: PlayerId, c: PlayerId)
    requires IdLeq(cfg, a, b) && IdLeq(cfg, b, c)
    ensures IdLeq(cfg, a, c)
  {
    TextTransitive(cfg.spelled(a), cfg.spelled(b), cfg.spelled(c));
  }

  /** The first of a sorted list is spelled no later than any of it. */
  lemma FirstLeast(cfg: Config, ids: seq<PlayerId>, p: PlayerId)
    requires Ascending(cfg, ids) && p in ids
    ensures p == ids[0] || IdLeq(cfg, ids[0], p)
  {
    var i :| 0 <= i < |ids| && ids[i] == p;
  }

  lemma SortedRest(cfg: Config, ids: seq<PlayerId>, members: set<PlayerId>)
    requires SortedList(cfg, ids, members) && ids != []
    ensures ids[0] in members && SortedList(cfg, ids[1..], members - {ids[0]})
  {
    hide IdLeq;
    assert ids == [ids[0]] + ids[1..];
    assert ids[0] in multiset(ids);
    assert multiset(members - {ids[0]}) == multiset(members) - multiset{ids[0]};
  }

  lemma SameFirst(cfg: Config, a: seq<PlayerId>, b: seq<PlayerId>, members: set<PlayerId>)
    requires SortedList(cfg, a, members) && SortedList(cfg, b, members) && a != [] && b != []
    requires forall p, q :: p in members && q in members && cfg.spelled(p) == cfg.spelled(q) ==> p == q
    ensures a[0] == b[0]
  {
    SortedRest(cfg, a, members);
    SortedRest(cfg, b, members);
    assert a[0] in multiset(b) && b[0] in multiset(a);
    FirstLeast(cfg, a, b[0]);
    FirstLeast(cfg, b, a[0]);
    TextTotal(cfg.spelled(a[0]), cfg.spelled(b[0]));
  }

  lemma SameLength(cfg: Config, a: seq<PlayerId>, b: seq<PlayerId>, members: set<PlayerId>)
    requires SortedList(cfg, a, members) && SortedList(cfg, b, members)
    ensures |a| == |b|
  {
    assert |multiset(a)| == |a| && |multiset(b)| == |b|;
  }

  /** When no two players are spelled alike there is only one sorted list of them. */
  lemma {:induction false} SortedOnce(cfg: Config, a: seq<PlayerId>, b: seq<PlayerId>, members: set<PlayerId>)
    requires SortedList(cfg, a, members) && SortedList(cfg, b, members)
    requires forall p, q :: p in members && q in members && cfg.spelled(p) == cfg.spelled(q) ==> p == q
    ensures a == b
    decreases |a|
  {
    hide SortedList;
    SameLength(cfg, a, b, members);
    if a != [] {
      SameFirst(cfg, a, b, members);
      SortedRest(cfg, a, members);
      SortedRest(cfg, b, members);
      SortedOnce(cfg, a[1..], b[1..], members - {a[0]});
    }
  }

  /** The sorted list of some ids. */
  method SortIds(cfg: Config, members: set<PlayerId>) returns (ids: seq<PlayerId>)
    ensures SortedList(cfg, ids, members)
  {
    ids := [];
    var rest := members;
    while rest != {}
      invariant rest <= members && SortedList(cfg, ids, members - rest)
      decreases rest
    {
      var p :| p in rest;
      InsertedBag(cfg, ids, p);
      InsertedAscends(cfg, ids, p);
      ids := Inserted(cfg, ids, p);
      assert members - (rest - {p}) == (members - rest) + {p};
      rest := rest - {p};
    }
    assert members - rest == members;
  }

  class Tournament {
    const cfg: Config
    var status: Status
    var players: map<PlayerId, Player>
    var tables: seq<TTable>
    var finishOrder: seq<PlayerId>
    var payouts: seq<Prize>

    ghost function View(): State
      reads this
    {
      State(status, players, tables, finishOrder, payouts)
    }

    ghost predicate Valid()
      reads this
    {
      GoodConfig(cfg) && Inv(cfg, View())
    }

    constructor (cfg: Config)
      requires GoodConfig(cfg)
      ensures Valid() && View() == NEW && this.cfg == cfg
    {
      this.cfg := cfg;
      status, players, tables, finishOrder, payouts := Scheduled, map[], [], [], [];
    }

    method OpenRegistration() returns (error: Option<Error>)
      requires Valid()
      modifies this`status
      ensures Valid() && View() == Step(cfg, old(View()), Open)
      ensures error == ErrorOf(TournamentRules.OpenRegistration(old(View())))
    {
      hide RunInv, DoneInv;
      StepKeeps(cfg, View(), Open);
      if !status.Scheduled? {
        return Some(CannotOpen);
      }
      status := Registering;
      return None;
    }

    method Register(p: PlayerId) returns (error: Option<Error>)
      requires Valid()
      modifies this`players
      ensures Valid() && View() == Step(cfg, old(View()), Enter(p))
      ensures error == ErrorOf(TournamentRules.Register(cfg, old(View()), p))
    {
      hide RunInv, DoneInv, EntryInv;
      StepKeeps(cfg, View(), Enter(p));
      if !status.Registering? {
        return Some(RegistrationClosed);
      }
      if p in players {
        return Some(AlreadyRegistered);
      }
      if |players| >= cfg.maxPlayers {
        return Some(TournamentFull);
      }
      players := players[p := Entrant(cfg)];
      return None;
    }

    /** `assignSeats`: two loops over the tables and their lists. */
    method AssignSeats()
      modifies this`players
      ensures players == SeatAll(old(players), tables, |tables|)
    {
      for i := 0 to |tables|
        invariant players == SeatAll(old(players), tables, i)
      {
        var t := tables[i];
        ghost var before := players;
        for seat := 0 to |t.players|
          invariant players == SeatTable(before, t, seat)
        {
          var pid := t.players[seat];
          if pid in players && !players[pid].out {
            players := players[pid := players[pid].(tableId := Some(t.id), seat := Some(seat))];
          }
        }
      }
    }

    /** `start`, seating the entrants in the order of their ids. */
    method Start() returns (error: Option<Error>, ghost ids: seq<PlayerId>)
      requires Valid()
      modifies this
      ensures Valid() && SortedList(cfg, ids, old(players).Keys) && View() == Step(cfg, old(View()), Begin(ids))
      ensures error == ErrorOf(TournamentRules.Start(cfg, old(View()), ids))
    {
      hide Inv, Built;
      var order := SortIds(cfg, players.Keys);
      ids := order;
      StepKeeps(cfg, View(), Begin(ids));
      if !status.Registering? {
        return Some(NotRegistering), ids;
      }
      if |players| < cfg.minPlayers {
        return Some(TooFew), ids;
      }
      status := Running;
      tables := BuildTables(order, cfg.seatsPerTable);
      AssignSeats();
      return None, ids;
    }

    /** Take a player off every table's list. */
    method Unlist(p: PlayerId)
      modifies this`tables
      ensures tables == Removed(old(tables), p)
    {
      RemovedEach(tables, p);
      ghost var was := tables;
      for i := 0 to |tables|
        invariant |tables| == |was| && forall k :: 0 <= k < |was| ==> tables[k] == if k < i then Removed(was, p)[k] else was[k]
      {
        var t := tables[i];
        tables := tables[i := t.(players := Others(t.players, p))];
      }
      assert tables == Removed(was, p);
    }

    static lemma {:induction false} RemovedEach(ts: seq<TTable>, p: PlayerId)
      ensures forall k :: 0 <= k < |ts| ==> Removed(ts, p)[k] == ts[k].(players := Others(ts[k].players, p))
    {
      if ts != [] {
        RemovedEach(ts[1..], p);
      }
    }

    /** `complete`: crown the winner, pay the places, write the prizes down. */
    method Complete(winner: PlayerId)
      requires winner in players && !players[winner].out && status.Running?
      modifies this
      ensures View() == Finished(cfg, old(View()), winner)
    {
      hide Payout, PaidOut;
      players := players[winner := players[winner].(finishPlace := Some(1))];
      finishOrder := [winner] + finishOrder;
      status := Completed;
      assert |players| == |players.Keys| == |old(players).Keys| == |old(players)|;
      payouts := ComputePayouts(|players| * cfg.buyIn, finishOrder);
      RecordPrizes();
    }

    method RecordPrizes()
      modifies this`players
      ensures players == PaidOut(old(players), payouts, |payouts|)
    {
      for n := 0 to |payouts|
        invariant players == PaidOut(old(players), payouts, n)
      {
        var row := payouts[n];
        if row.player.Some? && row.player.value in players {
          var p := row.player.value;
          players := players[p := players[p].(prize := row.chips, points := row.points)];
        }
      }
    }

    /** `bust` up to the completion check. */
    method KnockOut(p: PlayerId)
      requires p in players && |finishOrder| < |players|
      modifies this`players, this`tables, this`finishOrder
      ensures View() == Busted(cfg, old(View()), p)
    {
      hide Rebalanced, Removed;
      var place := |players| - |finishOrder|;
      players := players[p := players[p].(out := true, stack := 0, finishPlace := Some(place))];
      finishOrder := [p] + finishOrder;
      Unlist(p);
      tables := RebalanceTables(tables, cfg.seatsPerTable);
      AssignSeats();
    }

    method Bust(p: PlayerId) returns (error: Option<Error>)
      requires Valid()
      modifies this
      ensures Valid() && View() == Step(cfg, old(View()), Lose(p))
      ensures error == ErrorOf(TournamentRules.Bust(cfg, old(View()), p))
    {
      hide Inv, Busted, Finished, Seating, Ranked;
      StepKeeps(cfg, View(), Lose(p));
      if !status.Running? {
        return Some(NotRunning);
      }
      if p !in players || players[p].out {
        return Some(NotActive);
      }
      RunningRoom(p);
      KnockOut(p);
      var alive := set q | q in players && !players[q].out;
      assert alive == Alive(players);
      if |alive| == 1 {
        var w :| w in alive;
        assert Survivor(alive) == w;
        Complete(w);
      }
      return None;
    }

    lemma RunningRoom(p: PlayerId)
      requires Valid() && status.Running? && p in players && !players[p].out
      ensures |finishOrder| < |players| && RunInv(cfg, View())
    {
    }
  }
}
