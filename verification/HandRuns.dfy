/** Whole runs of a hand: safety, conservation of chips, progress, termination, and cards out of the players' reach. */
module HandRuns {
  import opened Common
  import opened Seats
  import opened Betting
  import opened HandRules
  import opened ShowdownProofs
  import opened HandInvariant

  /** All chips of the hand: behind, in the pot while betting is on, and taken as rake. */
  function Chips(st: State): nat {
    Sum(st.seats, StackOf) + st.rake + if IsBetting(st.street) then Sum(st.seats, CommitOf) else 0
  }

  function StreetsLeft(s: Street): nat {
    match s
    case Preflop => 3
    case Flop => 2
    case Turn => 1
    case _ => 0
  }

  /** How much action a hand can still see: a bound on the number of accepted actions. */
  function Potential(st: State): nat {
    if IsBetting(st.street) then StreetsLeft(st.street) * (|st.seats| + 1) + Work(st.seats, st.currentBet) else 0
  }

  ghost predicate HandOrPaid(g: Game, st: State) {
    HandInv(g, st) || PaidInv(g, st)
  }

  // ---------------------------------------------------------------- one action

  lemma CloseEnds(g: Game, st: State, base: nat)
    requires Settled(g, st, base) && Closed(st.seats, st.currentBet) && |LiveSet(st.seats)| >= 2
    requires st.currentBet == 0 ==> ActorSet(st.seats) != {}
    ensures var next := NextStreet(g, st);
      HandOrPaid(g, next) && SameDeal(st, next) && Chips(next) == Chips(st)
  {
    if st.street.River? || IsRunOut(st.seats) {
      ShowdownPaid(g, st, base);
    } else {
      BeginInv(g, st, base);
      FreshSets(st.seats);
    }
  }

  lemma UncontestedEnds(g: Game, st: State, base: nat)
    requires Settled(g, st, base) && |LiveSet(st.seats)| == 1
    ensures var next := AwardUncontested(g, st, FirstLiveId(st.seats));
      HandOrPaid(g, next) && SameDeal(st, next) && Chips(next) == Chips(st)
  {
    hide CardsAt, Sane, Level, Covered, RaiseSize, SameCards, HolesDealt, DealtIn, AwardUncontested;
    UncontestedPaid(g, st, base);
  }

  lemma AdvanceInv(g: Game, st: State, mid: State)
    requires HandInv(g, st) && Settled(g, mid, Base(st)) && mid.toAct == st.toAct
    requires Acts(st.seats, st.toAct.value, st.currentBet, mid.seats, mid.currentBet)
    ensures var next := Advance(g, mid, st.toAct.value);
      HandOrPaid(g, next) && SameDeal(mid, next) && Chips(next) == Chips(mid)
  {
    hide Closed, Covered, Level, RaiseSize, CardsAt, HolesDealt, Prefix, OptionLast, DistinctPlayers, NobodySitsOut, NextStreet, SameCards, AwardUncontested;
    var t := st.toAct.value;
    LiveRemain(st.seats, t, st.currentBet, mid.seats, mid.currentBet);
    if |LiveSet(mid.seats)| == 1 {
      UncontestedEnds(g, mid, Base(st));
    } else if Closed(mid.seats, mid.currentBet) {
      if mid.currentBet == 0 {
        ActorsRemain(st.seats, t, st.currentBet, mid.seats, mid.currentBet);
      }
      CloseEnds(g, mid, Base(st));
    } else {
      TurnInv(g, st, mid, Base(st));
      SameDealSelf(mid);
    }
  }

  lemma ActorFound(g: Game, st: State, id: PlayerId)
    requires HandInv(g, st)
    ensures FindSeat(st.seats, id) == Some(st.toAct.value) <==> st.seats[st.toAct.value].value.playerId == id
  {
    FindUnique(st.seats, st.toAct.value);
  }

  lemma ActIsPlay(g: Game, st: State, id: PlayerId, action: PlayerAction)
    requires HandInv(g, st) && Act(g, st, id, action).Ok?
    ensures var o := Apply(g.cfg, st.seats[st.toAct.value].value, st.currentBet, st.lastRaise, action);
      && o.Played? && Act(g, st, id, action) == Ok(Advance(g, Mid(st, o), st.toAct.value))
      && st.seats[st.toAct.value].value.playerId == id
  {
  }

  /** Every accepted action keeps the invariant, the deal and the chips. */
  lemma ActKeeps(g: Game, st: State, id: PlayerId, action: PlayerAction)
    requires HandInv(g, st) && Act(g, st, id, action).Ok?
    ensures var next := Act(g, st, id, action).value;
      HandOrPaid(g, next) && SameDeal(st, next) && Chips(next) == Chips(st)
  {
    var o := Apply(g.cfg, st.seats[st.toAct.value].value, st.currentBet, st.lastRaise, action);
    var mid := Mid(st, o);
    ActIsPlay(g, st, id, action);
    MidSettled(g, st, action);
    ActsCards(st.seats, st.toAct.value, st.currentBet, mid.seats, o.bet);
    AdvanceInv(g, st, mid);
    SameDealCompose(st, mid, Act(g, st, id, action).value);
  }

  /** The amount of an action is inside the offer's bounds, where the action has an amount. */
  predicate InBounds(offer: LegalAction, amount: int) {
    (offer.kind.Bet? || offer.kind.Raise?) ==> offer.min <= amount <= offer.max
  }

  /** Progress: an action is accepted exactly when it is the actor's and is on offer within bounds. */
  lemma ActAcceptedIff(g: Game, st: State, id: PlayerId, action: PlayerAction)
    requires HandInv(g, st)
    ensures var actor := st.seats[st.toAct.value].value; var offer := Offer(g.cfg, actor, st.currentBet, st.lastRaise, action.kind);
      Act(g, st, id, action).Ok? <==> id == actor.playerId && offer.Some? && InBounds(offer.value, action.amount)
  {
    hide HandInv, Play, Offer, Put;
    ActorReady(g, st);
    ActorFound(g, st, id);
    AppliedIff(g.cfg, st.seats[st.toAct.value].value, st.currentBet, st.lastRaise, action);
  }

  lemma ActorReady(g: Game, st: State)
    requires HandInv(g, st)
    ensures Running(g, st) && st.toAct.Some? && CanAct(st.seats[st.toAct.value])
  {
  }

  lemma AppliedIff(cfg: Config, p: Seat, bet: nat, lastRaise: nat, action: PlayerAction)
    ensures var offer := Offer(cfg, p, bet, lastRaise, action.kind);
      Apply(cfg, p, bet, lastRaise, action).Played? <==> offer.Some? && InBounds(offer.value, action.amount)
  {
  }

  /** Moving to another street is visible in the street's name. */
  lemma AdvanceStays(g: Game, st: State, from: nat)
    requires Running(g, st) && from < |st.seats| && Advance(g, st, from).street == st.street
    ensures Advance(g, st, from).currentBet == st.currentBet && Advance(g, st, from).lastRaise == st.lastRaise
  {
    if |LiveSet(st.seats)| != 1 && Closed(st.seats, st.currentBet) {
    }
  }

  /** The least raise is at least the big blind, and nobody still in has more in front of them than the bet. */
  ghost predicate Disciplined(g: Game, st: State) {
    && st.lastRaise >= g.cfg.bigBlind
    && forall i: nat :: i < |st.seats| && Live(st.seats[i]) ==> st.seats[i].value.streetCommit <= st.currentBet
  }

  /**
   * Min-raise discipline: within a street neither the bet nor the least raise ever falls; on every street the
   * least raise is at least the big blind and nobody still in has more than the bet in front of them.
   */
  lemma MinRaiseKept(g: Game, st: State, id: PlayerId, action: PlayerAction)
    requires HandInv(g, st) && Act(g, st, id, action).Ok?
    ensures var next := Act(g, st, id, action).value;
      && (next.street == st.street ==> st.currentBet <= next.currentBet && st.lastRaise <= next.lastRaise)
      && (IsBetting(next.street) ==> Disciplined(g, next))
  {
    hide Advance, Closed, Covered, InTurn;
    var next := Act(g, st, id, action).value;
    ActKeeps(g, st, id, action);
    ActIsPlay(g, st, id, action);
    ActRaises(g, st, action);
    var o := Apply(g.cfg, st.seats[st.toAct.value].value, st.currentBet, st.lastRaise, action);
    if next.street == st.street {
      AdvanceStays(g, Mid(st, o), st.toAct.value);
    }
    if IsBetting(next.street) {
    }
  }

  lemma ActRaises(g: Game, st: State, action: PlayerAction)
    requires HandInv(g, st)
    requires Apply(g.cfg, st.seats[st.toAct.value].value, st.currentBet, st.lastRaise, action).Played?
    ensures var o := Apply(g.cfg, st.seats[st.toAct.value].value, st.currentBet, st.lastRaise, action);
      && Running(g, Mid(st, o)) && Mid(st, o).street == st.street
      && st.currentBet <= Mid(st, o).currentBet && st.lastRaise <= Mid(st, o).lastRaise
  {
  }

  // ---------------------------------------------------------------- termination

  lemma StreetOutweighsOwing(k: nat, k': nat, n: nat, w: nat, owed: nat, owed': nat)
    requires k' < k && owed' <= n
    ensures k' * (n + 1) + (w * (n + 1) + owed') <= k * (n + 1) + (w * (n + 1) + owed)
  {
    assert k' * (n + 1) + (n + 1) == (k' + 1) * (n + 1) <= k * (n + 1);
  }

  lemma BeginPotential(g: Game, st: State, street: Street)
    requires st.button.Some? && st.button.value < |st.seats| && IsBetting(st.street) && IsBetting(street)
    requires StreetsLeft(street) < StreetsLeft(st.street)
    ensures Potential(BeginStreet(g, st, street)) <= Potential(st)
  {
    var next := BeginStreet(g, st, street);
    FreshSets(st.seats);
    IndexSetSize(OwerSet(next.seats, 0), |st.seats|);
    StreetOutweighsOwing(StreetsLeft(st.street), StreetsLeft(street), |st.seats|, Sum(st.seats, StackOf) + |LiveSet(st.seats)|,
      |OwerSet(st.seats, st.currentBet)|, |OwerSet(next.seats, 0)|);
  }

  /** A new street uses up one of four, whatever it reopens; passing the turn costs nothing. */
  lemma AdvancePotential(g: Game, st: State, from: nat)
    requires Running(g, st) && from < |st.seats|
    ensures Potential(Advance(g, st, from)) <= Potential(st)
  {
    if |LiveSet(st.seats)| != 1 && Closed(st.seats, st.currentBet) && !(st.street.River? || IsRunOut(st.seats)) {
      var dealt := if st.street.Preflop? then DealFlop(st) else DealOne(st);
      assert Potential(dealt) == Potential(st);
      BeginPotential(g, dealt, NextStreetName(st.street));
    }
  }

  lemma MidPotential(g: Game, st: State, action: PlayerAction)
    requires HandInv(g, st)
    requires Apply(g.cfg, st.seats[st.toAct.value].value, st.currentBet, st.lastRaise, action).Played?
    ensures var mid := Mid(st, Apply(g.cfg, st.seats[st.toAct.value].value, st.currentBet, st.lastRaise, action));
      Running(g, mid) && Potential(mid) < Potential(st)
  {
    hide Sane, Level, Covered, Prefix, OptionLast, Closed, CardsAt, RaiseSize, HolesDealt, NobodySitsOut, Work, Acts, SameDeal, DistinctPlayers;
    var o := Apply(g.cfg, st.seats[st.toAct.value].value, st.currentBet, st.lastRaise, action);
    MidSettled(g, st, action);
    WorkFalls(st.seats, st.toAct.value, st.currentBet, Mid(st, o).seats, o.bet);
  }

  /** Termination: every accepted action strictly lowers the potential, which is zero only after payout. */
  lemma ActSpendsPotential(g: Game, st: State, id: PlayerId, action: PlayerAction)
    requires HandInv(g, st) && Act(g, st, id, action).Ok?
    ensures Potential(Act(g, st, id, action).value) < Potential(st)
  {
    ActIsPlay(g, st, id, action);
    MidPotential(g, st, action);
    var o := Apply(g.cfg, st.seats[st.toAct.value].value, st.currentBet, st.lastRaise, action);
    AdvancePotential(g, Mid(st, o), st.toAct.value);
  }

  // ---------------------------------------------------------------- runs

  datatype Move = Move(playerId: PlayerId, action: PlayerAction)

  /** A sequence of attempted actions; a refused one changes nothing. */
  function Run(g: Game, st: State, moves: seq<Move>): State
    requires HandOrPaid(g, st)
    decreases |moves|
  {
    if moves == [] then st
    else
      match Act(g, st, moves[0].playerId, moves[0].action)
      case Err(_) => Run(g, st, moves[1..])
      case Ok(next) =>
        ActKeeps(g, st, moves[0].playerId, moves[0].action);
        Run(g, next, moves[1..])
  }

  function Accepted(g: Game, st: State, moves: seq<Move>): nat
    requires HandOrPaid(g, st)
    decreases |moves|
  {
    if moves == [] then 0
    else
      match Act(g, st, moves[0].playerId, moves[0].action)
      case Err(_) => Accepted(g, st, moves[1..])
      case Ok(next) =>
        ActKeeps(g, st, moves[0].playerId, moves[0].action);
        1 + Accepted(g, next, moves[1..])
  }

  /** Safety over whole runs: whatever is attempted, the hand stays well formed, its cards stay put and no chip is made or lost. */
  lemma {:induction false} RunSafe(g: Game, st: State, moves: seq<Move>)
    requires HandOrPaid(g, st)
    ensures HandOrPaid(g, Run(g, st, moves)) && SameDeal(st, Run(g, st, moves)) && Chips(Run(g, st, moves)) == Chips(st)
    decreases |moves|
  {
    if moves != [] {
      match Act(g, st, moves[0].playerId, moves[0].action)
      case Err(_) => RunSafe(g, st, moves[1..]);
      case Ok(next) =>
        ActKeeps(g, st, moves[0].playerId, moves[0].action);
        RunSafe(g, next, moves[1..]);
        SameDealCompose(st, next, Run(g, next, moves[1..]));
    }
  }

  /** Every hand ends: no run accepts more actions than the starting potential. */
  lemma {:induction false} RunEnds(g: Game, st: State, moves: seq<Move>)
    requires HandOrPaid(g, st)
    ensures Accepted(g, st, moves) + Potential(Run(g, st, moves)) <= Potential(st)
    decreases |moves|
  {
    if moves != [] {
      match Act(g, st, moves[0].playerId, moves[0].action)
      case Err(_) => RunEnds(g, st, moves[1..]);
      case Ok(next) =>
        ActKeeps(g, st, moves[0].playerId, moves[0].action);
        ActSpendsPotential(g, st, moves[0].playerId, moves[0].action);
        RunEnds(g, next, moves[1..]);
    }
  }

  // ---------------------------------------------------------------- the cards

  lemma BoardOfRun(g: Game, st: State) returns (s: Street)
    requires HandOrPaid(g, st)
    ensures IsBetting(s) && CardsAt(st, |DealtIn(st.seats)|, s)
  {
    if HandInv(g, st) {
      s := st.street;
    } else {
      s :| IsBetting(s) && CardsAt(st, |DealtIn(st.seats)|, s);
    }
  }

  lemma BoardsComparable(g: Game, a: State, b: State)
    requires HandOrPaid(g, a) && HandOrPaid(g, b) && a.deck == b.deck && |DealtIn(a.seats)| == |DealtIn(b.seats)|
    ensures a.board <= b.board || b.board <= a.board
    ensures a.cursor <= 2 * |DealtIn(a.seats)| + 8
  {
    var m := |DealtIn(a.seats)|;
    var s := BoardOfRun(g, a);
    var r := BoardOfRun(g, b);
    if StreetsLeft(s) >= StreetsLeft(r) {
    } else {
    }
  }

  lemma SameDealTwice(st: State, a: State, b: State)
    requires SameDeal(st, a) && SameDeal(st, b)
    ensures SameDeal(a, b)
  {
  }

  /**
   * Betting cannot influence the cards: two runs of the same hand, however they are played, hold the
   * same hole cards, and the shorter board is the start of the longer.
   */
  lemma BettingCannotMoveCards(g: Game, st: State, ours: seq<Move>, theirs: seq<Move>)
    requires HandOrPaid(g, st)
    ensures var a := Run(g, st, ours); var b := Run(g, st, theirs);
      && SameCards(a.seats, b.seats) && (a.board <= b.board || b.board <= a.board)
      && a.cursor <= 2 * |DealtIn(st.seats)| + 8
  {
    var a, b := Run(g, st, ours), Run(g, st, theirs);
    RunSafe(g, st, ours);
    RunSafe(g, st, theirs);
    SameDealKeeps(st, a);
    SameDealKeeps(st, b);
    SameDealTwice(st, a, b);
    BoardsComparable(g, a, b);
  }
}
