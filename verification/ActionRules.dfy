/**
 * What an action may be, what it costs, and what it leaves to the others, in chips. `HandRuns` says that every action
 * keeps a hand in good order; here is which good order it leads to.
 */
module ActionRules {
  import opened Common
  import opened Seats
  import opened Betting
  import opened HandRules
  import opened ShowdownProofs
  import opened HandInvariant
  import opened HandRuns

  // ---------------------------------------------------------------- the rules, for the player to act

  /** No-limit betting: a bet is at least the big blind and a raise at least the last one, or else it is an all-in. */
  predicate Permitted(cfg: Config, p: Seat, bet: nat, lastRaise: nat, a: PlayerAction) {
    match a.kind
    case Fold => true
    case Check => p.streetCommit == bet
    case Call => p.streetCommit < bet < p.streetCommit + p.stack
    case Bet => p.streetCommit == bet && Min(cfg.bigBlind, p.stack) <= a.amount <= p.stack
    case Raise => p.streetCommit < bet && bet + lastRaise <= a.amount <= p.streetCommit + p.stack
    case AllIn => true
  }

  /** The chips an action puts in: a raise names the total to raise to, a bet the chips added. */
  function Cost(p: Seat, bet: nat, a: PlayerAction): int {
    match a.kind
    case Fold => 0
    case Check => 0
    case Call => bet - p.streetCommit
    case Bet => a.amount
    case Raise => a.amount - p.streetCommit
    case AllIn => p.stack
  }

  /** What the player has in front of them after an action. */
  function RaisedTo(p: Seat, bet: nat, a: PlayerAction): int {
    p.streetCommit + Cost(p, bet, a)
  }

  predicate SeatAnswers(p: Seat, q: Seat, bet: nat, a: PlayerAction) {
    && q.stack == p.stack - Cost(p, bet, a) && q.handCommit == p.handCommit + Cost(p, bet, a)
    && q == p.(stack := q.stack, handCommit := q.handCommit, streetCommit := q.streetCommit,
               folded := a.kind.Fold?, allIn := q.stack == 0, acted := true)
    && q.streetCommit == RaisedTo(p, bet, a)
  }

  /** The least raise: a bet sets it anew, a raise or an all-in above the bet lifts it if the increment is larger. */
  function RaiseAfter(cfg: Config, p: Seat, bet: nat, lastRaise: nat, a: PlayerAction): int {
    if a.kind.Bet? then Max(cfg.bigBlind, a.amount - bet)
    else if RaisedTo(p, bet, a) > bet then Max(lastRaise, RaisedTo(p, bet, a) - bet)
    else lastRaise
  }

  /** A bet, or a raise or an all-in by at least the least raise, asks everybody again. */
  predicate Reopens(p: Seat, bet: nat, lastRaise: nat, a: PlayerAction) {
    a.kind.Bet? || (RaisedTo(p, bet, a) > bet && RaisedTo(p, bet, a) - bet >= lastRaise)
  }

  function AskedAgain(s: Slot): Slot {
    if CanAct(s) then Some(s.value.(acted := false)) else s
  }

  /** The seats, the bet and the least raise with an action of the player in seat t in. */
  ghost predicate Answered(cfg: Config, st: State, t: nat, a: PlayerAction, next: State) {
    && |next.seats| == |st.seats| && t < |st.seats| && st.seats[t].Some? && next.seats[t].Some?
    && var p := st.seats[t].value;
    && SeatAnswers(p, next.seats[t].value, st.currentBet, a)
    && next.currentBet == Max(st.currentBet, RaisedTo(p, st.currentBet, a))
    && next.lastRaise == RaiseAfter(cfg, p, st.currentBet, st.lastRaise, a)
    && forall k: nat :: k < |st.seats| && k != t ==>
         next.seats[k] == if Reopens(p, st.currentBet, st.lastRaise, a) then AskedAgain(st.seats[k]) else st.seats[k]
  }

  /** Somebody has yet to answer: they are short of the bet, or have not acted and somebody else could answer them. */
  ghost predicate Unanswered(seats: seq<Slot>, bet: nat) {
    exists i: nat, j: nat :: i < |seats| && j < |seats| && CanAct(seats[i]) && CanAct(seats[j])
      && (seats[i].value.streetCommit < bet || (!seats[i].value.acted && i != j))
  }

  // ---------------------------------------------------------------- the actor

  lemma ApplyPermittedIff(cfg: Config, p: Seat, bet: nat, lastRaise: nat, a: PlayerAction)
    requires GoodConfig(cfg) && lastRaise >= cfg.bigBlind && p.streetCommit <= bet && p.stack > 0
    ensures Apply(cfg, p, bet, lastRaise, a).Played? <==> Permitted(cfg, p, bet, lastRaise, a)
  {
  }

  lemma QuietAnswers(cfg: Config, p: Seat, bet: nat, lastRaise: nat, a: PlayerAction)
    requires GoodConfig(cfg) && lastRaise >= cfg.bigBlind && p.streetCommit <= bet && p.stack > 0
    requires !p.folded && !p.allIn && Apply(cfg, p, bet, lastRaise, a).Played?
    requires a.kind.Fold? || a.kind.Check? || a.kind.Call?
    ensures var o := Apply(cfg, p, bet, lastRaise, a);
      && SeatAnswers(p, o.seat.(acted := true), bet, a) && RaisedTo(p, bet, a) <= bet
      && o.bet == bet && o.lastRaise == lastRaise && !o.reopen
  {
  }

  lemma BetAnswers(cfg: Config, p: Seat, bet: nat, lastRaise: nat, a: PlayerAction)
    requires GoodConfig(cfg) && lastRaise >= cfg.bigBlind && p.streetCommit <= bet && p.stack > 0
    requires !p.folded && !p.allIn && Apply(cfg, p, bet, lastRaise, a).Played? && (a.kind.Bet? || a.kind.Raise?)
    ensures var o := Apply(cfg, p, bet, lastRaise, a);
      && SeatAnswers(p, o.seat.(acted := true), bet, a) && o.bet == Max(bet, RaisedTo(p, bet, a))
      && o.lastRaise == RaiseAfter(cfg, p, bet, lastRaise, a) && o.reopen && Reopens(p, bet, lastRaise, a)
  {
  }

  lemma AllInAnswers(cfg: Config, p: Seat, bet: nat, lastRaise: nat)
    requires GoodConfig(cfg) && lastRaise >= cfg.bigBlind && p.streetCommit <= bet && p.stack > 0
    requires !p.folded && !p.allIn
    ensures var a := PlayerAction(AllIn, 0); var o := Apply(cfg, p, bet, lastRaise, a);
      && o.Played? && SeatAnswers(p, o.seat.(acted := true), bet, a) && o.bet == Max(bet, RaisedTo(p, bet, a))
      && o.lastRaise == RaiseAfter(cfg, p, bet, lastRaise, a) && (o.reopen <==> Reopens(p, bet, lastRaise, a))
  {
  }

  /** An all-in has no amount. */
  lemma AllInPlain(cfg: Config, p: Seat, bet: nat, lastRaise: nat, a: PlayerAction)
    requires a.kind.AllIn?
    ensures Apply(cfg, p, bet, lastRaise, a) == Apply(cfg, p, bet, lastRaise, PlayerAction(AllIn, 0))
    ensures Cost(p, bet, a) == Cost(p, bet, PlayerAction(AllIn, 0))
  {
  }

  lemma ApplyAnswers(cfg: Config, p: Seat, bet: nat, lastRaise: nat, a: PlayerAction)
    requires GoodConfig(cfg) && lastRaise >= cfg.bigBlind && p.streetCommit <= bet && p.stack > 0
    requires !p.folded && !p.allIn && Apply(cfg, p, bet, lastRaise, a).Played?
    ensures var o := Apply(cfg, p, bet, lastRaise, a);
      && SeatAnswers(p, o.seat.(acted := true), bet, a) && o.bet == Max(bet, RaisedTo(p, bet, a))
      && o.lastRaise == RaiseAfter(cfg, p, bet, lastRaise, a) && (o.reopen <==> Reopens(p, bet, lastRaise, a))
  {
    hide Apply, Cost;
    if a.kind.Bet? || a.kind.Raise? {
      BetAnswers(cfg, p, bet, lastRaise, a);
    } else if a.kind.AllIn? {
      AllInPlain(cfg, p, bet, lastRaise, a);
      AllInAnswers(cfg, p, bet, lastRaise);
    } else {
      QuietAnswers(cfg, p, bet, lastRaise, a);
    }
  }

  /** The player to act has chips, and owes no more than the bet. */
  lemma ActorSeat(g: Game, st: State)
    requires HandInv(g, st)
    ensures IsBetting(st.street) && st.toAct.Some? && st.toAct.value < |st.seats| && CanAct(st.seats[st.toAct.value])
    ensures var p := st.seats[st.toAct.value].value;
      GoodConfig(g.cfg) && st.lastRaise >= g.cfg.bigBlind && p.streetCommit <= st.currentBet && p.stack > 0
  {
    assert SaneSeat(st.seats[st.toAct.value], st.currentBet);
  }

  /** An action is accepted exactly when it is the turn of the player it names and the rules permit it. */
  lemma ActPermittedIff(g: Game, st: State, id: PlayerId, a: PlayerAction)
    requires HandInv(g, st)
    ensures var p := st.seats[st.toAct.value].value;
      Act(g, st, id, a).Ok? <==> id == p.playerId && Permitted(g.cfg, p, st.currentBet, st.lastRaise, a)
  {
    hide HandInv, Play, Permitted, Offer, Apply;
    ActorSeat(g, st);
    ActAcceptedIff(g, st, id, a);
    var p := st.seats[st.toAct.value].value;
    AppliedIff(g.cfg, p, st.currentBet, st.lastRaise, a);
    ApplyPermittedIff(g.cfg, p, st.currentBet, st.lastRaise, a);
  }

  /** Why an action is refused during a hand: not seated, not their turn, no such action now, or not for this amount. */
  lemma ActRefusedWith(g: Game, st: State, id: PlayerId, a: PlayerAction)
    requires HandInv(g, st) && Act(g, st, id, a).Err?
    ensures var p := st.seats[st.toAct.value].value;
      Act(g, st, id, a).error ==
        if !(exists i: nat :: i < |st.seats| && st.seats[i].Some? && st.seats[i].value.playerId == id) then NotSeated
        else if id != p.playerId then NotYourTurn
        else if exists amount :: Permitted(g.cfg, p, st.currentBet, st.lastRaise, PlayerAction(a.kind, amount)) then BadAmount
        else IllegalAction
  {
    hide HandInv, Play, Put;
    ActorSeat(g, st);
    ActorReady(g, st);
    ActorFound(g, st, id);
    FindNone(st.seats, id);
    var p := st.seats[st.toAct.value].value;
    var offer := Offer(g.cfg, p, st.currentBet, st.lastRaise, a.kind);
    if offer.Some? {
      assert Permitted(g.cfg, p, st.currentBet, st.lastRaise, PlayerAction(a.kind, offer.value.min));
    }
  }

  /**
   * The offers shown to the player to act, in chips: an action is on offer exactly when some amount of it is permitted;
   * a bet and a raise show the least and the most that is permitted, a call and an all-in the chips they cost.
   */
  lemma OffersInChips(g: Game, st: State, kind: ActionKind, amount: int)
    requires HandInv(g, st)
    ensures var p := st.seats[st.toAct.value].value; var offer := Offer(g.cfg, p, st.currentBet, st.lastRaise, kind);
      && (offer.None? ==> !Permitted(g.cfg, p, st.currentBet, st.lastRaise, PlayerAction(kind, amount)))
      && (offer.Some? ==>
            && offer.value.kind == kind
            && Permitted(g.cfg, p, st.currentBet, st.lastRaise, PlayerAction(kind, offer.value.min))
            && (if kind.Bet? || kind.Raise? then
                  Permitted(g.cfg, p, st.currentBet, st.lastRaise, PlayerAction(kind, amount))
                  <==> offer.value.min <= amount <= offer.value.max
                else offer.value.min == offer.value.max == Cost(p, st.currentBet, PlayerAction(kind, amount))))
  {
    hide HandInv;
    ActorSeat(g, st);
  }

  // ---------------------------------------------------------------- the table after an action

  lemma MidAnswers(g: Game, st: State, a: PlayerAction)
    requires HandInv(g, st)
    requires Apply(g.cfg, st.seats[st.toAct.value].value, st.currentBet, st.lastRaise, a).Played?
    ensures var o := Apply(g.cfg, st.seats[st.toAct.value].value, st.currentBet, st.lastRaise, a);
      Answered(g.cfg, st, st.toAct.value, a, Mid(st, o))
  {
    var t := st.toAct.value;
    var p := st.seats[t].value;
    var o := Apply(g.cfg, p, st.currentBet, st.lastRaise, a);
    ActorSeat(g, st);
    ApplyAnswers(g.cfg, p, st.currentBet, st.lastRaise, a);
    DistinctFrom(g, st, t);
    hide Apply, HandInv, SeatAnswers, RaiseAfter, Reopens;
  }

  /** Nobody else has the player's id. */
  lemma DistinctFrom(g: Game, st: State, t: nat)
    requires HandInv(g, st) && t < |st.seats| && st.seats[t].Some?
    ensures forall k: nat :: k < |st.seats| && k != t && st.seats[k].Some? ==>
      st.seats[k].value.playerId != st.seats[t].value.playerId
  {
  }

  /** With two players left, betting is open exactly while somebody has yet to answer. */
  lemma OpenIff(seats: seq<Slot>, bet: nat)
    requires Sane(seats, bet) && |LiveSet(seats)| >= 2
    ensures Closed(seats, bet) <==> !Unanswered(seats, bet)
  {
    if Closed(seats, bet) {
      forall i: nat, j: nat | i < |seats| && j < |seats| && CanAct(seats[i]) && CanAct(seats[j])
        ensures seats[i].value.streetCommit >= bet && (seats[i].value.acted || i == j)
      {
        assert {i, j} <= ActorSet(seats);
        SubsetSize({i, j}, ActorSet(seats));
      }
    } else {
      var i: nat :| i < |seats| && CanAct(seats[i]) && Owes(seats[i], bet);
      assert SaneSeat(seats[i], bet);
      if seats[i].value.streetCommit == bet {
        var j := AnotherActor(seats, bet, i);
      }
    }
  }

  /** A new street's seats: nothing in front of anybody, nobody has acted. */
  ghost predicate FreshSeats(seats: seq<Slot>, next: seq<Slot>) {
    && |next| == |seats|
    && forall i: nat :: i < |seats| ==>
         next[i] == if seats[i].Some? then Some(seats[i].value.(streetCommit := 0, acted := false)) else None
  }

  /** The street after this one has begun: a clean round, with the first able player after the button to act. */
  ghost predicate StreetBegins(g: Game, mid: State, next: State) {
    && next.street == (match mid.street case Preflop => Flop case Flop => Turn case _ => River)
    && mid.button.Some? && next.button == mid.button && mid.button.value < |next.seats|
    && FreshSeats(mid.seats, next.seats) && next.currentBet == 0 && next.lastRaise == g.cfg.bigBlind
    && next.toAct.Some? && IsNext(next.seats, mid.button.value, 1, CanAct, next.toAct.value)
  }

  lemma FreshSeatsAre(seats: seq<Slot>)
    ensures FreshSeats(seats, MapSeats(seats, FreshStreet))
  {
  }

  lemma StreetFollows(g: Game, mid: State)
    requires Running(g, mid) && |ActorSet(mid.seats)| >= 2 && !mid.street.River?
    ensures StreetBegins(g, mid, NextStreet(g, mid))
  {
    hide MapSeats, ActorSet, LiveSet, FreshSeats, IsNext, Next, CanAct;
    var seats := MapSeats(mid.seats, FreshStreet);
    FreshSeatsAre(mid.seats);
    FreshSets(mid.seats);
    NextIs(seats, mid.button.value, CanAct);
    SomeActor(seats);
  }

  lemma SomeActor(seats: seq<Slot>)
    requires |ActorSet(seats)| >= 2
    ensures exists i: nat :: i < |seats| && CanAct(seats[i])
  {
    var i :| i in ActorSet(seats);
    assert CanAct(seats[i]);
  }

  /** A closed round of two players or more: the next street if two can act and there is one, otherwise showdown. */
  lemma CloseLeads(g: Game, mid: State)
    requires Running(g, mid) && |LiveSet(mid.seats)| >= 2
    ensures var next := NextStreet(g, mid);
      if |ActorSet(mid.seats)| >= 2 && !mid.street.River? then StreetBegins(g, mid, next) else next.street.Payout?
  {
    hide DoShowdown, RunOut, LiveSet, ActorSet, StreetBegins;
    if |ActorSet(mid.seats)| >= 2 && !mid.street.River? {
      StreetFollows(g, mid);
    } else {
      PaysOut(g, RunOut(mid));
    }
  }

  lemma PaysOut(g: Game, st: State)
    requires GoodConfig(g.cfg)
    ensures DoShowdown(g, st).street.Payout?
  {
  }

  /**
   * What an accepted action leads to. Its chips go in, the bet and the least raise follow, and the others are asked
   * again exactly when it reopens the betting. If that leaves one player, the hand is paid out. While somebody has yet
   * to answer, the turn goes to the nearest player clockwise who can act, and nothing else changes. Otherwise the next
   * street begins with the first able player after the button, if two can act and there is a street to come, and the
   * hand is run out and paid if not.
   */
  lemma ActLeads(g: Game, st: State, id: PlayerId, a: PlayerAction) returns (mid: State)
    requires HandInv(g, st) && Act(g, st, id, a).Ok?
    ensures mid == st.(seats := mid.seats, currentBet := mid.currentBet, lastRaise := mid.lastRaise)
    ensures Answered(g.cfg, st, st.toAct.value, a, mid)
    ensures var next := Act(g, st, id, a).value;
      if |LiveSet(mid.seats)| == 1 then next.street.Payout?
      else if Unanswered(mid.seats, mid.currentBet) then
        && next == mid.(toAct := next.toAct) && next.toAct.Some?
        && IsNext(next.seats, st.toAct.value, 1, CanAct, next.toAct.value)
      else if |ActorSet(mid.seats)| >= 2 && !st.street.River? then StreetBegins(g, mid, next)
      else next.street.Payout?
  {
    hide HandInv, Settled, Act, Apply, Acts, Closed, NextStreet, AwardUncontested, Answered, Unanswered, InTurn, Sane;
    ActorSeat(g, st);
    var t := st.toAct.value;
    ActIsPlay(g, st, id, a);
    var o := Apply(g.cfg, st.seats[t].value, st.currentBet, st.lastRaise, a);
    mid := Mid(st, o);
    MidAnswers(g, st, a);
    MidSettled(g, st, a);
    MidLive(g, st, mid);
    if |LiveSet(mid.seats)| == 1 {
      AwardPays(g, mid);
    } else {
      SettledOpen(g, mid, Base(st));
      if Closed(mid.seats, mid.currentBet) {
        CloseLeads(g, mid);
      } else {
        TurnInv(g, st, mid, Base(st));
        NextIs(mid.seats, t, CanAct);
      }
    }
  }

  lemma MidLive(g: Game, st: State, mid: State)
    requires HandInv(g, st) && Acts(st.seats, st.toAct.value, st.currentBet, mid.seats, mid.currentBet)
    ensures |LiveSet(mid.seats)| >= 1
  {
    LiveRemain(st.seats, st.toAct.value, st.currentBet, mid.seats, mid.currentBet);
  }

  lemma AwardPays(g: Game, st: State)
    requires GoodConfig(g.cfg)
    ensures AwardUncontested(g, st, FirstLiveId(st.seats)).street.Payout?
  {
  }

  lemma SettledOpen(g: Game, mid: State, base: nat)
    requires Settled(g, mid, base) && |LiveSet(mid.seats)| >= 2
    ensures Running(g, mid) && (Closed(mid.seats, mid.currentBet) <==> !Unanswered(mid.seats, mid.currentBet))
  {
    OpenIff(mid.seats, mid.currentBet);
  }

  /**
   * The size of a raise. As long as the street goes on, the least raise stays when the bet does; a raise or an all-in
   * above the bet lifts it to the increment, if that is larger; a bet sets it to the increment or the big blind,
   * whichever is larger. After a raise or an all-in above the bet the others have their turn again exactly when the
   * increment was a full one.
   */
  lemma RaiseSizes(g: Game, st: State, id: PlayerId, a: PlayerAction)
    requires HandInv(g, st) && Act(g, st, id, a).Ok? && Act(g, st, id, a).value.street == st.street
    ensures var next := Act(g, st, id, a).value;
      && (next.currentBet == st.currentBet ==> next.lastRaise == st.lastRaise)
      && (next.currentBet > st.currentBet && !a.kind.Bet? ==>
            && next.lastRaise == Max(st.lastRaise, next.currentBet - st.currentBet)
            && |next.seats| == |st.seats|
            && forall k: nat :: k < |st.seats| && k != st.toAct.value && CanAct(st.seats[k]) ==>
                 next.seats[k] == Some(st.seats[k].value.(acted :=
                   st.seats[k].value.acted && next.currentBet - st.currentBet < st.lastRaise)))
      && (a.kind.Bet? ==> next.lastRaise == Max(g.cfg.bigBlind, a.amount - st.currentBet))
  {
    hide HandInv, Act, Unanswered, SeatAnswers, Sum, IsNext;
    ActorSeat(g, st);
    ActPermittedIff(g, st, id, a);
    var mid := ActLeads(g, st, id, a);
  }
}
