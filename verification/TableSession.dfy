/** A table over its whole life: sitting down, adding on, leaving, hand after hand. */
module TableSession {
  import opened Common
  import opened Cards
  import opened Seats
  import opened Betting
  import opened HandRules
  import opened ShowdownProofs
  import opened HandInvariant
  import opened HandRuns
  import opened HandStart

  ghost predicate TableInv(g: Game, st: State) {
    IdleInv(g, st) || HandInv(g, st) || PaidInv(g, st)
  }

  /** What the commands need to be applicable at all. */
  predicate Shaped(g: Game, st: State) {
    && GoodConfig(g.cfg) && |st.seats| == g.cfg.seats && (st.button.Some? ==> st.button.value < |st.seats|)
    && (IsBetting(st.street) ==> Running(g, st))
  }

  lemma InvShaped(g: Game, st: State)
    requires TableInv(g, st)
    ensures Shaped(g, st) && (HandOrPaid(g, st) <==> !st.street.Waiting?) && (!HandOrPaid(g, st) ==> IdleInv(g, st))
  {
  }

  /** The chips physically at the table: stacks, and the pot while betting is on. */
  function Held(st: State): nat {
    Sum(st.seats, StackOf) + if IsBetting(st.street) then Sum(st.seats, CommitOf) else 0
  }

  lemma NewTableInv(g: Game)
    requires GoodConfig(g.cfg)
    ensures TableInv(g, NewTable(g)) && Held(NewTable(g)) == 0
  {
    EmptySum(NewTable(g).seats, StackOf);
  }

  lemma {:induction false} EmptySum(seats: seq<Slot>, f: Slot -> nat)
    requires f(None) == 0 && forall i :: 0 <= i < |seats| ==> seats[i] == None
    ensures Sum(seats, f) == 0
  {
    if seats != [] {
      EmptySum(seats[1..], f);
    }
  }

  datatype Command =
    | SitDown(player: PlayerId, buyIn: nat, seat: Option<int>)
    | TopUp(player: PlayerId, amount: int)
    | Leave(player: PlayerId)
    | Start(deck: seq<Card>)
    | Do(move: Move)
    | Finalize

  predicate GoodCommand(c: Command) {
    c.Start? ==> |c.deck| == DECK_SIZE
  }

  /** The table after a command; a refused command still cleans up a paid-out hand, except that a refused action does nothing. */
  function Exec(g: Game, st: State, c: Command): State
    requires Shaped(g, st) && GoodCommand(c)
  {
    match c
    case SitDown(p, buyIn, seat) => (match Sit(g, st, p, buyIn, seat) case Ok(next) => next case Err(_) => Idle(g, st))
    case TopUp(p, amount) => (match AddOn(g, st, p, amount) case Ok(next) => next case Err(_) => Idle(g, st))
    case Leave(p) => (match CashOut(g, st, p) case Ok(left) => left.0 case Err(_) => Idle(g, st))
    case Start(deck) => (match StartHand(g, st, deck) case Ok(next) => next case Err(_) => Idle(g, st))
    case Do(m) => (match Act(g, st, m.playerId, m.action) case Ok(next) => next case Err(_) => st)
    case Finalize => Idle(g, st)
  }

  function RakeTaken(r: Result<State>): nat {
    match r
    case Ok(next) => next.rake
    case Err(_) => 0
  }

  function ChipsTaken(r: Result<(State, nat)>): nat {
    match r
    case Ok(left) => left.1
    case Err(_) => 0
  }

  function Gain(done: bool, amount: int): int {
    if done then amount else 0
  }

  /** Chips a command brings to the table, less those it takes away. */
  function Flow(g: Game, st: State, c: Command): int
    requires Shaped(g, st) && GoodCommand(c)
  {
    match c
    case SitDown(p, buyIn, seat) => Gain(Sit(g, st, p, buyIn, seat).Ok?, buyIn)
    case TopUp(p, amount) => Gain(AddOn(g, st, p, amount).Ok?, amount)
    case Leave(p) => Gain(true, 0 - ChipsTaken(CashOut(g, st, p)))
    case Start(deck) => Gain(true, 0 - RakeTaken(StartHand(g, st, deck)))
    case Do(m) => Gain(true, 0 - RakeTaken(Act(g, st, m.playerId, m.action)))
    case Finalize => Gain(false, 0)
  }

  lemma ClearedSeats(seats: seq<Slot>)
    ensures Sum(MapSeats(seats, Cleared), StackOf) == Sum(seats, StackOf)
    ensures DistinctPlayers(seats) ==> DistinctPlayers(MapSeats(seats, Cleared))
    ensures NobodySitsOut(seats) ==> NobodySitsOut(MapSeats(seats, Cleared))
  {
    var next := MapSeats(seats, Cleared);
    forall i: nat | i < |seats|
      ensures StackOf(next[i]) == StackOf(seats[i]) && SameId(next[i], seats[i])
      ensures seats[i].Some? ==> next[i].value.sittingOut == seats[i].value.sittingOut
    {
      assert next[i] == if seats[i].Some? then Some(Cleared(seats[i].value)) else None;
    }
    SumSame(next, seats, StackOf);
  }

  /** Cleaning up after payout leaves an idle table with the same chips. */
  lemma IdleKeeps(g: Game, st: State)
    requires TableInv(g, st)
    ensures TableInv(g, Idle(g, st)) && Held(Idle(g, st)) == Held(st)
    ensures Idle(g, st).street.Waiting? ==> IdleInv(g, Idle(g, st))
    ensures HandInv(g, st) ==> Idle(g, st) == st
  {
    if st.awaiting {
      ClearedSeats(st.seats);
    }
  }

  /** Cleaning up leaves everyone where they are with the stack they have, and ends a hand only if it is paid out. */
  lemma IdleSeats(g: Game, st: State)
    requires TableInv(g, st)
    ensures var seats := Idle(g, st).seats;
      |seats| == |st.seats| == g.cfg.seats && forall i: nat :: i < |seats| ==> SameId(seats[i], st.seats[i]) && StackOf(seats[i]) == StackOf(st.seats[i])
    ensures Idle(g, st).street.Waiting? <==> !HandInv(g, st)
  {
    if st.awaiting {
      forall i: nat | i < |st.seats|
        ensures SameId(MapSeats(st.seats, Cleared)[i], st.seats[i])
        ensures StackOf(MapSeats(st.seats, Cleared)[i]) == StackOf(st.seats[i])
      {
        assert MapSeats(st.seats, Cleared)[i] == if st.seats[i].Some? then Some(Cleared(st.seats[i].value)) else None;
      }
    }
  }

  predicate IsSeated(seats: seq<Slot>, id: PlayerId) {
    exists i: nat :: i < |seats| && seats[i].Some? && seats[i].value.playerId == id
  }

  predicate SeatFree(seats: seq<Slot>, seat: Option<int>) {
    match seat
    case Some(k) => 0 <= k < |seats| && seats[k].None?
    case None => exists k: nat :: k < |seats| && seats[k].None?
  }

  lemma {:induction false} FirstEmptyIs(seats: seq<Slot>)
    ensures FirstEmpty(seats).Some? <==> SeatFree(seats, None)
  {
    if seats != [] {
      FirstEmptyIs(seats[1..]);
      if seats[0].Some? && SeatFree(seats[1..], None) {
        var k: nat :| k < |seats[1..]| && seats[1..][k].None?;
        assert seats[k + 1].None?;
      }
      if SeatFree(seats, None) && seats[0].Some? {
        var k: nat :| k < |seats| && seats[k].None?;
        assert seats[1..][k - 1].None?;
      }
    }
  }

  /** A seat is given exactly between hands, to somebody new, for a buy-in in range, when the seat asked for, or any seat, is free. */
  lemma SitAcceptedIff(g: Game, st: State, id: PlayerId, buyIn: nat, seat: Option<int>)
    requires TableInv(g, st)
    ensures Sit(g, st, id, buyIn, seat).Ok?
      <==> (!HandInv(g, st) && !IsSeated(st.seats, id) && g.cfg.minBuyIn <= buyIn <= g.cfg.maxBuyIn && SeatFree(st.seats, seat))
    ensures Sit(g, st, id, buyIn, seat).Err? ==>
      ErrorOf(Sit(g, st, id, buyIn, seat)) == Some(
        if HandInv(g, st) then HandInProgress
        else if IsSeated(st.seats, id) then AlreadySeated
        else if buyIn < g.cfg.minBuyIn || g.cfg.maxBuyIn < buyIn then BadBuyIn
        else NoEmptySeat)
  {
    hide TableInv, HandInv, Idle, FirstEmpty;
    IdleSeats(g, st);
    var seats := Idle(g, st).seats;
    FindNone(seats, id);
    FirstEmptyIs(seats);
    assert forall i: nat :: i < |seats| ==> SameId(seats[i], st.seats[i]);
  }

  /** An add-on is accepted exactly between hands, for a seated player, when it is positive and keeps the stack within the limit. */
  lemma AddOnAcceptedIff(g: Game, st: State, id: PlayerId, amount: int, k: nat)
    requires TableInv(g, st) && k < |st.seats| && st.seats[k].Some? && st.seats[k].value.playerId == id
    ensures AddOn(g, st, id, amount).Ok? <==> (!HandInv(g, st) && 0 < amount <= g.cfg.maxBuyIn - st.seats[k].value.stack)
    ensures AddOn(g, st, id, amount).Err? ==>
      ErrorOf(AddOn(g, st, id, amount)) == Some(
        if HandInv(g, st) then HandInProgress
        else if st.seats[k].value.stack + amount > g.cfg.maxBuyIn then AddOnTooLarge
        else AddOnNotPositive)
  {
    hide HandInv;
    IdleSeats(g, st);
    IdleKeeps(g, st);
    if !HandInv(g, st) {
      assert SameId(Idle(g, st).seats[k], st.seats[k]);
      FindUnique(Idle(g, st).seats, k);
    }
  }

  /** A seated player can leave exactly between hands, and takes the whole stack. */
  lemma CashOutAcceptedIff(g: Game, st: State, id: PlayerId, k: nat)
    requires TableInv(g, st) && k < |st.seats| && st.seats[k].Some? && st.seats[k].value.playerId == id
    ensures CashOut(g, st, id).Ok? <==> !HandInv(g, st)
    ensures CashOut(g, st, id).Ok? ==> CashOut(g, st, id).value.1 == st.seats[k].value.stack
    ensures CashOut(g, st, id).Err? ==> CashOut(g, st, id).error == HandInProgress
  {
    hide HandInv;
    IdleSeats(g, st);
    IdleKeeps(g, st);
    if !HandInv(g, st) {
      assert SameId(Idle(g, st).seats[k], st.seats[k]) && StackOf(Idle(g, st).seats[k]) == StackOf(st.seats[k]);
      FindUnique(Idle(g, st).seats, k);
    }
  }

  /** Who is not seated can neither add on nor leave. */
  lemma StrangersRefused(g: Game, st: State, id: PlayerId, amount: int)
    requires TableInv(g, st) && !IsSeated(st.seats, id)
    ensures var error := if HandInv(g, st) then HandInProgress else NotSeated;
      AddOn(g, st, id, amount) == Err(error) && CashOut(g, st, id) == Err(error)
  {
    hide TableInv, HandInv, Idle;
    IdleSeats(g, st);
    var seats := Idle(g, st).seats;
    FindNone(seats, id);
    assert forall i: nat :: i < |seats| ==> SameId(seats[i], st.seats[i]);
  }

  lemma SeatTaken(seats: seq<Slot>, k: nat, id: PlayerId, buyIn: nat)
    requires DistinctPlayers(seats) && NobodySitsOut(seats)
    requires FindSeat(seats, id).None? && k < |seats| && seats[k].None?
    ensures var next := seats[k := Some(NewSeat(id, buyIn))];
      && DistinctPlayers(next) && NobodySitsOut(next) && FindSeat(next, id).Some?
      && Sum(next, StackOf) == Sum(seats, StackOf) + buyIn
  {
    var next := seats[k := Some(NewSeat(id, buyIn))];
    FindNone(seats, id);
    FindNone(next, id);
    assert next[k].value.playerId == id;
    SumUpdate(seats, k, Some(NewSeat(id, buyIn)), StackOf);
  }

  lemma SitKeeps(g: Game, st: State, id: PlayerId, buyIn: nat, seat: Option<int>)
    requires TableInv(g, st) && Sit(g, st, id, buyIn, seat).Ok?
    ensures var next := Sit(g, st, id, buyIn, seat).value;
      IdleInv(g, next) && Held(next) == Held(st) + buyIn && FindSeat(next.seats, id).Some?
  {
    var idle := Idle(g, st);
    IdleKeeps(g, st);
    var k: nat := if seat.Some? then seat.value else FirstEmpty(idle.seats).value;
    assert Sit(g, st, id, buyIn, seat).value.seats == idle.seats[k := Some(NewSeat(id, buyIn))];
    SeatTaken(idle.seats, k, id, buyIn);
  }

  lemma AddOnKeeps(g: Game, st: State, id: PlayerId, amount: int)
    requires TableInv(g, st) && AddOn(g, st, id, amount).Ok?
    ensures var next := AddOn(g, st, id, amount).value; IdleInv(g, next) && Held(next) == Held(st) + amount
  {
    var idle := Idle(g, st);
    IdleKeeps(g, st);
    var k := FindSeat(idle.seats, id).value;
    SumUpdate(idle.seats, k, AddOn(g, st, id, amount).value.seats[k], StackOf);
  }

  lemma CashOutKeeps(g: Game, st: State, id: PlayerId)
    requires TableInv(g, st) && CashOut(g, st, id).Ok?
    ensures var (next, chips) := CashOut(g, st, id).value;
      IdleInv(g, next) && Held(next) + chips == Held(st) && FindSeat(next.seats, id).None?
  {
    var idle := Idle(g, st);
    IdleKeeps(g, st);
    var k := FindSeat(idle.seats, id).value;
    var next := CashOut(g, st, id).value.0;
    SumUpdate(idle.seats, k, None, StackOf);
    FindNone(next.seats, id);
    forall i: nat | i < |next.seats| && next.seats[i].Some?
      ensures next.seats[i].value.playerId != id
    {
      assert i != k;
      assert idle.seats[i].value.playerId != idle.seats[k].value.playerId by {
        if i < k { assert idle.seats[i].Some?; } else { assert k < i; }
      }
    }
  }

  lemma StartKeeps(g: Game, st: State, deck: seq<Card>)
    requires TableInv(g, st) && |deck| == DECK_SIZE && StartHand(g, st, deck).Ok?
    ensures var next := StartHand(g, st, deck).value; HandOrPaid(g, next) && Held(next) + next.rake == Held(st)
  {
    hide Settled, CardsAt, MapSeats, Opened, NextStreet, Closed;
    IdleKeeps(g, st);
    StartHandSafe(g, Idle(g, st), deck);
  }

  lemma MoveKeeps(g: Game, st: State, m: Move)
    requires TableInv(g, st) && Act(g, st, m.playerId, m.action).Ok?
    ensures var next := Act(g, st, m.playerId, m.action).value; HandOrPaid(g, next) && Held(next) + next.rake == Held(st)
  {
    ActKeeps(g, st, m.playerId, m.action);
  }

  // ---------------------------------------------------------------- who sits where, with what

  lemma {:induction false} FirstEmptyLowest(seats: seq<Slot>)
    requires FirstEmpty(seats).Some?
    ensures forall i :: 0 <= i < FirstEmpty(seats).value ==> seats[i].Some?
  {
    if seats[0].Some? {
      FirstEmptyLowest(seats[1..]);
    }
  }

  /** A new player gets the seat asked for, or else the lowest free one, with the chips bought; nobody else is touched. */
  lemma SitSeats(g: Game, st: State, id: PlayerId, buyIn: nat, seat: Option<int>) returns (k: nat)
    requires TableInv(g, st) && Sit(g, st, id, buyIn, seat).Ok?
    ensures var idle := Idle(g, st);
      && k < |idle.seats| && idle.seats[k].None?
      && (match seat case Some(asked) => k == asked case None => forall i :: 0 <= i < k ==> idle.seats[i].Some?)
      && Sit(g, st, id, buyIn, seat).value
         == idle.(seats := idle.seats[k := Some(Seat(id, buyIn, 0, 0, false, false, false, [], false))])
  {
    var idle := Idle(g, st);
    if seat.Some? {
      k := seat.value;
    } else {
      k := FirstEmpty(idle.seats).value;
      FirstEmptyLowest(idle.seats);
    }
  }

  /** An add-on goes to the player who pays for it, and changes nothing else. */
  lemma AddOnCredits(g: Game, st: State, id: PlayerId, amount: int, k: nat)
    requires TableInv(g, st) && k < |st.seats| && st.seats[k].Some? && st.seats[k].value.playerId == id
    requires AddOn(g, st, id, amount).Ok?
    ensures var idle := Idle(g, st);
      && amount > 0 && k < |idle.seats| && idle.seats[k].Some?
      && AddOn(g, st, id, amount).value
         == idle.(seats := idle.seats[k := Some(idle.seats[k].value.(stack := idle.seats[k].value.stack + amount))])
  {
    IdlePlace(g, st, k);
  }

  /** Leaving frees the player's own seat, and changes nothing else. */
  lemma CashOutFrees(g: Game, st: State, id: PlayerId, k: nat)
    requires TableInv(g, st) && k < |st.seats| && st.seats[k].Some? && st.seats[k].value.playerId == id
    requires CashOut(g, st, id).Ok?
    ensures var idle := Idle(g, st);
      k < |idle.seats| && CashOut(g, st, id).value == (idle.(seats := idle.seats[k := None]), st.seats[k].value.stack)
  {
    IdlePlace(g, st, k);
  }

  lemma IdlePlace(g: Game, st: State, k: nat)
    requires TableInv(g, st) && k < |st.seats| && st.seats[k].Some?
    ensures var idle := Idle(g, st);
      && |idle.seats| == |st.seats| && idle.seats[k].Some? && idle.seats[k].value.stack == st.seats[k].value.stack
      && FindSeat(idle.seats, st.seats[k].value.playerId) == Some(k)
  {
    IdleSeats(g, st);
    var idle := Idle(g, st);
    assert SameId(idle.seats[k], st.seats[k]) && StackOf(idle.seats[k]) == StackOf(st.seats[k]);
    IdleDistinct(g, st);
    FindUnique(idle.seats, k);
  }

  lemma IdleDistinct(g: Game, st: State)
    requires TableInv(g, st)
    ensures DistinctPlayers(Idle(g, st).seats)
  {
    IdleKeeps(g, st);
  }

  /** After payout the cards are mucked and every mark of the hand is wiped; stacks, seats and the button stay. */
  lemma IdleClears(g: Game, st: State, i: nat)
    requires PaidInv(g, st) && i < |st.seats|
    ensures var idle := Idle(g, st);
      && idle.street.Waiting? && !idle.awaiting && idle.toAct.None? && idle.currentBet == 0
      && idle.button == st.button && idle.handId == st.handId && |idle.seats| == |st.seats|
      && idle.seats[i] == match st.seats[i]
                          case None => None
                          case Some(p) => Some(Seat(p.playerId, p.stack, 0, 0, false, false, p.sittingOut, [], false))
  {
  }

  /** Every command, accepted or refused, keeps the table well formed, and chips change only by its flow. */
  lemma ExecKeeps(g: Game, st: State, c: Command)
    requires TableInv(g, st) && GoodCommand(c)
    ensures Shaped(g, st) && TableInv(g, Exec(g, st, c)) && Held(Exec(g, st, c)) == Held(st) + Flow(g, st, c)
  {
    hide HandInv, PaidInv, IdleInv, Idle, Held, Sit, AddOn, CashOut, StartHand, Act;
    InvShaped(g, st);
    IdleKeeps(g, st);
    match c
    case SitDown(p, buyIn, seat) => if Sit(g, st, p, buyIn, seat).Ok? { SitKeeps(g, st, p, buyIn, seat); }
    case TopUp(p, amount) => if AddOn(g, st, p, amount).Ok? { AddOnKeeps(g, st, p, amount); }
    case Leave(p) => if CashOut(g, st, p).Ok? { CashOutKeeps(g, st, p); }
    case Start(deck) => if StartHand(g, st, deck).Ok? { StartKeeps(g, st, deck); }
    case Do(m) => if Act(g, st, m.playerId, m.action).Ok? { MoveKeeps(g, st, m); }
    case Finalize =>
  }

  function Session(g: Game, st: State, cs: seq<Command>): State
    requires TableInv(g, st) && forall i :: 0 <= i < |cs| ==> GoodCommand(cs[i])
    decreases |cs|
  {
    if cs == [] then st
    else
      ExecKeeps(g, st, cs[0]);
      Session(g, Exec(g, st, cs[0]), cs[1..])
  }

  function TotalFlow(g: Game, st: State, cs: seq<Command>): int
    requires TableInv(g, st) && forall i :: 0 <= i < |cs| ==> GoodCommand(cs[i])
    decreases |cs|
  {
    if cs == [] then 0
    else
      ExecKeeps(g, st, cs[0]);
      Flow(g, st, cs[0]) + TotalFlow(g, Exec(g, st, cs[0]), cs[1..])
  }

  /** Over any session, the chips at the table are those brought, less those taken away and the rake. */
  lemma {:induction false} SessionConserves(g: Game, st: State, cs: seq<Command>)
    requires TableInv(g, st) && forall i :: 0 <= i < |cs| ==> GoodCommand(cs[i])
    ensures TableInv(g, Session(g, st, cs)) && Held(Session(g, st, cs)) == Held(st) + TotalFlow(g, st, cs)
    decreases |cs|
  {
    if cs != [] {
      ExecKeeps(g, st, cs[0]);
      SessionConserves(g, Exec(g, st, cs[0]), cs[1..]);
    }
  }
}
