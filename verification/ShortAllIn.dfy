/**
 * What a short all-in does to players who have already acted. The source says they are not reopened; in fact
 * their mark stays but they owe the difference, and whether they may raise depends on their chips alone.
 */
module ShortAllIn {
  import opened Common
  import opened Cards
  import opened Seats
  import opened Betting
  import opened HandRules
  import opened ShowdownProofs
  import opened HandInvariant
  import opened HandRuns
  import opened HandStart
  import opened TableSession

  /** The action raises the bet without reopening the round. */
  predicate RaisesShort(st: State, o: Outcome) {
    o.Played? && o.bet > st.currentBet && !o.reopen
  }

  function Applied(g: Game, st: State, action: PlayerAction): Outcome
    requires st.toAct.Some? && st.toAct.value < |st.seats| && st.seats[st.toAct.value].Some?
  {
    Apply(g.cfg, st.seats[st.toAct.value].value, st.currentBet, st.lastRaise, action)
  }

  /**
   * After a short all-in, whoever had acted keeps the mark, owes action all the same, and is offered a raise
   * exactly when their chips reach a full raise over the new bet: having acted makes no difference.
   */
  lemma ActedMayRaise(g: Game, st: State, action: PlayerAction, k: nat)
    requires HandInv(g, st) && RaisesShort(st, Applied(g, st, action))
    requires k < |st.seats| && k != st.toAct.value && CanAct(st.seats[k])
    ensures var o := Applied(g, st, action); var mid := Mid(st, o); var p := st.seats[k].value;
      && action.kind.AllIn? && mid.lastRaise == st.lastRaise
      && mid.seats[k] == st.seats[k] && Owes(mid.seats[k], mid.currentBet)
      && (Offer(g.cfg, p, mid.currentBet, mid.lastRaise, Raise).Some?
          <==> p.stack + p.streetCommit >= mid.currentBet + mid.lastRaise)
  {
    hide Closed, Covered, InTurn;
    MidSettled(g, st, action);
    var o := Applied(g, st, action);
    OthersOwe(st.seats, st.toAct.value, st.currentBet, Mid(st, o).seats, o.bet, k);
  }

  // ---------------------------------------------------------------- until the turn comes round

  /** The same player with the same chips, but perhaps asked to act again. */
  predicate SameButMark(a: Slot, b: Slot) {
    a.Some? && (b == a || b == Some(a.value.(acted := false)))
  }

  /** Moving on either passes the turn and nothing else, or goes to a later street. */
  lemma AdvanceOnly(g: Game, st: State, from: nat)
    requires Running(g, st) && from < |st.seats| && IsBetting(Advance(g, st, from).street)
    ensures var next := Advance(g, st, from);
      next == st.(toAct := next.toAct) || StreetsLeft(next.street) < StreetsLeft(st.street)
  {
  }

  /** After an accepted action either the seats are as the action left them, or the street is a later one. */
  lemma ActOnly(g: Game, st: State, id: PlayerId, action: PlayerAction)
    requires HandInv(g, st) && Act(g, st, id, action).Ok? && HandInv(g, Act(g, st, id, action).value)
    ensures var next := Act(g, st, id, action).value; var o := Applied(g, st, action);
      && o.Played? && st.seats[st.toAct.value].value.playerId == id && Settled(g, Mid(st, o), Base(st))
      && Acts(st.seats, st.toAct.value, st.currentBet, Mid(st, o).seats, o.bet)
      && (next == Mid(st, o).(toAct := next.toAct) || StreetsLeft(next.street) < StreetsLeft(st.street))
  {
    hide Advance, Apply, Closed, Covered, Level, InTurn, Sane, CardsAt, RaiseSize, DistinctPlayers, NobodySitsOut, HolesDealt;
    ActIsPlay(g, st, id, action);
    MidSettled(g, st, action);
    AdvanceOnly(g, Mid(st, Applied(g, st, action)), st.toAct.value);
  }

  lemma StreetOnlyLater(g: Game, st: State, id: PlayerId, action: PlayerAction)
    requires HandInv(g, st) && Act(g, st, id, action).Ok? && HandInv(g, Act(g, st, id, action).value)
    ensures var next := Act(g, st, id, action).value;
      && StreetsLeft(next.street) <= StreetsLeft(st.street)
      && (StreetsLeft(next.street) == StreetsLeft(st.street) ==> next.street == st.street)
  {
    hide Act, HandInv, Settled, Acts, Apply;
    ActOnly(g, st, id, action);
  }

  /** An action on the street leaves everyone but the actor as they were, but perhaps asked to act again. */
  lemma OthersKept(g: Game, st: State, id: PlayerId, action: PlayerAction, k: nat)
    requires HandInv(g, st) && Act(g, st, id, action).Ok? && k < |st.seats| && CanAct(st.seats[k])
    requires st.seats[k].value.playerId != id
    requires var next := Act(g, st, id, action).value; HandInv(g, next) && next.street == st.street
    ensures var next := Act(g, st, id, action).value;
      && |next.seats| == |st.seats| && SameButMark(st.seats[k], next.seats[k]) && st.currentBet <= next.currentBet
  {
    hide Act, Settled, Apply, Closed, InTurn;
    ActOnly(g, st, id, action);
    var o := Applied(g, st, action);
    assert OtherStep(st.seats[k], Mid(st, o).seats[k], st.currentBet, o.bet);
  }

  lemma PaidStays(g: Game, st: State, moves: seq<Move>)
    requires PaidInv(g, st)
    ensures HandOrPaid(g, st) && Run(g, st, moves) == st
    decreases |moves|
  {
    if moves != [] {
      PaidStays(g, st, moves[1..]);
    }
  }

  lemma NotBoth(g: Game, st: State)
    requires PaidInv(g, st)
    ensures !HandInv(g, st)
  {
  }

  lemma RunStreet(g: Game, st: State, moves: seq<Move>)
    requires HandOrPaid(g, st) && HandInv(g, Run(g, st, moves))
    ensures HandInv(g, st) && StreetsLeft(Run(g, st, moves).street) <= StreetsLeft(st.street)
    decreases |moves|
  {
    hide HandInv, PaidInv, Act;
    if PaidInv(g, st) {
      PaidStays(g, st, moves);
      NotBoth(g, st);
    } else if moves != [] {
      HandActs(g, st);
      match Act(g, st, moves[0].playerId, moves[0].action)
      case Err(_) => RunStreet(g, st, moves[1..]);
      case Ok(next) =>
        ActKeeps(g, st, moves[0].playerId, moves[0].action);
        RunStreet(g, next, moves[1..]);
        StreetOnlyLater(g, st, moves[0].playerId, moves[0].action);
    }
  }

  lemma HandActs(g: Game, st: State)
    requires HandInv(g, st)
    ensures Running(g, st)
  {
  }

  predicate NotBy(moves: seq<Move>, id: PlayerId) {
    forall i :: 0 <= i < |moves| ==> moves[i].playerId != id
  }

  /** While the others play on along the street, a player able to act keeps their chips, and the bet does not fall. */
  lemma {:induction false} RunKeepsOthers(g: Game, st: State, moves: seq<Move>, k: nat)
    requires HandOrPaid(g, st) && HandInv(g, Run(g, st, moves)) && Run(g, st, moves).street == st.street
    requires k < |st.seats| && CanAct(st.seats[k]) && NotBy(moves, st.seats[k].value.playerId)
    ensures var end := Run(g, st, moves);
      && |end.seats| == |st.seats| && SameButMark(st.seats[k], end.seats[k]) && st.currentBet <= end.currentBet
    decreases |moves|
  {
    hide HandInv, PaidInv, Act;
    RunStreet(g, st, moves);
    if moves != [] {
      HandActs(g, st);
      match Act(g, st, moves[0].playerId, moves[0].action)
      case Err(_) => RunKeepsOthers(g, st, moves[1..], k);
      case Ok(next) =>
        ActKeeps(g, st, moves[0].playerId, moves[0].action);
        RunStreet(g, next, moves[1..]);
        StreetOnlyLater(g, st, moves[0].playerId, moves[0].action);
        OthersKept(g, st, moves[0].playerId, moves[0].action, k);
        RunKeepsOthers(g, next, moves[1..], k);
    }
  }

  lemma RaiseTaken(g: Game, st: State)
    requires HandInv(g, st) && st.seats[st.toAct.value].value.streetCommit < st.currentBet
    ensures var p := st.seats[st.toAct.value].value;
      Act(g, st, p.playerId, PlayerAction(Raise, st.currentBet + st.lastRaise)).Ok?
      <==> p.stack + p.streetCommit >= st.currentBet + st.lastRaise
  {
    hide Act, Closed, Covered, Prefix, OptionLast, Level;
    ActAcceptedIff(g, st, st.seats[st.toAct.value].value.playerId, PlayerAction(Raise, st.currentBet + st.lastRaise));
  }

  /**
   * When the turn next comes to a player who could act before a short all-in, wherever they sit and whatever the others
   * have done meanwhile, they have the chips they had, and the least full raise is accepted exactly when those reach it.
   */
  lemma ReopenedRaiseAccepted(g: Game, st: State, id: PlayerId, action: PlayerAction, moves: seq<Move>, k: nat)
    requires HandInv(g, st) && RaisesShort(st, Applied(g, st, action)) && Act(g, st, id, action).Ok?
    requires k < |st.seats| && k != st.toAct.value && CanAct(st.seats[k]) && NotBy(moves, st.seats[k].value.playerId)
    requires HandOrPaid(g, Act(g, st, id, action).value)
    requires var end := Run(g, Act(g, st, id, action).value, moves);
      HandInv(g, end) && end.street == st.street && end.toAct == Some(k)
    ensures var end := Run(g, Act(g, st, id, action).value, moves); var p := st.seats[k].value;
      && SameButMark(st.seats[k], end.seats[k])
      && (Act(g, end, p.playerId, PlayerAction(Raise, end.currentBet + end.lastRaise)).Ok?
          <==> p.stack + p.streetCommit >= end.currentBet + end.lastRaise)
  {
    hide HandInv, Act, Applied, RaisesShort;
    HandActs(g, st);
    var next := Act(g, st, id, action).value;
    RunStreet(g, next, moves);
    StreetOnlyLater(g, st, id, action);
    AllInLeaves(g, st, id, action, k);
    RunKeepsOthers(g, next, moves, k);
    RaiseTaken(g, Run(g, next, moves));
  }

  lemma AllInLeaves(g: Game, st: State, id: PlayerId, action: PlayerAction, k: nat)
    requires HandInv(g, st) && RaisesShort(st, Applied(g, st, action)) && Act(g, st, id, action).Ok?
    requires k < |st.seats| && k != st.toAct.value && CanAct(st.seats[k])
    requires var next := Act(g, st, id, action).value; HandInv(g, next) && next.street == st.street
    ensures var next := Act(g, st, id, action).value;
      && |next.seats| == |st.seats| && next.seats[k] == st.seats[k] && st.seats[k].value.streetCommit < next.currentBet
  {
    ActOnly(g, st, id, action);
    ActedMayRaise(g, st, action, k);
    hide Act, Apply, Closed, InTurn, Covered, Level;
    assert SaneSeat(st.seats[k], st.currentBet);
  }

  // ---------------------------------------------------------------- a hand in which it happens

  const STAKES := Config(3, 50, 100, 100, 10_000, 0.0, 0, false)

  /** Three players who have just sat down, the first with 250 and the others with 1000. */
  function Arrived(g: Game): State {
    NewTable(g).(seats := [Some(NewSeat(1, 250)), Some(NewSeat(2, 1000)), Some(NewSeat(3, 1000))])
  }

  /** A player of the hand: the deal starts with the second seat, the button being at the first. */
  function Player(seat: nat, stack: nat, street: nat, hand: nat, acted: bool, deck: seq<Card>): Slot
    requires |deck| == DECK_SIZE && seat < 3
  {
    var k := if seat == 0 then 2 else seat - 1;
    Some(Seat(seat + 1, stack, street, hand, false, stack == 0, false, [deck[k], deck[3 + k]], acted))
  }

  function Table3(deck: seq<Card>, street: Street, toAct: nat, bet: nat, a: Slot, b: Slot, c: Slot): State
    requires |deck| == DECK_SIZE
  {
    State(street, 1, Some(0), Some(toAct), bet, 100, [a, b, c], BoardAt(deck, 3, street), BurnsAt(deck, 3, street),
          deck, CursorAt(3, street), !street.Preflop?, false, [], 0)
  }

  function Dealt3(deck: seq<Card>): State
    requires |deck| == DECK_SIZE
  {
    Table3(deck, Preflop, 0, 100,
      Player(0, 250, 0, 0, false, deck), Player(1, 950, 50, 50, false, deck), Player(2, 900, 100, 100, false, deck))
  }

  function FirstCalls(deck: seq<Card>): State
    requires |deck| == DECK_SIZE
  {
    Table3(deck, Preflop, 1, 100,
      Player(0, 150, 100, 100, true, deck), Player(1, 950, 50, 50, false, deck), Player(2, 900, 100, 100, false, deck))
  }

  function SecondCalls(deck: seq<Card>): State
    requires |deck| == DECK_SIZE
  {
    Table3(deck, Preflop, 2, 100,
      Player(0, 150, 100, 100, true, deck), Player(1, 900, 100, 100, true, deck), Player(2, 900, 100, 100, false, deck))
  }

  function AllCheck(deck: seq<Card>): State
    requires |deck| == DECK_SIZE
  {
    Table3(deck, Flop, 1, 0,
      Player(0, 150, 0, 100, false, deck), Player(1, 900, 0, 100, false, deck), Player(2, 900, 0, 100, false, deck))
  }

  function AfterBet(deck: seq<Card>): State
    requires |deck| == DECK_SIZE
  {
    Table3(deck, Flop, 2, 100,
      Player(0, 150, 0, 100, false, deck), Player(1, 800, 100, 200, true, deck), Player(2, 900, 0, 100, false, deck))
  }

  function AfterCall(deck: seq<Card>): State
    requires |deck| == DECK_SIZE
  {
    Table3(deck, Flop, 0, 100,
      Player(0, 150, 0, 100, false, deck), Player(1, 800, 100, 200, true, deck), Player(2, 800, 100, 200, true, deck))
  }

  function AfterAllIn(deck: seq<Card>): State
    requires |deck| == DECK_SIZE
  {
    Table3(deck, Flop, 1, 150,
      Player(0, 0, 150, 250, true, deck), Player(1, 800, 100, 200, true, deck), Player(2, 800, 100, 200, true, deck))
  }

  // ---------------------------------------------------------------- the deal

  lemma ThreeSit(g: Game)
    requires g.cfg == STAKES
    ensures var one := NewTable(g).(seats := [Some(NewSeat(1, 250)), None, None]);
      var two := NewTable(g).(seats := [Some(NewSeat(1, 250)), Some(NewSeat(2, 1000)), None]);
      && Sit(g, NewTable(g), 1, 250, None) == Ok(one) && Sit(g, one, 2, 1000, None) == Ok(two)
      && Sit(g, two, 3, 1000, None) == Ok(Arrived(g))
  {
    var empty := NewTable(g);
    var one := empty.(seats := [Some(NewSeat(1, 250)), None, None]);
    var two := empty.(seats := [Some(NewSeat(1, 250)), Some(NewSeat(2, 1000)), None]);
    assert empty.seats == [None, None, None];
    SitsAt(g, empty, 1, 250, 0);
    assert empty.seats[0 := Some(NewSeat(1, 250))] == one.seats;
    SitsAt(g, one, 2, 1000, 1);
    assert one.seats[1 := Some(NewSeat(2, 1000))] == two.seats;
    SitsAt(g, two, 3, 1000, 2);
    assert two.seats[2 := Some(NewSeat(3, 1000))] == Arrived(g).seats;
  }

  lemma SitsAt(g: Game, st: State, id: PlayerId, buyIn: nat, k: nat)
    requires st.street.Waiting? && !st.awaiting && k < |st.seats| && st.seats[k].None?
    requires g.cfg.minBuyIn <= buyIn <= g.cfg.maxBuyIn
    requires forall i: nat :: i < |st.seats| && st.seats[i].Some? ==> st.seats[i].value.playerId != id
    requires forall i: nat :: i < k ==> st.seats[i].Some?
    ensures Sit(g, st, id, buyIn, None) == Ok(st.(seats := st.seats[k := Some(NewSeat(id, buyIn))]))
  {
    FindNone(st.seats, id);
    FirstEmptyAt(st.seats, k);
  }

  lemma {:induction false} FirstEmptyAt(seats: seq<Slot>, k: nat)
    requires k < |seats| && seats[k].None? && forall i: nat :: i < k ==> seats[i].Some?
    ensures FirstEmpty(seats) == Some(k)
  {
    if k > 0 {
      assert seats[0].Some?;
      FirstEmptyAt(seats[1..], k - 1);
    }
  }

  lemma ThreeLive(seats: seq<Slot>)
    requires |seats| == 3 && Live(seats[0]) && Live(seats[1]) && Live(seats[2])
    ensures |LiveSet(seats)| == 3 && SmallBlindSeat(seats, 0) == 1 && BigBlindSeat(seats, 0) == 2
    ensures DealOrder(seats, 0, 1) == [1, 2, 0]
  {
    assert LiveSet(seats) == {0, 1, 2};
    NextUnique(seats, 0, Live, 1);
    NextUnique(seats, 1, Live, 2);
    OrderStep(seats, 0, 1);
    OrderStep(seats, 0, 2);
    OrderStep(seats, 0, 3);
    OrderEnd(seats, 0);
    assert [2] + [0] == [2, 0] && [1] + [2, 0] == [1, 2, 0];
  }

  /** The seats with the blinds in, before the cards. */
  function Blinds3(): seq<Slot> {
    [Some(Seat(1, 250, 0, 0, false, false, false, [], false)), Some(Seat(2, 950, 50, 50, false, false, false, [], false)),
     Some(Seat(3, 900, 100, 100, false, false, false, [], false))]
  }

  lemma BlindsIn(g: Game)
    requires g.cfg == STAKES
    ensures var reset := MapSeats(Arrived(g).seats, FreshHand);
      reset == Arrived(g).seats && NextButton(reset, None) == 0 && Blinded(g, reset, 0) == Blinds3()
  {
    var reset := MapSeats(Arrived(g).seats, FreshHand);
    assert reset == Arrived(g).seats;
    ThreeLive(reset);
  }

  lemma CardsIn(deck: seq<Card>)
    requires |deck| == DECK_SIZE
    ensures DealHoles(Blinds3(), [1, 2, 0], deck) == Dealt3(deck).seats
  {
    hide DealHoles;
    HolesAt(Blinds3(), [1, 2, 0], deck, 1, 0);
    HolesAt(Blinds3(), [1, 2, 0], deck, 2, 1);
    HolesAt(Blinds3(), [1, 2, 0], deck, 0, 2);
  }

  lemma Starts3(g: Game, deck: seq<Card>)
    requires g.cfg == STAKES && |deck| == DECK_SIZE
    ensures StartHand(g, Arrived(g), deck) == Ok(Dealt3(deck))
  {
    hide DealHoles, Blinded, DealOrder, MapSeats, NextButton, NextStreet, Closed, SmallBlindSeat, Next, ReadySet;
    BlindsIn(g);
    ThreeLive(Blinds3());
    CardsIn(deck);
    var st := Arrived(g);
    var seats := Dealt3(deck).seats;
    TwoReady(st.seats, 0, 1);
    NextUnique(seats, 2, CanAct, 0);
    TwoOpen(seats, 100, 0, 1);
    ThreeLive(st.seats);
    assert Opened(g, st, deck) == Dealt3(deck);
  }

  // ---------------------------------------------------------------- the play

  lemma PassesTo(g: Game, st: State, from: nat, to: nat, i: nat, j: nat)
    requires Running(g, st) && from < |st.seats| && IsNext(st.seats, from, 1, CanAct, to)
    requires i < j < |st.seats| && CanAct(st.seats[i]) && CanAct(st.seats[j])
    requires Owes(st.seats[i], st.currentBet) || Owes(st.seats[j], st.currentBet)
    ensures Advance(g, st, from) == st.(toAct := Some(to))
  {
    TwoOpen(st.seats, st.currentBet, i, j);
    NextUnique(st.seats, from, CanAct, to);
  }

  lemma FirstCallStep(g: Game, deck: seq<Card>)
    requires g.cfg == STAKES && |deck| == DECK_SIZE
    ensures Act(g, Dealt3(deck), 1, PlayerAction(Call, 0)) == Ok(FirstCalls(deck))
  {
    hide Advance, Closed;
    var st, next := Dealt3(deck), FirstCalls(deck).(toAct := Some(0));
    assert After(st.seats, 0, Applied(g, st, PlayerAction(Call, 0))) == next.seats;
    PassesTo(g, next, 0, 1, 1, 2);
  }

  lemma SecondCallStep(g: Game, deck: seq<Card>)
    requires g.cfg == STAKES && |deck| == DECK_SIZE
    ensures Act(g, FirstCalls(deck), 2, PlayerAction(Call, 0)) == Ok(SecondCalls(deck))
  {
    hide Advance, Closed;
    var st, next := FirstCalls(deck), SecondCalls(deck).(toAct := Some(1));
    FindUnique(st.seats, 1);
    assert After(st.seats, 1, Applied(g, st, PlayerAction(Call, 0))) == next.seats;
    PassesTo(g, next, 1, 2, 1, 2);
  }

  /** Everybody has put in the big blind and acted. */
  function Matched3(deck: seq<Card>): seq<Slot>
    requires |deck| == DECK_SIZE
  {
    [Player(0, 150, 100, 100, true, deck), Player(1, 900, 100, 100, true, deck), Player(2, 900, 100, 100, true, deck)]
  }

  lemma MatchedCloses(deck: seq<Card>)
    requires |deck| == DECK_SIZE
    ensures |LiveSet(Matched3(deck))| == 3 && |ActorSet(Matched3(deck))| == 3 && Closed(Matched3(deck), 100)
  {
    hide SmallBlindSeat, BigBlindSeat, DealOrder;
    var seats := Matched3(deck);
    ThreeLive(seats);
    assert ActorSet(seats) == {0, 1, 2} && OwerSet(seats, 100) == {};
  }

  lemma CheckCloses(g: Game, deck: seq<Card>)
    requires g.cfg == STAKES && |deck| == DECK_SIZE
    ensures var st := SecondCalls(deck).(seats := Matched3(deck)); Running(g, st) && Advance(g, st, 2) == AllCheck(deck)
  {
    hide DoShowdown, RunOut, AwardUncontested, LiveSet, ActorSet, Closed;
    MatchedCloses(deck);
    assert MapSeats(Matched3(deck), FreshStreet) == AllCheck(deck).seats;
    NextUnique(AllCheck(deck).seats, 0, CanAct, 1);
  }

  lemma CheckStep(g: Game, deck: seq<Card>)
    requires g.cfg == STAKES && |deck| == DECK_SIZE
    ensures Act(g, SecondCalls(deck), 3, PlayerAction(Check, 0)) == Ok(AllCheck(deck))
  {
    hide Advance, Closed;
    var st := SecondCalls(deck);
    FindUnique(st.seats, 2);
    assert After(st.seats, 2, Applied(g, st, PlayerAction(Check, 0)))
        == Matched3(deck);
    CheckCloses(g, deck);
  }

  lemma BetStep(g: Game, deck: seq<Card>)
    requires g.cfg == STAKES && |deck| == DECK_SIZE
    ensures Act(g, AllCheck(deck), 2, PlayerAction(Bet, 100)) == Ok(AfterBet(deck))
  {
    hide Advance, Closed;
    var st, next := AllCheck(deck), AfterBet(deck).(toAct := Some(1));
    FindUnique(st.seats, 1);
    assert After(st.seats, 1, Applied(g, st, PlayerAction(Bet, 100))) == next.seats;
    PassesTo(g, next, 1, 2, 1, 2);
  }

  lemma CallStep(g: Game, deck: seq<Card>)
    requires g.cfg == STAKES && |deck| == DECK_SIZE
    ensures Act(g, AfterBet(deck), 3, PlayerAction(Call, 0)) == Ok(AfterCall(deck))
  {
    hide Advance, Closed;
    var st, next := AfterBet(deck), AfterCall(deck).(toAct := Some(2));
    FindUnique(st.seats, 2);
    assert After(st.seats, 2, Applied(g, st, PlayerAction(Call, 0))) == next.seats;
    PassesTo(g, next, 2, 0, 0, 1);
  }

  lemma AllInStep(g: Game, deck: seq<Card>)
    requires g.cfg == STAKES && |deck| == DECK_SIZE
    ensures Act(g, AfterCall(deck), 1, PlayerAction(AllIn, 0)) == Ok(AfterAllIn(deck))
    ensures RaisesShort(AfterCall(deck), Applied(g, AfterCall(deck), PlayerAction(AllIn, 0)))
  {
    hide Advance, Closed;
    var st, next := AfterCall(deck), AfterAllIn(deck).(toAct := Some(0));
    assert After(st.seats, 0, Applied(g, st, PlayerAction(AllIn, 0))) == next.seats;
    PassesTo(g, next, 0, 1, 1, 2);
  }

  // ---------------------------------------------------------------- the whole of it

  function ToTheFlop(deck: seq<Card>): seq<Command> {
    [SitDown(1, 250, None), SitDown(2, 1000, None), SitDown(3, 1000, None), Start(deck), Do(Move(1, PlayerAction(Call, 0))),
     Do(Move(2, PlayerAction(Call, 0))), Do(Move(3, PlayerAction(Check, 0))), Do(Move(2, PlayerAction(Bet, 100))),
     Do(Move(3, PlayerAction(Call, 0)))]
  }

  lemma SessionStep(g: Game, st: State, cs: seq<Command>, next: State)
    requires TableInv(g, st) && cs != [] && forall i :: 0 <= i < |cs| ==> GoodCommand(cs[i])
    requires Shaped(g, st) && Exec(g, st, cs[0]) == next
    ensures TableInv(g, next) && Session(g, st, cs) == Session(g, next, cs[1..])
  {
    hide TableInv, Exec;
    ExecKeeps(g, st, cs[0]);
  }

  lemma SitsInSession(g: Game, st: State, cs: seq<Command>, next: State)
    requires TableInv(g, st) && cs != [] && (forall i :: 0 <= i < |cs| ==> GoodCommand(cs[i])) && cs[0].SitDown?
    requires Sit(g, st, cs[0].player, cs[0].buyIn, cs[0].seat) == Ok(next)
    ensures TableInv(g, next) && Session(g, st, cs) == Session(g, next, cs[1..])
  {
    hide TableInv, Sit;
    InvShaped(g, st);
    SessionStep(g, st, cs, next);
  }

  lemma StartsInSession(g: Game, st: State, cs: seq<Command>, next: State)
    requires TableInv(g, st) && Shaped(g, st) && cs != [] && (forall i :: 0 <= i < |cs| ==> GoodCommand(cs[i])) && cs[0].Start?
    requires |cs[0].deck| == DECK_SIZE && StartHand(g, st, cs[0].deck) == Ok(next)
    ensures TableInv(g, next) && Session(g, st, cs) == Session(g, next, cs[1..])
  {
    hide TableInv, StartHand;
    SessionStep(g, st, cs, next);
  }

  lemma ActsInSession(g: Game, st: State, cs: seq<Command>, next: State)
    requires TableInv(g, st) && Shaped(g, st) && cs != [] && (forall i :: 0 <= i < |cs| ==> GoodCommand(cs[i])) && cs[0].Do?
    requires Act(g, st, cs[0].move.playerId, cs[0].move.action) == Ok(next)
    ensures TableInv(g, next) && Session(g, st, cs) == Session(g, next, cs[1..])
  {
    hide TableInv, Act;
    SessionStep(g, st, cs, next);
  }

  lemma InOrder(g: Game, st: State)
    requires TableInv(g, st)
    ensures Shaped(g, st) && (IsBetting(st.street) ==> HandInv(g, st))
  {
  }

  lemma ReachesFlop(g: Game, deck: seq<Card>)
    requires g.cfg == STAKES && |deck| == DECK_SIZE
    ensures TableInv(g, NewTable(g)) && TableInv(g, Dealt3(deck))
    ensures forall i :: 0 <= i < |ToTheFlop(deck)| ==> GoodCommand(ToTheFlop(deck)[i])
    ensures Session(g, NewTable(g), ToTheFlop(deck)) == Session(g, Dealt3(deck), ToTheFlop(deck)[4..])
  {
    hide TableInv, Sit, StartHand, Session, NewTable, Arrived, Dealt3, GoodConfig;
    Fresh3(g);
    ThreeSit(g);
    Starts3(g, deck);
    var cs := ToTheFlop(deck);
    var one := NewTable(g).(seats := [Some(NewSeat(1, 250)), None, None]);
    var two := NewTable(g).(seats := [Some(NewSeat(1, 250)), Some(NewSeat(2, 1000)), None]);
    SitsInSession(g, NewTable(g), cs, one);
    SitsInSession(g, one, cs[1..], two);
    SitsInSession(g, two, cs[2..], Arrived(g));
    InOrder(g, Arrived(g));
    StartsInSession(g, Arrived(g), cs[3..], Dealt3(deck));
    assert cs[1..][1..] == cs[2..] && cs[2..][1..] == cs[3..] && cs[3..][1..] == cs[4..];
  }

  lemma Fresh3(g: Game)
    requires g.cfg == STAKES
    ensures TableInv(g, NewTable(g))
  {
    NewTableInv(g);
  }

  lemma PlaysFlop(g: Game, deck: seq<Card>)
    requires g.cfg == STAKES && |deck| == DECK_SIZE && TableInv(g, Dealt3(deck))
    ensures forall i :: 0 <= i < |ToTheFlop(deck)| ==> GoodCommand(ToTheFlop(deck)[i])
    ensures TableInv(g, AfterCall(deck)) && Session(g, Dealt3(deck), ToTheFlop(deck)[4..]) == AfterCall(deck)
  {
    hide TableInv, Act, Dealt3, FirstCalls, SecondCalls, AllCheck, AfterBet, AfterCall;
    FirstCallStep(g, deck);
    SecondCallStep(g, deck);
    CheckStep(g, deck);
    BetStep(g, deck);
    CallStep(g, deck);
    var cs := ToTheFlop(deck);
    InOrder(g, Dealt3(deck));
    ActsInSession(g, Dealt3(deck), cs[4..], FirstCalls(deck));
    InOrder(g, FirstCalls(deck));
    ActsInSession(g, FirstCalls(deck), cs[5..], SecondCalls(deck));
    InOrder(g, SecondCalls(deck));
    ActsInSession(g, SecondCalls(deck), cs[6..], AllCheck(deck));
    InOrder(g, AllCheck(deck));
    ActsInSession(g, AllCheck(deck), cs[7..], AfterBet(deck));
    InOrder(g, AfterBet(deck));
    ActsInSession(g, AfterBet(deck), cs[8..], AfterCall(deck));
    assert cs[4..][1..] == cs[5..] && cs[5..][1..] == cs[6..] && cs[6..][1..] == cs[7..] && cs[7..][1..] == cs[8..] && cs[8..][1..] == [];
  }

  /** The least raise over the all-in is 250 in all, and the second player has 900. */
  lemma RaiseOnOffer(g: Game, deck: seq<Card>)
    requires g.cfg == STAKES && |deck| == DECK_SIZE
    ensures var st := AfterAllIn(deck); var p := st.seats[1].value;
      && p.playerId == 2 && p.acted && st.toAct == Some(1) && st.street.Flop?
      && Offer(g.cfg, p, 150, 100, Raise) == Some(LegalAction(Raise, 250, 900))
  {
  }

  /**
   * From a new table: three players sit down, all see the flop, the second bets 100, the third calls, and the first is
   * all-in for 150. It is the second player's turn again, and although they have acted and were not raised in full, they
   * may raise to 250.
   */
  lemma BetCallShortAllIn(g: Game, deck: seq<Card>)
    requires g.cfg == STAKES && |deck| == DECK_SIZE
    ensures TableInv(g, NewTable(g)) && forall i :: 0 <= i < |ToTheFlop(deck)| ==> GoodCommand(ToTheFlop(deck)[i])
    ensures var st := Session(g, NewTable(g), ToTheFlop(deck));
      && HandInv(g, st) && RaisesShort(st, Applied(g, st, PlayerAction(AllIn, 0)))
      && Act(g, st, 1, PlayerAction(AllIn, 0)) == Ok(AfterAllIn(deck))
    ensures var st := AfterAllIn(deck);
      && HandInv(g, st) && st.toAct == Some(1) && st.seats[1].value.acted
      && Act(g, st, 2, PlayerAction(Raise, 250)).Ok?
  {
    hide HandInv, TableInv, Act, Applied, RaisesShort, Session, NewTable, ToTheFlop, AfterCall, Dealt3, GoodCommand;
    ReachesFlop(g, deck);
    PlaysFlop(g, deck);
    InOrder(g, AfterCall(deck));
    CallFlop(deck);
    AllInStep(g, deck);
    ActKeeps(g, AfterCall(deck), 1, PlayerAction(AllIn, 0));
    StillBetting(g, AfterAllIn(deck));
    RaiseOnOffer(g, deck);
    ActAcceptedIff(g, AfterAllIn(deck), 2, PlayerAction(Raise, 250));
  }

  lemma CallFlop(deck: seq<Card>)
    requires |deck| == DECK_SIZE
    ensures AfterCall(deck).street.Flop?
  {
  }

  lemma StillBetting(g: Game, st: State)
    requires HandOrPaid(g, st) && IsBetting(st.street)
    ensures HandInv(g, st)
  {
  }
}
