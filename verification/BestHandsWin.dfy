/** The rules of the table and the evaluator together: at showdown the chips go to the best poker hands. */
module BestHandsWin {
  import opened Common
  import opened Cards
  import opened Pots
  import opened Seats
  import opened Betting
  import opened HandRules
  import opened ShowdownProofs
  import opened HandInvariant
  import opened HandRuns
  import opened HandStart
  import opened BestOfSeven

  /** With m dealt in, a player holds deck cards k and m + k for some k. */
  predicate HoldsDealt(hole: seq<Card>, deck: seq<Card>, m: nat) {
    2 * m <= |deck| && exists k: nat :: k < m && hole == [deck[k], deck[m + k]]
  }

  /** Every hand dealt comes from the top of the deck. */
  ghost predicate DealtFromDeck(st: State) {
    forall i: nat :: i in DealtIn(st.seats) ==> HoldsDealt(st.seats[i].value.hole, st.deck, |DealtIn(st.seats)|)
  }

  lemma InStartOrder(g: Game, st: State, deck: seq<Card>, i: nat)
    requires IdleInv(g, st) && |deck| == DECK_SIZE && |ReadySet(st.seats)| >= 2
    requires NextButton(MapSeats(st.seats, FreshHand), st.button) < |st.seats|
    requires i in DealtIn(Opened(g, st, deck).seats)
    ensures i in StartOrder(g, st) && |StartOrder(g, st)| == |DealtIn(Opened(g, st, deck).seats)|
  {
    hide Opened, DealHoles;
    var reset := MapSeats(st.seats, FreshHand);
    var b := NextButton(reset, st.button);
    OpenedCards(g, st, deck);
    ResetFresh(g, st);
    ButtonLive(g, st);
    BlindedLive(g, reset, b);
    assert i in LiveSet(reset);
    BlindedSeat(g, reset, b, i);
    DealOrderAll(Blinded(g, reset, b), b);
  }

  lemma OpenedFromDeck(g: Game, st: State, deck: seq<Card>)
    requires IdleInv(g, st) && |deck| == DECK_SIZE && |ReadySet(st.seats)| >= 2
    requires NextButton(MapSeats(st.seats, FreshHand), st.button) < |st.seats|
    ensures DealtFromDeck(Opened(g, st, deck))
  {
    hide StartOrder;
    var dealt := Opened(g, st, deck);
    OpenedCards(g, st, deck);
    forall i: nat | i in DealtIn(dealt.seats)
      ensures HoldsDealt(dealt.seats[i].value.hole, deck, |DealtIn(dealt.seats)|)
    {
      InStartOrder(g, st, deck, i);
      var k: nat :| k < |StartOrder(g, st)| && StartOrder(g, st)[k] == i;
      OpenedHoles(g, st, deck, k);
    }
  }

  lemma DealKept(a: State, b: State)
    requires SameDeal(a, b) && DealtFromDeck(a)
    ensures DealtFromDeck(b)
  {
    SameDealKeeps(a, b);
    forall i: nat | i in DealtIn(b.seats)
      ensures HoldsDealt(b.seats[i].value.hole, b.deck, |DealtIn(b.seats)|)
    {
      assert SameHole(a.seats[i], b.seats[i]);
      assert i in DealtIn(a.seats);
    }
  }

  /** From the start of a hand, whatever is played, every hand held comes from the top of the deck. */
  lemma RunFromDeck(g: Game, st: State, deck: seq<Card>, moves: seq<Move>)
    requires IdleInv(g, st) && |deck| == DECK_SIZE && StartHand(g, st, deck).Ok?
    ensures HandOrPaid(g, StartHand(g, st, deck).value)
    ensures var end := Run(g, StartHand(g, st, deck).value, moves); end.deck == deck && DealtFromDeck(end)
  {
    hide Opened, HandOrPaid, StartHand;
    StartsReady(g, st, deck);
    var start := StartHand(g, st, deck).value;
    StartHandSafe(g, st, deck);
    StartKeepsDeal(g, st, deck);
    OpenedFromDeck(g, st, deck);
    DealKept(Opened(g, st, deck), start);
    RunSafe(g, start, moves);
    DealKept(start, Run(g, start, moves));
  }

  lemma StartsReady(g: Game, st: State, deck: seq<Card>)
    requires IdleInv(g, st) && |deck| == DECK_SIZE && StartHand(g, st, deck).Ok?
    ensures |ReadySet(st.seats)| >= 2 && NextButton(MapSeats(st.seats, FreshHand), st.button) < |st.seats|
    ensures |Opened(g, st, deck).seats| == |st.seats|
  {
    FreshReady(st.seats);
    ButtonInRange(MapSeats(st.seats, FreshHand), st.button);
  }

  // ---------------------------------------------------------------- the seven cards

  function Seven(seats: seq<Slot>, board: seq<Card>, id: PlayerId): seq<Card>
    requires FindSeat(seats, id).Some?
  {
    seats[FindSeat(seats, id).value].value.hole + board
  }

  lemma EligibleSeven(g: Game, st: State, base: nat, j: nat, id: PlayerId)
    requires Settled(g, st, base) && DealtFromDeck(st) && Distinct(st.deck)
    requires j < |ShowdownPots(RunOut(st))| && id in ShowdownPots(RunOut(st))[j].eligible
    ensures FindSeat(st.seats, id).Some? && Distinct(Seven(st.seats, RunOut(st).board, id))
    ensures |Seven(st.seats, RunOut(st).board, id)| == 7
  {
    hide ShowdownPots, RunOut, Settled;
    SettledCards(g, st, base);
    var m := |DealtIn(st.seats)|;
    assert SameFaces(st.seats, st.seats);
    EligibleSeated(RunOut(st), st.seats, j, id);
    var i := FindSeat(st.seats, id).value;
    assert i in DealtIn(st.seats);
  }

  lemma SettledCards(g: Game, st: State, base: nat)
    requires Settled(g, st, base)
    ensures var m := |DealtIn(st.seats)|;
      && 2 * m + 8 <= |st.deck| && DistinctPlayers(st.seats) && HolesDealt(st.seats) && DeckReady(st)
      && RunOut(st).seats == st.seats && RunOut(st).board == BoardAt(st.deck, m, River)
  {
    RunOutCards(st, |DealtIn(st.seats)|);
  }

  lemma ValuesCompare(a: seq<Card>, b: seq<Card>, holeA: seq<Card>, holeB: seq<Card>, board: seq<Card>)
    requires a == holeA + board && b == holeB + board && |a| == |b| == 7 && Distinct(a) && Distinct(b)
    ensures HoldemValue(holeA, board) < HoldemValue(holeB, board) <==> Outclassed(a, b)
  {
    HoldemValueIsBest(holeA, board);
    HoldemValueIsBest(holeB, board);
    ValueOrderIsPoker(a, b, HoldemValue(holeA, board), HoldemValue(holeB, board));
  }

  /** Nobody who may win the pot outclasses this player: no five of theirs beat every five of his. */
  ghost predicate Unbeaten(st: State, pot: Pot, id: PlayerId)
    requires forall p :: p in pot.eligible ==> FindSeat(st.seats, p).Some?
    requires id in pot.eligible
  {
    forall other :: other in pot.eligible ==> !Outclassed(Seven(st.seats, st.board, id), Seven(st.seats, st.board, other))
  }

  /**
   * With the program's evaluator and a deck of different cards, the winners of each pot are exactly the
   * eligible players whose best five cards, by the rules of poker, nobody eligible beats.
   */
  lemma PotGoesToBestHands(g: Game, st: State, base: nat, j: nat, id: PlayerId)
    requires g.value == HoldemValue && Settled(g, st, base) && DealtFromDeck(st) && Distinct(st.deck)
    requires j < |ShowdownPots(RunOut(st))| && id in ShowdownPots(RunOut(st))[j].eligible
    ensures forall p :: p in ShowdownPots(RunOut(st))[j].eligible ==> FindSeat(RunOut(st).seats, p).Some?
    ensures var end := RunOut(st); var pot := ShowdownPots(end)[j];
      id in PotWinners(g, end.seats, end.board, pot) <==> Unbeaten(end, pot, id)
  {
    hide ShowdownPots, RunOut, Settled, HoldemValue, Outclassed, Seven;
    SettledCards(g, st, base);
    var end := RunOut(st);
    var pot := ShowdownPots(end)[j];
    forall p | p in pot.eligible
      ensures FindSeat(end.seats, p).Some?
    {
      EligibleSeven(g, st, base, j, p);
    }
    WinnersAreBest(g, end, pot);
    forall other | other in pot.eligible
      ensures HandValue(g, end.seats, end.board, id) < HandValue(g, end.seats, end.board, other)
        <==> Outclassed(Seven(end.seats, end.board, id), Seven(end.seats, end.board, other))
    {
      PairCompares(g, st, base, j, id, other);
    }
  }

  lemma PairCompares(g: Game, st: State, base: nat, j: nat, id: PlayerId, other: PlayerId)
    requires g.value == HoldemValue && Settled(g, st, base) && DealtFromDeck(st) && Distinct(st.deck)
    requires j < |ShowdownPots(RunOut(st))| && id in ShowdownPots(RunOut(st))[j].eligible
    requires other in ShowdownPots(RunOut(st))[j].eligible
    ensures RunOut(st).seats == st.seats && FindSeat(st.seats, id).Some? && FindSeat(st.seats, other).Some?
    ensures var end := RunOut(st);
      HandValue(g, end.seats, end.board, id) < HandValue(g, end.seats, end.board, other)
      <==> Outclassed(Seven(end.seats, end.board, id), Seven(end.seats, end.board, other))
  {
    hide ShowdownPots, RunOut, Settled, HoldemValue, Outclassed;
    SettledCards(g, st, base);
    EligibleSeven(g, st, base, j, id);
    EligibleSeven(g, st, base, j, other);
    var board := RunOut(st).board;
    var a, b := FindSeat(st.seats, id).value, FindSeat(st.seats, other).value;
    ValuesCompare(Seven(st.seats, board, id), Seven(st.seats, board, other), st.seats[a].value.hole, st.seats[b].value.hole, board);
  }
}
