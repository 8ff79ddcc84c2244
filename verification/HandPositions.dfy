/** Who has the button, who posts which blind and who acts first, hand after hand. */
module HandPositions {
  import opened Common
  import opened Cards
  import opened Seats
  import opened Betting
  import opened HandRules
  import opened HandInvariant
  import opened HandRuns
  import opened HandStart
  import opened TableSession
  import opened ActionRules

  /** The button moves on to the next player dealt in; the first button goes to the first occupied seat. */
  ghost predicate ButtonAt(button: Option<nat>, seats: seq<Slot>, c: nat)
    requires button.Some? ==> button.value < |seats|
  {
    match button
    case Some(b) => c != b && IsNext(seats, b, 1, Ready, c)
    case None => c < |seats| && seats[c].Some? && forall i :: 0 <= i < c ==> seats[i].None?
  }

  /** Of two players the button posts the small blind; otherwise the next two players post. */
  ghost predicate BlindsAt(seats: seq<Slot>, c: nat, sb: nat, bb: nat)
    requires c < |seats|
  {
    && (if |ReadySet(seats)| == 2 then sb == c else IsNext(seats, c, 1, Ready, sb))
    && sb < |seats| && sb != bb && IsNext(seats, sb, 1, Ready, bb)
  }

  function BlindAt(cfg: Config, sb: nat, bb: nat, i: nat): nat {
    if i == sb then cfg.smallBlind else if i == bb then cfg.bigBlind else 0
  }

  /** A seat after the blinds: players with chips are in, for their blind or what they have; others sit the hand out. */
  predicate SeatedIn(before: Slot, after: Slot, blind: nat) {
    match before
    case None => after.None?
    case Some(p) =>
      && after.Some?
      && var q := after.value;
      && q.playerId == p.playerId && q.folded == (p.stack == 0) && !q.acted
      && q.streetCommit == q.handCommit == Min(blind, p.stack) && q.stack == p.stack - q.handCommit
      && q.allIn == (blind > 0 && q.stack == 0)
      && |q.hole| == if q.folded then 0 else 2
  }

  /** A hand as dealt: the next in number, two cards each, the blinds in and the big blind to match. */
  ghost predicate DealtHand(g: Game, idle: State, c: nat, sb: nat, bb: nat, deck: seq<Card>, dealt: State) {
    && dealt.street.Preflop? && dealt.handId == idle.handId + 1 && dealt.button == Some(c)
    && dealt.currentBet == dealt.lastRaise == g.cfg.bigBlind && dealt.board == [] && dealt.deck == deck
    && |dealt.seats| == |idle.seats|
    && forall i: nat :: i < |idle.seats| ==> SeatedIn(idle.seats[i], dealt.seats[i], BlindAt(g.cfg, sb, bb, i))
  }

  // ---------------------------------------------------------------- from the seats as reset to the seats as they were

  lemma SameNext(a: seq<Slot>, b: seq<Slot>, who: Slot -> bool, whom: Slot -> bool, from: nat, j: nat)
    requires |a| == |b| && from < |a| && forall i: nat :: i < |a| ==> who(a[i]) == whom(b[i])
    ensures IsNext(a, from, 1, who, j) <==> IsNext(b, from, 1, whom, j)
  {
  }

  lemma ResetReadyAt(seats: seq<Slot>)
    ensures var reset := MapSeats(seats, FreshHand);
      forall i: nat :: i < |seats| ==> (Ready(reset[i]) <==> Ready(seats[i])) && (Live(reset[i]) <==> Ready(seats[i]))
  {
  }

  lemma {:induction false} FirstTakenFirst(seats: seq<Slot>, i: nat)
    requires i < FirstTaken(seats)
    ensures i < |seats| && seats[i].None?
  {
    if i > 0 {
      FirstTakenFirst(seats[1..], i - 1);
    }
  }

  lemma ButtonMoves(st: State)
    requires |ReadySet(st.seats)| >= 2 && (st.button.Some? ==> st.button.value < |st.seats|)
    ensures ButtonAt(st.button, st.seats, NextButton(MapSeats(st.seats, FreshHand), st.button))
  {
    var reset := MapSeats(st.seats, FreshHand);
    ResetReadyAt(st.seats);
    match st.button
    case None =>
      var i :| i in ReadySet(st.seats);
      FirstTakenIs(reset, i);
      forall i | 0 <= i < FirstTaken(reset)
        ensures st.seats[i].None?
      {
        FirstTakenFirst(reset, i);
      }
    case Some(b) =>
      var j := TwoMembers(ReadySet(st.seats), b);
      assert Ready(reset[j]);
      NextIs(reset, b, Ready);
      SameNext(reset, st.seats, Ready, Ready, b, Next(reset, b, Ready).value);
  }

  lemma BlindsFollow(seats: seq<Slot>, c: nat)
    requires |ReadySet(seats)| >= 2 && c < |seats| && Ready(seats[c])
    ensures var reset := MapSeats(seats, FreshHand); BlindsAt(seats, c, SmallBlindSeat(reset, c), BigBlindSeat(reset, c))
  {
    var reset := MapSeats(seats, FreshHand);
    ResetReadyAt(seats);
    FreshReady(seats);
    BlindSeats(reset, c);
    var sb, bb := SmallBlindSeat(reset, c), BigBlindSeat(reset, c);
    NextIs(reset, c, Live);
    NextIs(reset, sb, Live);
    SameNext(reset, seats, Live, Ready, c, sb);
    SameNext(reset, seats, Live, Ready, sb, bb);
  }

  lemma SeatIsIn(g: Game, st: State, r: Slot, s: Slot, i: nat, blind: nat)
    requires IdleInv(g, st) && i < |st.seats| && r == MapSlot(st.seats[i], FreshHand) && DealtSeat(r, s, blind)
    requires s.Some? ==> |s.value.hole| == if Live(s) then 2 else 0
    ensures SeatedIn(st.seats[i], s, blind)
  {
  }

  lemma HandIsDealt(g: Game, st: State, deck: seq<Card>)
    requires IdleInv(g, st) && |deck| == DECK_SIZE && |ReadySet(st.seats)| >= 2
    requires NextButton(MapSeats(st.seats, FreshHand), st.button) < |st.seats|
    ensures var reset := MapSeats(st.seats, FreshHand); var c := NextButton(reset, st.button);
      DealtHand(g, st, c, SmallBlindSeat(reset, c), BigBlindSeat(reset, c), deck, Opened(g, st, deck))
  {
    hide NextButton, SmallBlindSeat, BigBlindSeat, DealHoles, Blinded, DealOrder, Next, ReadySet, MapSeats;
    var reset := MapSeats(st.seats, FreshHand);
    var c := NextButton(reset, st.button);
    var dealt := Opened(g, st, deck);
    OpenedSeats(g, st, deck);
    ResetSeatIs(st.seats);
    forall i: nat | i < |st.seats|
      ensures SeatedIn(st.seats[i], dealt.seats[i], BlindAt(g.cfg, SmallBlindSeat(reset, c), BigBlindSeat(reset, c), i))
    {
      SeatIsIn(g, st, reset[i], dealt.seats[i], i, BlindOf(g, reset, c, i));
    }
  }

  lemma ResetSeatIs(seats: seq<Slot>)
    ensures forall i: nat :: i < |seats| ==> MapSeats(seats, FreshHand)[i] == MapSlot(seats[i], FreshHand)
  {
  }

  lemma FirstActs(g: Game, st: State, deck: seq<Card>)
    requires IdleInv(g, st) && |deck| == DECK_SIZE && StartHand(g, st, deck).Ok? && |ReadySet(st.seats)| >= 2
    requires NextButton(MapSeats(st.seats, FreshHand), st.button) < |st.seats|
    ensures var dealt := Opened(g, st, deck); var next := StartHand(g, st, deck).value;
      var reset := MapSeats(st.seats, FreshHand); var bb := BigBlindSeat(reset, NextButton(reset, st.button));
      && |dealt.seats| == |st.seats|
      && if Unanswered(dealt.seats, g.cfg.bigBlind) then
           next == dealt && next.toAct.Some? && bb < |next.seats| && IsNext(next.seats, bb, 1, CanAct, next.toAct.value)
         else next.street.Payout?
  {
    hide NextButton, SmallBlindSeat, BigBlindSeat, DealHoles, Blinded, DealOrder, Next, ReadySet, MapSeats, Closed, NextStreet,
      Unanswered;
    var dealt := Opened(g, st, deck);
    OpenedSettled(g, st, deck);
    SettledOpen(g, dealt, 0);
    NobodyActed(g, st, deck);
    if |ActorSet(dealt.seats)| >= 2 {
      TwoOpenRound(dealt.seats, dealt.currentBet);
    }
    if Closed(dealt.seats, dealt.currentBet) {
      CloseLeads(g, dealt);
    } else {
      OpenedTurn(g, st, deck);
      var reset := MapSeats(st.seats, FreshHand);
      NextIs(dealt.seats, BigBlindSeat(reset, NextButton(reset, st.button)), CanAct);
    }
  }

  lemma NobodyActed(g: Game, st: State, deck: seq<Card>)
    requires IdleInv(g, st) && |deck| == DECK_SIZE && |ReadySet(st.seats)| >= 2
    requires NextButton(MapSeats(st.seats, FreshHand), st.button) < |st.seats|
    ensures var seats := Opened(g, st, deck).seats;
      forall i: nat :: i < |seats| && seats[i].Some? ==> !seats[i].value.acted
  {
    hide NextButton, DealHoles, Blinded, DealOrder, ReadySet, BlindOf, Opened;
    OpenedSeats(g, st, deck);
  }

  lemma TwoOpenRound(seats: seq<Slot>, bet: nat)
    requires |ActorSet(seats)| >= 2 && forall i: nat :: i < |seats| && seats[i].Some? ==> !seats[i].value.acted
    ensures Unanswered(seats, bet)
  {
    var i :| i in ActorSet(seats);
    var j := TwoMembers(ActorSet(seats), i);
    assert CanAct(seats[i]) && CanAct(seats[j]);
  }

  lemma StartsFrom(g: Game, st: State, deck: seq<Card>)
    requires TableInv(g, st) && |deck| == DECK_SIZE && StartHand(g, st, deck).Ok?
    ensures var idle := Idle(g, st);
      && IdleInv(g, idle) && idle.button == st.button && |ReadySet(idle.seats)| >= 2
      && StartHand(g, idle, deck) == StartHand(g, st, deck) && HandOrPaid(g, StartHand(g, st, deck).value)
  {
    hide Opened, NextStreet, ReadySet, HandInv, PaidInv, Closed;
    StartKeeps(g, st, deck);
    IdleKeeps(g, st);
  }

  /** The button, the blinds and the hand as dealt. */
  lemma DealPositions(g: Game, st: State, deck: seq<Card>)
    requires IdleInv(g, st) && |deck| == DECK_SIZE && StartHand(g, st, deck).Ok?
    ensures var reset := MapSeats(st.seats, FreshHand); var c := NextButton(reset, st.button);
      && c < |reset| && ButtonAt(st.button, st.seats, c)
      && BlindsAt(st.seats, c, SmallBlindSeat(reset, c), BigBlindSeat(reset, c))
      && DealtHand(g, st, c, SmallBlindSeat(reset, c), BigBlindSeat(reset, c), deck, Opened(g, st, deck))
      && StartHand(g, st, deck).value.button == Some(c) && SameDeal(Opened(g, st, deck), StartHand(g, st, deck).value)
  {
    hide Opened, NextButton, SmallBlindSeat, BigBlindSeat, BlindsAt, ButtonAt, MapSeats, ReadySet, StartHand;
    StartsWithTwo(g, st, deck);
    ButtonLive(g, st);
    ButtonMoves(st);
    ButtonReady(g, st);
    BlindsFollow(st.seats, NextButton(MapSeats(st.seats, FreshHand), st.button));
    HandIsDealt(g, st, deck);
    StartKeepsDeal(g, st, deck);
  }

  lemma StartsWithTwo(g: Game, st: State, deck: seq<Card>)
    requires IdleInv(g, st) && |deck| == DECK_SIZE && StartHand(g, st, deck).Ok?
    ensures |ReadySet(st.seats)| >= 2
  {
  }

  lemma ButtonReady(g: Game, st: State)
    requires IdleInv(g, st) && |ReadySet(st.seats)| >= 2
    ensures var c := NextButton(MapSeats(st.seats, FreshHand), st.button); c < |st.seats| && Ready(st.seats[c])
  {
    ButtonLive(g, st);
    ResetReadyAt(st.seats);
  }

  /** A hand is started exactly between hands and with two players or more who have chips. */
  lemma StartAcceptedIff(g: Game, st: State, deck: seq<Card>)
    requires TableInv(g, st) && |deck| == DECK_SIZE
    ensures Shaped(g, st) && (StartHand(g, st, deck).Ok? <==> !HandInv(g, st) && |ReadySet(st.seats)| >= 2)
    ensures StartHand(g, st, deck).Err? ==>
      StartHand(g, st, deck).error == if HandInv(g, st) then HandInProgress else TooFewPlayers
  {
    hide Opened, NextStreet, HandInv, Closed, Idle;
    InvShaped(g, st);
    IdleSeats(g, st);
    IdleReady(g, st);
  }

  lemma IdleReady(g: Game, st: State)
    requires TableInv(g, st)
    ensures Shaped(g, st) && ReadySet(Idle(g, st).seats) == ReadySet(st.seats)
    ensures |Idle(g, st).seats| == g.cfg.seats && (Idle(g, st).button.Some? ==> Idle(g, st).button.value < g.cfg.seats)
  {
    hide HandInv;
    InvShaped(g, st);
    if st.awaiting {
      forall i: nat | i < |st.seats|
        ensures Ready(MapSeats(st.seats, HandRules.Cleared)[i]) <==> Ready(st.seats[i])
      {
        assert MapSeats(st.seats, HandRules.Cleared)[i] == MapSlot(st.seats[i], HandRules.Cleared);
      }
    }
  }

  /**
   * Where a started hand puts everybody. The button c moves on from the last hand's to the next player with chips, the
   * blinds are posted by the players after it, or by it and the other player when there are two, each for the blind or
   * all they have; and unless the blinds leave nothing to decide, the first to act is the next able player after the
   * big blind.
   */
  lemma StartPositions(g: Game, st: State, deck: seq<Card>) returns (c: nat, sb: nat, bb: nat, dealt: State)
    requires TableInv(g, st) && |deck| == DECK_SIZE && StartHand(g, st, deck).Ok?
    ensures var idle := Idle(g, st); var next := StartHand(g, st, deck).value;
      && idle.button == st.button && (st.button.Some? ==> st.button.value < |idle.seats|)
      && ButtonAt(st.button, idle.seats, c) && c < |idle.seats| && next.button == Some(c)
      && BlindsAt(idle.seats, c, sb, bb) && DealtHand(g, idle, c, sb, bb, deck, dealt)
      && SameDeal(dealt, next) && bb < |dealt.seats|
      && (if Unanswered(dealt.seats, g.cfg.bigBlind) then
            next == dealt && next.toAct.Some? && IsNext(next.seats, bb, 1, CanAct, next.toAct.value)
          else next.street.Payout?)
  {
    hide Opened, NextButton, SmallBlindSeat, BigBlindSeat, BlindsAt, ButtonAt, DealtHand, MapSeats, StartHand, IdleInv, TableInv, SameDeal, IsNext, ReadySet, Unanswered;
    var idle := Idle(g, st);
    StartsFrom(g, st, deck);
    IdleShape(g, idle);
    DealPositions(g, idle, deck);
    FirstActs(g, idle, deck);
    var reset := MapSeats(idle.seats, FreshHand);
    c := NextButton(reset, idle.button);
    sb, bb := SmallBlindSeat(reset, c), BigBlindSeat(reset, c);
    dealt := Opened(g, idle, deck);
  }

  lemma IdleShape(g: Game, st: State)
    requires IdleInv(g, st)
    ensures GoodConfig(g.cfg) && |st.seats| == g.cfg.seats && (st.button.Some? ==> st.button.value < |st.seats|)
  {
  }
}
